/** Stream setup (`ntds_parse`): a fixed sequence of stages, each an external
    call whose outcome is given; the engine stages acquire handles, and a
    failure at any stage answers the request after releasing what is held,
    except the context and channel allocations, which answer
    ERROR_NOT_ENOUGH_MEMORY with every engine handle still held (see
    `AsWrittenLeaksEngineWhenAllocationFails`).
    The file check, the boot key, the engine calls, the key fetch and decrypt,
    the context allocation and the channel creation are opaque: each is
    modelled by its outcome alone. */
module NtdsSetup {
  import opened Jet
  import opened NtdsStream

  /** ERROR_FILE_NOT_FOUND, answered when the database file is missing. */
  const ErrorFileNotFound: uint32 := 2

  /** ERROR_NOT_ENOUGH_MEMORY, answered when the context or the channel
      cannot be allocated. */
  const ErrorNotEnoughMemory: uint32 := 8

  /** The outcome of every external call setup makes: whether the file
      exists, whether the boot key was read (and the last-error code if not),
      the engine statuses, whether the key decrypted (and the last-error code
      if not), whether the context and the channel were allocated, and the
      decode outcomes of the qualifying rows the stream will read. */
  datatype SetupInputs = SetupInputs(
    fileExists: bool,
    sysKeyFound: bool, sysKeyError: uint32,
    startup: int32, session: int32, openDatabase: int32, openTable: int32,
    columns: int32, pek: int32,
    pekDecrypted: bool, decryptError: uint32,
    findFirst: int32, nextUser: int32,
    contextAllocated: bool, channelCreated: bool,
    rows: seq<DecodeOutcome>)

  /** The stages of setup. */
  datatype Stage =
    | FileCheck | GetSysKey | EngineStartup | BeginSession | OpenDatabase | OpenTable
    | GetColumnInfo | GetPek | DecryptPek | FindFirst | NextUser | AllocContext | CreateChannel

  /** The position of a stage in the order the source runs them, from 0. */
  function Rank(s: Stage): nat
  {
    match s
    case FileCheck => 0
    case GetSysKey => 1
    case EngineStartup => 2
    case BeginSession => 3
    case OpenDatabase => 4
    case OpenTable => 5
    case GetColumnInfo => 6
    case GetPek => 7
    case DecryptPek => 8
    case FindFirst => 9
    case NextUser => 10
    case AllocContext => 11
    case CreateChannel => 12
  }

  /** The stage that runs once `s` has passed; channel creation is the last. */
  function Following(s: Stage): (r: Stage)
    requires s != CreateChannel
    ensures Rank(r) == Rank(s) + 1
  {
    match s
    case FileCheck => GetSysKey
    case GetSysKey => EngineStartup
    case EngineStartup => BeginSession
    case BeginSession => OpenDatabase
    case OpenDatabase => OpenTable
    case OpenTable => GetColumnInfo
    case GetColumnInfo => GetPek
    case GetPek => DecryptPek
    case DecryptPek => FindFirst
    case FindFirst => NextUser
    case NextUser => AllocContext
    case AllocContext => CreateChannel
  }

  datatype StageResult = Passed | Failed(code: uint32)

  /** An engine status as a stage result; a failing status is answered as
      the DWORD with the same bits. */
  function JetResult(e: int32): (r: StageResult)
    ensures r.Passed? <==> e == JetErrSuccess
    ensures r.Failed? ==> r.code == ToDword(e) && r.code != ErrorSuccess
  {
    if e == JetErrSuccess then Passed else Failed(ToDword(e))
  }

  /** What stage `s` yields under the given outcomes, and the code setup
      answers with when it fails. */
  function ResultOf(o: SetupInputs, s: Stage): (r: StageResult)
    ensures r.Failed? && s != GetSysKey && s != DecryptPek ==> r.code != ErrorSuccess
  {
    match s
    case FileCheck => if o.fileExists then Passed else Failed(ErrorFileNotFound)
    case GetSysKey => if o.sysKeyFound then Passed else Failed(o.sysKeyError)
    case EngineStartup => JetResult(o.startup)
    case BeginSession => JetResult(o.session)
    case OpenDatabase => JetResult(o.openDatabase)
    case OpenTable => JetResult(o.openTable)
    case GetColumnInfo => JetResult(o.columns)
    case GetPek => JetResult(o.pek)
    case DecryptPek => if o.pekDecrypted then Passed else Failed(o.decryptError)
    case FindFirst => JetResult(o.findFirst)
    case NextUser => JetResult(o.nextUser)
    case AllocContext => if o.contextAllocated then Passed else Failed(ErrorNotEnoughMemory)
    case CreateChannel => if o.channelCreated then Passed else Failed(ErrorNotEnoughMemory)
  }

  /** The engine handle a stage acquires when it passes. */
  function Acquires(s: Stage): seq<Handle>
  {
    match s
    case EngineStartup => [Instance]
    case BeginSession => [Session]
    case OpenDatabase => [Database]
    case OpenTable => [Table]
    case _ => []
  }

  /** Every handle stage `s` and the stages after it acquire when all of
      them pass, in order. */
  function AcquiredFrom(s: Stage): seq<Handle>
    decreases 12 - Rank(s)
  {
    if s == CreateChannel then Acquires(s) else Acquires(s) + AcquiredFrom(Following(s))
  }

  /** Stage `s` and every stage after it pass. */
  predicate PassFrom(o: SetupInputs, s: Stage)
    decreases 12 - Rank(s)
  {
    ResultOf(o, s).Passed? && (s == CreateChannel || PassFrom(o, Following(s)))
  }

  /** What answering the setup request leaves behind: engine startup failing
      ends the process with its status; otherwise a response code, the handles
      still held, the handles released (in release order), and whether a
      channel was created. */
  datatype SetupEffect =
    | Aborted(status: int32)
    | Responded(res: uint32, held: seq<Handle>, released: seq<Handle>, channel: bool)

  /** Running stage `s` onwards with `held` acquired so far: the first
      failing stage answers with its code after every held handle is
      released, newest first (engine startup failing ends the process
      instead); when every stage passes a channel is created over everything
      held. With `unwindOnAlloc` false, a failure to allocate the context or
      the channel answers without releasing anything, as the source does. */
  function Run(o: SetupInputs, s: Stage, held: seq<Handle>, unwindOnAlloc: bool): (r: SetupEffect)
    ensures r.Aborted? ==> Rank(s) <= Rank(EngineStartup)
    ensures r.Responded? && r.channel ==> r.res == ErrorSuccess && r.released == []
    ensures r.Responded? && !r.channel && r.held != [] ==>
              !unwindOnAlloc && r.res == ErrorNotEnoughMemory && r.released == []
    decreases 12 - Rank(s)
  {
    match ResultOf(o, s)
    case Failed(code) =>
      if s == EngineStartup then Aborted(o.startup)
      else if !unwindOnAlloc && (s == AllocContext || s == CreateChannel) then Responded(code, held, [], false)
      else Responded(code, [], Reversed(held), false)
    case Passed =>
      if s == CreateChannel then Responded(ErrorSuccess, held + Acquires(s), [], true)
      else Run(o, Following(s), held + Acquires(s), unwindOnAlloc)
  }

  /** Setup as it is meant to behave: every failure unwinds all it acquired. */
  function SetupSpec(o: SetupInputs): (r: SetupEffect)
    ensures r.Responded? && !r.channel ==> r.held == []
  {
    Run(o, FileCheck, [], true)
  }

  /** Setup as the source writes it (lines 110-113 and 126-130 jump to the
      response without engine_shutdown). */
  function SetupAsWritten(o: SetupInputs): (r: SetupEffect)
    ensures r.Responded? && !r.channel && r.held != [] ==> r.res == ErrorNotEnoughMemory && r.released == []
  {
    Run(o, FileCheck, [], false)
  }

  /** One stage that passes: the run goes on with its handle acquired. */
  lemma RunPasses(o: SetupInputs, s: Stage, held: seq<Handle>, unwindOnAlloc: bool)
    requires s != CreateChannel && ResultOf(o, s).Passed?
    ensures Run(o, s, held, unwindOnAlloc) == Run(o, Following(s), held + Acquires(s), unwindOnAlloc)
  {
  }

  /** One stage that passes and acquires nothing: the run goes on as it was. */
  lemma RunSkips(o: SetupInputs, s: Stage, held: seq<Handle>, unwindOnAlloc: bool)
    requires s != CreateChannel && ResultOf(o, s).Passed? && Acquires(s) == []
    ensures Run(o, s, held, unwindOnAlloc) == Run(o, Following(s), held, unwindOnAlloc)
  {
    assert held + Acquires(s) == held;
  }

  /** One stage that fails, other than engine startup: everything held is
      released, newest first. */
  lemma RunFails(o: SetupInputs, s: Stage, held: seq<Handle>, unwindOnAlloc: bool)
    requires ResultOf(o, s).Failed? && s != EngineStartup
    requires unwindOnAlloc || (s != AllocContext && s != CreateChannel)
    ensures Run(o, s, held, unwindOnAlloc) == Responded(ResultOf(o, s).code, [], Reversed(held), false)
  {
  }

  /** ntds_parse with the outcomes of its external calls given: the file
      check, the boot key and engine startup, then the three phases below in
      source order; the response carries what the engine state holds and has
      released. */
  method Parse(o: SetupInputs) returns (effect: SetupEffect, ctx: NtdsContext?)
    ensures effect == SetupAsWritten(o)
    ensures ctx != null <==> effect.Responded? && effect.channel
    ensures ctx != null ==> fresh(ctx) && fresh(ctx.state) && ctx.Valid() && !ctx.eof && !ctx.closed
    ensures ctx != null ==> ctx.state.rows == o.rows && ctx.state.cursor == 0 && ctx.state.released == []
  {
    var engine := new JetState(o.rows);
    if !o.fileExists {
      RunFails(o, FileCheck, engine.held, false);
      return Responded(ErrorFileNotFound, engine.held, engine.released, false), null;
    }
    RunSkips(o, FileCheck, engine.held, false);
    if !o.sysKeyFound {
      RunFails(o, GetSysKey, engine.held, false);
      return Responded(o.sysKeyError, engine.held, engine.released, false), null;
    }
    RunSkips(o, GetSysKey, engine.held, false);
    if o.startup != JetErrSuccess {
      return Aborted(o.startup), null;
    }
    RunPasses(o, EngineStartup, engine.held, false);
    engine.Acquire(Instance);
    var attached;
    effect, attached := AttachDatabase(o, engine);
    if !attached {
      return effect, null;
    }
    var ready;
    effect, ready := PrepareCursor(o, engine);
    if !ready {
      return effect, null;
    }
    effect, ctx := OpenChannel(o, engine);
  }

  /** A failure at stage `s` once the engine is up (other than the two
      allocations): engine_shutdown releases everything held, newest first,
      and the request is answered with `code`. */
  method ShutdownAndAnswer(o: SetupInputs, s: Stage, engine: JetState, code: uint32) returns (effect: SetupEffect)
    requires s != EngineStartup && s != AllocContext && s != CreateChannel
    requires ResultOf(o, s) == Failed(code)
    requires engine.released == []
    modifies engine`held, engine`released
    ensures effect == Run(o, s, old(engine.held), false)
    ensures effect == Responded(code, engine.held, engine.released, false)
  {
    RunFails(o, s, engine.held, false);
    engine.Shutdown();
    effect := Responded(code, engine.held, engine.released, false);
  }

  /** A session, then the database, then the account table: a session
      failure terminates the engine, an attach failure ends the session and
      then terminates the engine, a table failure shuts the engine down. */
  method AttachDatabase(o: SetupInputs, engine: JetState) returns (effect: SetupEffect, attached: bool)
    requires engine.held == [Instance] && engine.released == []
    modifies engine`held, engine`released
    ensures attached ==> engine.held == EngineStack && engine.released == []
    ensures attached ==> Run(o, BeginSession, [Instance], false) == Run(o, GetColumnInfo, EngineStack, false)
    ensures !attached ==> effect == Run(o, BeginSession, [Instance], false)
    ensures !attached ==> effect == Responded(effect.res, engine.held, engine.released, false)
  {
    if o.session != JetErrSuccess {
      RunFails(o, BeginSession, engine.held, false);
      assert Reversed(engine.held) == [Instance];
      engine.Release(Instance);
      return Responded(ToDword(o.session), engine.held, engine.released, false), false;
    }
    RunPasses(o, BeginSession, engine.held, false);
    engine.Acquire(Session);
    if o.openDatabase != JetErrSuccess {
      RunFails(o, OpenDatabase, engine.held, false);
      assert Reversed(engine.held) == [Session, Instance];
      engine.Release(Session);
      engine.Release(Instance);
      return Responded(ToDword(o.openDatabase), engine.held, engine.released, false), false;
    }
    RunPasses(o, OpenDatabase, engine.held, false);
    engine.Acquire(Database);
    if o.openTable != JetErrSuccess {
      effect := ShutdownAndAnswer(o, OpenTable, engine, ToDword(o.openTable));
      return effect, false;
    }
    RunPasses(o, OpenTable, engine.held, false);
    engine.Acquire(Table);
    effect, attached := Responded(ErrorSuccess, engine.held, engine.released, false), true;
  }

  /** The column map, the key fetch and decrypt, then the cursor on the
      first user: every failure shuts the engine down. */
  method PrepareCursor(o: SetupInputs, engine: JetState) returns (effect: SetupEffect, ready: bool)
    requires engine.held == EngineStack && engine.released == []
    modifies engine`held, engine`released
    ensures ready ==> engine.held == EngineStack && engine.released == []
    ensures ready ==> Run(o, GetColumnInfo, EngineStack, false) == Run(o, AllocContext, EngineStack, false)
    ensures !ready ==> effect == Run(o, GetColumnInfo, EngineStack, false)
    ensures !ready ==> effect == Responded(effect.res, engine.held, engine.released, false)
  {
    if o.columns != JetErrSuccess {
      effect := ShutdownAndAnswer(o, GetColumnInfo, engine, ToDword(o.columns));
      return effect, false;
    }
    RunSkips(o, GetColumnInfo, engine.held, false);
    if o.pek != JetErrSuccess {
      effect := ShutdownAndAnswer(o, GetPek, engine, ToDword(o.pek));
      return effect, false;
    }
    RunSkips(o, GetPek, engine.held, false);
    if !o.pekDecrypted {
      effect := ShutdownAndAnswer(o, DecryptPek, engine, o.decryptError);
      return effect, false;
    }
    RunSkips(o, DecryptPek, engine.held, false);
    if o.findFirst != JetErrSuccess {
      effect := ShutdownAndAnswer(o, FindFirst, engine, ToDword(o.findFirst));
      return effect, false;
    }
    RunSkips(o, FindFirst, engine.held, false);
    if o.nextUser != JetErrSuccess {
      effect := ShutdownAndAnswer(o, NextUser, engine, ToDword(o.nextUser));
      return effect, false;
    }
    RunSkips(o, NextUser, engine.held, false);
    effect, ready := Responded(ErrorSuccess, engine.held, engine.released, false), true;
  }

  /** The context, with the flag clear, then the channel over it. A failure
      of either is answered with ERROR_NOT_ENOUGH_MEMORY without shutting the
      engine down, so every engine handle stays held (see
      `AsWrittenLeaksEngineWhenAllocationFails`). */
  method OpenChannel(o: SetupInputs, engine: JetState) returns (effect: SetupEffect, ctx: NtdsContext?)
    requires engine.held == EngineStack && engine.released == [] && engine.cursor <= |engine.rows|
    ensures effect == Run(o, AllocContext, EngineStack, false)
    ensures effect.Responded? && effect.held == engine.held && effect.released == engine.released
    ensures ctx != null <==> effect.channel
    ensures ctx != null ==> fresh(ctx) && ctx.state == engine && ctx.Valid() && !ctx.eof && !ctx.closed
  {
    ctx := null;
    if !o.contextAllocated {
      return Responded(ErrorNotEnoughMemory, engine.held, engine.released, false), null;
    }
    RunSkips(o, AllocContext, engine.held, false);
    ctx := new NtdsContext(engine);
    if !o.channelCreated {
      return Responded(ErrorNotEnoughMemory, engine.held, engine.released, false), null;
    }
    assert EngineStack + Acquires(CreateChannel) == EngineStack;
    effect := Responded(ErrorSuccess, engine.held, engine.released, true);
  }

  /** The first three stages pass, so the engine instance is up. */
  predicate EngineUp(o: SetupInputs)
  {
    o.fileExists && o.sysKeyFound && o.startup == JetErrSuccess
  }

  /** The first six stages pass, so the account table is open. */
  predicate TableOpen(o: SetupInputs)
  {
    EngineUp(o) && o.session == JetErrSuccess && o.openDatabase == JetErrSuccess
    && o.openTable == JetErrSuccess
  }

  /** Every stage up to the cursor on the first user passes. */
  predicate CursorReady(o: SetupInputs)
  {
    TableOpen(o) && o.columns == JetErrSuccess && o.pek == JetErrSuccess && o.pekDecrypted
    && o.findFirst == JetErrSuccess && o.nextUser == JetErrSuccess
  }

  /** Once the engine is up, setup has the instance and goes on to the
      session. */
  lemma ReachSession(o: SetupInputs, unwindOnAlloc: bool)
    requires EngineUp(o)
    ensures Run(o, FileCheck, [], unwindOnAlloc) == Run(o, BeginSession, [Instance], unwindOnAlloc)
  {
    RunSkips(o, FileCheck, [], unwindOnAlloc);
    RunSkips(o, GetSysKey, [], unwindOnAlloc);
    RunPasses(o, EngineStartup, [], unwindOnAlloc);
    assert [] + Acquires(EngineStartup) == [Instance];
  }

  /** Once the table is open, setup holds the whole engine stack and goes on
      to the column map. */
  lemma ReachColumns(o: SetupInputs, unwindOnAlloc: bool)
    requires TableOpen(o)
    ensures Run(o, FileCheck, [], unwindOnAlloc) == Run(o, GetColumnInfo, EngineStack, unwindOnAlloc)
  {
    ReachSession(o, unwindOnAlloc);
    RunPasses(o, BeginSession, [Instance], unwindOnAlloc);
    assert [Instance] + Acquires(BeginSession) == [Instance, Session];
    RunPasses(o, OpenDatabase, [Instance, Session], unwindOnAlloc);
    assert [Instance, Session] + Acquires(OpenDatabase) == [Instance, Session, Database];
    RunPasses(o, OpenTable, [Instance, Session, Database], unwindOnAlloc);
    assert [Instance, Session, Database] + Acquires(OpenTable) == EngineStack;
  }

  /** Once the cursor is on the first user, setup goes on to the context
      with the engine stack held. */
  lemma ReachContext(o: SetupInputs, unwindOnAlloc: bool)
    requires CursorReady(o)
    ensures Run(o, FileCheck, [], unwindOnAlloc) == Run(o, AllocContext, EngineStack, unwindOnAlloc)
  {
    ReachColumns(o, unwindOnAlloc);
    RunSkips(o, GetColumnInfo, EngineStack, unwindOnAlloc);
    RunSkips(o, GetPek, EngineStack, unwindOnAlloc);
    RunSkips(o, DecryptPek, EngineStack, unwindOnAlloc);
    RunSkips(o, FindFirst, EngineStack, unwindOnAlloc);
    RunSkips(o, NextUser, EngineStack, unwindOnAlloc);
  }

  /** A missing database file is answered with ERROR_FILE_NOT_FOUND before
      anything is acquired. */
  lemma FileMissingAnswersNotFound(o: SetupInputs)
    requires !o.fileExists
    ensures SetupAsWritten(o) == Responded(ErrorFileNotFound, [], [], false)
  {
    RunFails(o, FileCheck, [], false);
  }

  /** A boot key that cannot be read is answered with the last-error code
      before anything is acquired. */
  lemma SysKeyFailureAnswersLastError(o: SetupInputs)
    requires o.fileExists && !o.sysKeyFound
    ensures SetupAsWritten(o) == Responded(o.sysKeyError, [], [], false)
  {
    RunSkips(o, FileCheck, [], false);
    RunFails(o, GetSysKey, [], false);
  }

  /** Only the engine stage can end the process; no later stage does. */
  lemma {:induction false} LaterStagesNeverAbort(o: SetupInputs, s: Stage, held: seq<Handle>, unwindOnAlloc: bool)
    requires Rank(s) > Rank(EngineStartup)
    ensures Run(o, s, held, unwindOnAlloc).Responded?
    decreases 12 - Rank(s)
  {
    if ResultOf(o, s).Passed? && s != CreateChannel {
      LaterStagesNeverAbort(o, Following(s), held + Acquires(s), unwindOnAlloc);
    }
  }

  /** Setup ends the process exactly when the first two stages pass and
      engine startup fails, and it exits with the startup status. */
  lemma StartupFailureAborts(o: SetupInputs)
    ensures SetupAsWritten(o).Aborted? <==> o.fileExists && o.sysKeyFound && o.startup != JetErrSuccess
    ensures SetupAsWritten(o).Aborted? ==> SetupAsWritten(o).status == o.startup
  {
    if EngineUp(o) {
      ReachSession(o, false);
      LaterStagesNeverAbort(o, BeginSession, [Instance], false);
    } else if o.fileExists && o.sysKeyFound {
      RunSkips(o, FileCheck, [], false);
      RunSkips(o, GetSysKey, [], false);
    } else if o.fileExists {
      SysKeyFailureAnswersLastError(o);
    } else {
      FileMissingAnswersNotFound(o);
    }
  }

  /** A session failure terminates the engine instance and nothing else, and
      is answered with the session status. */
  lemma SessionFailureTerminatesEngineOnly(o: SetupInputs)
    requires EngineUp(o) && o.session != JetErrSuccess
    ensures SetupAsWritten(o) == Responded(ToDword(o.session), [], [Instance], false)
  {
    ReachSession(o, false);
    RunFails(o, BeginSession, [Instance], false);
    assert Reversed([Instance]) == [Instance];
  }

  /** An attach failure ends the session, then terminates the engine, and is
      answered with the attach status. */
  lemma AttachFailureEndsSessionThenEngine(o: SetupInputs)
    requires EngineUp(o) && o.session == JetErrSuccess && o.openDatabase != JetErrSuccess
    ensures SetupAsWritten(o) == Responded(ToDword(o.openDatabase), [], [Session, Instance], false)
  {
    ReachSession(o, false);
    RunPasses(o, BeginSession, [Instance], false);
    RunFails(o, OpenDatabase, [Instance, Session], false);
    assert Reversed([Instance, Session]) == [Session, Instance];
  }

  /** A table failure shuts the engine down: the database, the session, then
      the instance. */
  lemma TableFailureShutsDownEngine(o: SetupInputs)
    requires EngineUp(o) && o.session == JetErrSuccess && o.openDatabase == JetErrSuccess
    requires o.openTable != JetErrSuccess
    ensures SetupAsWritten(o) == Responded(ToDword(o.openTable), [], [Database, Session, Instance], false)
  {
    ReachSession(o, false);
    RunPasses(o, BeginSession, [Instance], false);
    RunPasses(o, OpenDatabase, [Instance, Session], false);
    RunFails(o, OpenTable, [Instance, Session, Database], false);
    assert Reversed([Instance, Session, Database]) == [Database, Session, Instance];
  }

  /** Stage `s` and every later stage before the context allocation pass. */
  predicate PassBeforeAlloc(o: SetupInputs, s: Stage)
    decreases 12 - Rank(s)
  {
    s == AllocContext || s == CreateChannel || (ResultOf(o, s).Passed? && PassBeforeAlloc(o, Following(s)))
  }

  /** The stages before the context allocation all pass exactly when the
      cursor is on the first user. */
  lemma CursorReadyIsPassBeforeAlloc(o: SetupInputs)
    ensures PassBeforeAlloc(o, FileCheck) <==> CursorReady(o)
  {
    assert PassBeforeAlloc(o, FindFirst) <==> o.findFirst == JetErrSuccess && o.nextUser == JetErrSuccess;
    assert PassBeforeAlloc(o, GetPek) <==> o.pek == JetErrSuccess && o.pekDecrypted && PassBeforeAlloc(o, FindFirst);
    assert PassBeforeAlloc(o, OpenTable) <==> o.openTable == JetErrSuccess && o.columns == JetErrSuccess && PassBeforeAlloc(o, GetPek);
    assert PassBeforeAlloc(o, BeginSession) <==> o.session == JetErrSuccess && o.openDatabase == JetErrSuccess && PassBeforeAlloc(o, OpenTable);
    assert PassBeforeAlloc(o, GetSysKey) <==> o.sysKeyFound && o.startup == JetErrSuccess && PassBeforeAlloc(o, BeginSession);
  }

  /** The stages after the table acquire nothing, so the first of them to
      fail releases everything held, newest first; as written this holds as
      long as the failure comes before the context allocation. */
  lemma {:induction false} LateFailureReleasesAll(o: SetupInputs, s: Stage, held: seq<Handle>, unwindOnAlloc: bool)
    requires Rank(s) >= Rank(GetColumnInfo) && !PassFrom(o, s)
    requires unwindOnAlloc || !PassBeforeAlloc(o, s)
    ensures Run(o, s, held, unwindOnAlloc) == Responded(ResultOf(o, FirstFailure(o, s)).code, [], Reversed(held), false)
    decreases 12 - Rank(s)
  {
    if ResultOf(o, s).Passed? {
      RunSkips(o, s, held, unwindOnAlloc);
      LateFailureReleasesAll(o, Following(s), held, unwindOnAlloc);
    } else {
      RunFails(o, s, held, unwindOnAlloc);
    }
  }

  /** The first stage from `s` on that fails. */
  function FirstFailure(o: SetupInputs, s: Stage): (f: Stage)
    requires !PassFrom(o, s)
    ensures Rank(s) <= Rank(f) && ResultOf(o, f).Failed?
    ensures forall t: Stage :: Rank(s) <= Rank(t) < Rank(f) ==> ResultOf(o, t).Passed?
    decreases 12 - Rank(s)
  {
    if ResultOf(o, s).Failed? then s
    else
      var f := FirstFailure(o, Following(s));
      assert forall t: Stage :: Rank(t) == Rank(s) ==> t == s;
      f
  }

  /** Every failure from the column map to the next user shuts the whole
      engine down, table first, answers that stage's code and creates no
      channel. */
  lemma CursorFailureShutsDownEngine(o: SetupInputs)
    requires TableOpen(o) && !CursorReady(o)
    ensures SetupAsWritten(o) == Responded(ResultOf(o, FirstFailure(o, GetColumnInfo)).code, [], [Table, Database, Session, Instance], false)
  {
    assert PassFrom(o, FindFirst) ==> o.findFirst == JetErrSuccess && o.nextUser == JetErrSuccess;
    assert PassFrom(o, GetPek) ==> o.pek == JetErrSuccess && o.pekDecrypted && PassFrom(o, FindFirst);
    assert PassFrom(o, GetColumnInfo) ==> o.columns == JetErrSuccess && PassFrom(o, GetPek);
    assert PassBeforeAlloc(o, FindFirst) ==> o.findFirst == JetErrSuccess && o.nextUser == JetErrSuccess;
    assert PassBeforeAlloc(o, GetPek) ==> o.pek == JetErrSuccess && o.pekDecrypted && PassBeforeAlloc(o, FindFirst);
    assert PassBeforeAlloc(o, GetColumnInfo) ==> o.columns == JetErrSuccess && PassBeforeAlloc(o, GetPek);
    ReachColumns(o, false);
    LateFailureReleasesAll(o, GetColumnInfo, EngineStack, false);
    EngineStackUnwindOrder();
  }

  /** With the corrected rule, every failure after the table is open (the
      column map, the key fetch and decrypt, the first and next user, the
      context and the channel) shuts the whole engine down, table first, and
      creates no channel. */
  lemma LaterFailureShutsDownEngine(o: SetupInputs)
    requires TableOpen(o) && !PassFrom(o, GetColumnInfo)
    ensures SetupSpec(o).Responded? && !SetupSpec(o).channel
    ensures SetupSpec(o).held == [] && SetupSpec(o).released == [Table, Database, Session, Instance]
  {
    ReachColumns(o, true);
    LateFailureReleasesAll(o, GetColumnInfo, EngineStack, true);
    EngineStackUnwindOrder();
  }

  /** From any stage on, a channel is created exactly when that stage and all
      later ones pass. */
  lemma {:induction false} ChannelIffRestPass(o: SetupInputs, s: Stage, held: seq<Handle>, unwindOnAlloc: bool)
    ensures (Run(o, s, held, unwindOnAlloc).Responded? && Run(o, s, held, unwindOnAlloc).channel) <==> PassFrom(o, s)
    decreases 12 - Rank(s)
  {
    if ResultOf(o, s).Passed? && s != CreateChannel {
      ChannelIffRestPass(o, Following(s), held + Acquires(s), unwindOnAlloc);
    }
  }

  /** When every stage from `s` on passes, the response is success over
      everything held and acquired, with nothing released. */
  lemma {:induction false} PassingRunHoldsAll(o: SetupInputs, s: Stage, held: seq<Handle>, unwindOnAlloc: bool)
    requires PassFrom(o, s)
    ensures Run(o, s, held, unwindOnAlloc) == Responded(ErrorSuccess, held + AcquiredFrom(s), [], true)
    decreases 12 - Rank(s)
  {
    if s == CreateChannel {
      assert AcquiredFrom(s) == Acquires(s);
    } else {
      var next := Following(s);
      var acquired := held + Acquires(s);
      RunPasses(o, s, held, unwindOnAlloc);
      assert PassFrom(o, next);
      PassingRunHoldsAll(o, next, acquired, unwindOnAlloc);
      assert AcquiredFrom(s) == Acquires(s) + AcquiredFrom(next);
      assert acquired + AcquiredFrom(next) == held + AcquiredFrom(s);
    }
  }

  /** All stages pass exactly when every external call succeeds. */
  lemma EveryStagePasses(o: SetupInputs)
    ensures PassFrom(o, FileCheck) <==> CursorReady(o) && o.contextAllocated && o.channelCreated
  {
    assert PassFrom(o, AllocContext) <==> o.contextAllocated && o.channelCreated;
    assert PassFrom(o, FindFirst) <==> o.findFirst == JetErrSuccess && o.nextUser == JetErrSuccess && PassFrom(o, AllocContext);
    assert PassFrom(o, GetPek) <==> o.pek == JetErrSuccess && o.pekDecrypted && PassFrom(o, FindFirst);
    assert PassFrom(o, OpenTable) <==> o.openTable == JetErrSuccess && o.columns == JetErrSuccess && PassFrom(o, GetPek);
    assert PassFrom(o, BeginSession) <==> o.session == JetErrSuccess && o.openDatabase == JetErrSuccess && PassFrom(o, OpenTable);
    assert PassFrom(o, GetSysKey) <==> o.sysKeyFound && o.startup == JetErrSuccess && PassFrom(o, BeginSession);
  }

  /** A channel is created only when every stage succeeds, and then setup
      answers success holding the whole engine stack and releasing nothing. */
  lemma ChannelOnlyWhenEveryStagePasses(o: SetupInputs)
    ensures (SetupAsWritten(o).Responded? && SetupAsWritten(o).channel) <==>
            CursorReady(o) && o.contextAllocated && o.channelCreated
    ensures SetupAsWritten(o).Responded? && SetupAsWritten(o).channel ==>
            SetupAsWritten(o) == Responded(ErrorSuccess, EngineStack, [], true)
  {
    ChannelIffRestPass(o, FileCheck, [], false);
    EveryStagePasses(o);
    if PassFrom(o, FileCheck) {
      PassingRunHoldsAll(o, FileCheck, [], false);
      assert AcquiredFrom(FileCheck) == EngineStack;
    }
  }

  /** From stage `s` on, the source's rule and the corrected one agree when
      both allocations succeed, or when a stage before them fails. */
  lemma {:induction false} AsWrittenAgreesFrom(o: SetupInputs, s: Stage, held: seq<Handle>)
    requires (o.contextAllocated && o.channelCreated) || !PassBeforeAlloc(o, s)
    ensures Run(o, s, held, false) == Run(o, s, held, true)
    decreases 12 - Rank(s)
  {
    if ResultOf(o, s).Passed? && s != CreateChannel {
      AsWrittenAgreesFrom(o, Following(s), held + Acquires(s));
    }
  }

  /** The source and the corrected rule differ only when the cursor reaches
      the first user and then the context or the channel cannot be
      allocated. */
  lemma AsWrittenAgreesWhenAllocationsSucceed(o: SetupInputs)
    requires !CursorReady(o) || (o.contextAllocated && o.channelCreated)
    ensures SetupAsWritten(o) == SetupSpec(o)
  {
    CursorReadyIsPassBeforeAlloc(o);
    AsWrittenAgreesFrom(o, FileCheck, []);
  }

  /** As written, a failed context or channel allocation answers
      ERROR_NOT_ENOUGH_MEMORY with all four engine handles still held and
      none released; the corrected rule shuts the engine down, table first. */
  lemma AsWrittenLeaksEngineWhenAllocationFails(o: SetupInputs)
    requires CursorReady(o) && !(o.contextAllocated && o.channelCreated)
    ensures SetupAsWritten(o) == Responded(ErrorNotEnoughMemory, EngineStack, [], false)
    ensures SetupSpec(o) == Responded(ErrorNotEnoughMemory, [], [Table, Database, Session, Instance], false)
  {
    ReachContext(o, false);
    ReachContext(o, true);
    EngineStackUnwindOrder();
    if o.contextAllocated {
      RunSkips(o, AllocContext, EngineStack, false);
      RunSkips(o, AllocContext, EngineStack, true);
    }
  }
}
