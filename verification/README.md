# NTDS account stream: a Dafny model

The meterpreter `priv` extension has a command, `ntds_parse`, that opens an
offline copy of a domain controller's `NTDS.dit` database with the ESE (Jet)
storage engine. It then exposes the decoded user accounts to the remote side
as a pull channel. This project models the pieces of
`source/extensions/priv/server/ntds.c` that hold the logic and proves
properties about them:

- **Setup (`ntds_parse`).** A fixed sequence of thirteen stages: the file
  check, the boot key, engine startup, session, attach, table, column map,
  key fetch, key decrypt, first user, next user, context allocation and
  channel creation. The engine stages acquire handles (instance, session,
  database, table). A failure at any stage answers the request with that
  stage's code after unwinding what is held, except the context and channel
  allocations, which answer ERROR_NOT_ENOUGH_MEMORY with every engine handle
  still held (see Findings). Engine startup failure instead ends the
  process.
- **The stream context (`NTDSContext`)** and its callbacks:
  - read (`ntds_channel_read` with `ntds_read_into_batch`) fills a 20-slot
    batch, decoding the current row and then advancing the cursor, until the
    first decode failure;
  - eof reports the sticky end-of-data flag;
  - write is a no-op;
  - close shuts the engine down.

Files:

- `jet.dfy` (module `Jet`):
  - the status widths: `JET_ERR` as `int32`, `DWORD` as `uint32`, and the
    two's-complement conversion between them;
  - the decoded account;
  - the decode outcome of a row;
  - the engine state `JetState`, a class holding the stack of held handles,
    the handles released so far, and the cursor over the table's qualifying
    rows.
- `ntds_stream.dfy` (module `NtdsStream`):
  - the class `NtdsContext` with the four callbacks. The read loop is an
    imperative `while` over a 20-slot array, proved equal to the pure
    specification `ReadSpec`;
  - lemmas about successive reads (`ReadRepeatedly`).
- `ntds_setup.dfy` (module `NtdsSetup`):
  - the stages and their outcomes;
  - the unwind rule `Run`, with the source's own behaviour `SetupAsWritten`
    and the corrected behaviour `SetupSpec` (see Findings);
  - the imperative `Parse` and its phase methods, which acquire and release
    handles on a `JetState` exactly as the source does, proved equal to
    `SetupAsWritten`;
  - lemmas for each unwind case.

The table's rows are modelled as a sequence of decode outcomes, each either a
record or a failing status with the partial record. The cursor is an index
into that sequence. Position `|rows|` is past the last row; decoding there
fails with `JET_errNoCurrentRecord` (-1603), and `next_user` stays there.
Setup's own `find_first` and `next_user` calls (lines 90-101) are modelled by
their statuses alone. The stream then starts at position 0 of the rows as
setup left them.

The model follows the code in these places, where one might expect
otherwise:

- **A first decode failure.** One might expect a failed first decode to
  mark the stream exhausted. The code (lines 178-181) returns the failure
  and leaves the flag unchanged. `ReadSpec` and `LastRead` state the code's
  behaviour.
- **A stream that ends on a batch boundary.** When the rows run out exactly
  at a batch boundary (including a stream with no rows left at all), the
  next read fails with "no current record", and the flag is never set.
  `DrainTable` states this: the flag ends up set exactly when the row count
  is not a multiple of 20.
- **Close.** One might expect close to be idempotent and a read or eof after
  close to fail. The code frees the context, so any later callback is a use
  after free. The model records closing in a `closed` field, and the
  callbacks require an open context.
- **Failure codes.** The code answers with raw engine statuses and
  `GetLastError` codes, not with codes of its own, and the model does the
  same.
- **Allocation failures.** Not every setup failure unwinds. `Parse` does
  what the code does; the corrected rule is proved alongside it (see
  Findings).

## Model

| member | source | states |
|---|---|---|
| Jet.ToDword | source/extensions/priv/server/ntds.c:155-156 | a JET_ERR stored in a DWORD keeps its bits (negative statuses become values of 2^31 and above), and only success maps to ERROR_SUCCESS |
| Jet.ToInt32 | source/extensions/priv/server/ntds.c:177 | the DWORD result read back as a JET_ERR is the inverse reinterpretation, and only ERROR_SUCCESS maps to success |
| Jet.StatusRoundTrip | source/extensions/priv/server/ntds.c:177-180 | a status survives JET_ERR to DWORD to JET_ERR unchanged, so the read loop sees the decoder's own status |
| Jet.Reversed | source/extensions/priv/server/ntds.c:48-56 | position i of the unwind order is the handle acquired at position n-1-i |
| Jet.EngineStackUnwindOrder | source/extensions/priv/server/ntds.c:200 | a full engine is released table, database, session, instance |
| Jet.JetState.constructor | source/extensions/priv/server/ntds.c:20 | a fresh engine state holds nothing, has released nothing and has its cursor at the first row |
| Jet.JetState.Acquire | source/extensions/priv/server/ntds.c:41-59 | a successful engine call pushes its handle on the held stack |
| Jet.JetState.Release | source/extensions/priv/server/ntds.c:48-55 | JetTerm / JetEndSession release the newest held handle and nothing else |
| Jet.JetState.Shutdown | source/extensions/priv/server/ntds.c:61 | engine_shutdown leaves nothing held and appends the held handles to the released ones, newest first |
| Jet.JetState.ReadUser | source/extensions/priv/server/ntds.c:154 | read_user succeeds exactly when the row under the cursor decodes, returning its record, or else its failing status and partial record; the cursor does not move |
| Jet.JetState.NextUser | source/extensions/priv/server/ntds.c:187 | next_user moves the cursor one row on (never past the end) and reports success exactly when the cursor is on a row |
| NtdsStream.RunEnd | source/extensions/priv/server/ntds.c:176-186 | the read loop stops at the first row that fails to decode or after 20 rows, whichever is first; every row before the stop decodes |
| NtdsStream.RunEndIsFirstFailure | source/extensions/priv/server/ntds.c:176-186 | any stop point with only decodable rows before it and a failure (or the bound) at it is the loop's stop point |
| NtdsStream.ReadSpec | source/extensions/priv/server/ntds.c:168-192 | at most 20 decodes; one cursor advance per decoded row; the decoded rows' records fill the leading slots and every later slot stays zeroed; a first-slot failure returns its code with flag and cursor unchanged; a later failure returns success and sets the flag; a full batch leaves the flag alone; a set flag stays set |
| NtdsStream.NtdsContext.constructor | source/extensions/priv/server/ntds.c:115-118 | a new context owns the full engine stack and its end-of-data flag is false |
| NtdsStream.NtdsContext.ReadIntoBatch | source/extensions/priv/server/ntds.c:149-163 | succeeds exactly when the current row decodes; then only slot i changes, to the record; on failure it returns the status as a DWORD and writes nothing |
| NtdsStream.NtdsContext.ChannelRead | source/extensions/priv/server/ntds.c:168-192 | the status, the 20 slots, the new cursor and the new flag are exactly ReadSpec of the old cursor and flag (the return of next_user is ignored) |
| NtdsStream.NtdsContext.ChannelEof | source/extensions/priv/server/ntds.c:209-215 | reports the current flag with ERROR_SUCCESS and changes nothing |
| NtdsStream.NtdsContext.ChannelWrite | source/extensions/priv/server/ntds.c:142-145 | a write always succeeds and changes nothing |
| NtdsStream.NtdsContext.ChannelClose | source/extensions/priv/server/ntds.c:197-205 | close releases table, database, session, instance in that order, leaves nothing held, keeps the flag and succeeds |
| NtdsStream.ReadsDeliverRowsInOrder | source/extensions/priv/server/ntds.c:176-190 | over any number of reads, the records delivered are the rows' records in cursor order, each once, none skipped |
| NtdsStream.ReadsPassOnlyDecodedRows | source/extensions/priv/server/ntds.c:176-187 | every row that successive reads move the cursor over decoded, so no partial record is ever delivered |
| NtdsStream.ReadsKeepEndOfData | source/extensions/priv/server/ntds.c:183 | once set, the flag stays set over any number of reads (nothing resets it) |
| NtdsStream.ReadAfterEndFails | source/extensions/priv/server/ntds.c:176-181 | the read after a short batch meets the same failing row first: it fails, delivers nothing, and leaves cursor and flag as they were |
| NtdsStream.FullRead | source/extensions/priv/server/ntds.c:176-188 | with 20 decodable rows ahead, a read advances the cursor by 20 and leaves the flag as it was |
| NtdsStream.FullBatchesWhileRowsRemain | source/extensions/priv/server/ntds.c:176-188 | while full batches of decodable rows remain, k reads advance the cursor by 20k and leave the flag as it was |
| NtdsStream.LastRead | source/extensions/priv/server/ntds.c:176-186 | the read that meets the end delivers the remaining rows and sets the flag, or, with no rows left, fails with JET_errNoCurrentRecord and leaves the flag |
| NtdsStream.DrainTable | source/extensions/priv/server/ntds.c:168-192 | N/20+1 reads of a decodable table deliver all N records in order; the flag ends set exactly when N is not a multiple of 20 |
| NtdsSetup.JetResult | source/extensions/priv/server/ntds.c:47-49 | an engine stage passes exactly on JET_errSuccess; a failure is answered with the status as a DWORD, never ERROR_SUCCESS |
| NtdsSetup.ResultOf | source/extensions/priv/server/ntds.c:23-130 | each stage's pass or fail and its answer code; a failing stage is never answered with ERROR_SUCCESS, except the two stages that answer GetLastError |
| NtdsSetup.Run | source/extensions/priv/server/ntds.c:17-138 | only engine startup ends the process; a created channel comes with ERROR_SUCCESS and nothing released; a failure that leaves handles held is an allocation failure under the source's rule, answered with ERROR_NOT_ENOUGH_MEMORY |
| NtdsSetup.SetupAsWritten | source/extensions/priv/server/ntds.c:17-138 | as written, a failed setup leaves engine handles held only when it answers ERROR_NOT_ENOUGH_MEMORY, and then has released nothing |
| NtdsSetup.SetupSpec | source/extensions/priv/server/ntds.c:59-130 | with the corrected rule, no failed setup leaves any engine handle held |
| NtdsSetup.Parse | source/extensions/priv/server/ntds.c:17-138 | the response (abort status, or code with the handles held and released) is SetupAsWritten of the call outcomes; a context exists exactly when a channel was created, with the flag clear, the engine stack held and the cursor on the first row |
| NtdsSetup.ShutdownAndAnswer | source/extensions/priv/server/ntds.c:59-101 | a failure from the table to the next user shuts the engine down, newest handle first, and answers with that stage's code |
| NtdsSetup.AttachDatabase | source/extensions/priv/server/ntds.c:45-64 | session, attach and table stages, each failure unwound as the source does; on success the whole engine stack is held |
| NtdsSetup.PrepareCursor | source/extensions/priv/server/ntds.c:65-101 | column map, key fetch, key decrypt, first and next user; any failure shuts the engine down and answers its code |
| NtdsSetup.OpenChannel | source/extensions/priv/server/ntds.c:108-133 | context then channel; a failure of either answers ERROR_NOT_ENOUGH_MEMORY with the engine stack still held; a context exists exactly when both succeed, with a clear flag over the held engine |
| NtdsSetup.FileMissingAnswersNotFound | source/extensions/priv/server/ntds.c:23-26 | a missing file is answered with 2 and nothing acquired or released |
| NtdsSetup.SysKeyFailureAnswersLastError | source/extensions/priv/server/ntds.c:31-34 | an unreadable boot key is answered with the last-error code, nothing acquired |
| NtdsSetup.LaterStagesNeverAbort | source/extensions/priv/server/ntds.c:41-44 | no stage after engine startup ends the process |
| NtdsSetup.StartupFailureAborts | source/extensions/priv/server/ntds.c:41-44 | setup ends the process exactly when engine startup fails after the file and key checks pass, with the startup status |
| NtdsSetup.SessionFailureTerminatesEngineOnly | source/extensions/priv/server/ntds.c:46-51 | a session failure releases the instance only and answers the session status |
| NtdsSetup.AttachFailureEndsSessionThenEngine | source/extensions/priv/server/ntds.c:52-58 | an attach failure releases the session, then the instance, and answers the attach status |
| NtdsSetup.TableFailureShutsDownEngine | source/extensions/priv/server/ntds.c:59-64 | a table failure releases database, session, instance and answers the table status |
| NtdsSetup.LateFailureReleasesAll | source/extensions/priv/server/ntds.c:65-101 | from the column map on, the first failing stage answers its code after releasing everything held, newest first (as written: when it fails before the context allocation) |
| NtdsSetup.CursorFailureShutsDownEngine | source/extensions/priv/server/ntds.c:65-101 | as written, a failure from the column map to the next user answers the first failing stage's code after releasing table, database, session, instance, and creates no channel |
| NtdsSetup.LaterFailureShutsDownEngine | source/extensions/priv/server/ntds.c:65-130 | with the corrected rule, any failure once the table is open, allocations included, releases table, database, session, instance, holds nothing and creates no channel |
| NtdsSetup.ChannelIffRestPass | source/extensions/priv/server/ntds.c:126-133 | from any stage on, a channel is created exactly when that stage and every later one pass |
| NtdsSetup.PassingRunHoldsAll | source/extensions/priv/server/ntds.c:132-137 | when every remaining stage passes, the answer is ERROR_SUCCESS with all acquired handles held and none released |
| NtdsSetup.EveryStagePasses | source/extensions/priv/server/ntds.c:23-130 | every stage passes exactly when every external call of setup succeeds |
| NtdsSetup.ChannelOnlyWhenEveryStagePasses | source/extensions/priv/server/ntds.c:126-133 | as written, a channel is created exactly when every call succeeds, and then the answer is success with the four engine handles held and none released |
| NtdsSetup.AsWrittenAgreesFrom | source/extensions/priv/server/ntds.c:23-130 | from any stage on, the source's rule and the corrected one agree when both allocations succeed or an earlier stage fails |
| NtdsSetup.AsWrittenAgreesWhenAllocationsSucceed | source/extensions/priv/server/ntds.c:110-130 | the source's setup and the corrected rule agree on every input, except where the cursor reaches the first user and an allocation then fails |
| NtdsSetup.AsWrittenLeaksEngineWhenAllocationFails | source/extensions/priv/server/ntds.c:110-130 | as written, a failed context or channel allocation answers 8 with all four handles still held; the corrected rule answers 8 after releasing them, table first |

## Left out

- The engine calls themselves (engine_startup, JetBeginSession, open_database, JetOpenTable, get_column_info, find_first, next_user, read_user, engine_shutdown) have no visible implementation. Each is modelled by its outcome. engine_shutdown is taken to release every held handle, newest first.
- Setup's own find_first and next_user (lines 90-101) are modelled by their statuses only, independent of the rows. The stream starts at the first row of the modelled sequence, so an input where setup's next_user passes with no row left is not ruled out.
- Jet.JetState.NextUser: next_user is taken to move exactly one qualifying row on, or to stay past the end; it cannot fail while rows remain. Line 187 ignores its status, so a next_user that failed in place would make the next read_user decode the same row again. The model cannot express that, and the "each once, none skipped" of NtdsStream.ReadsDeliverRowsInOrder rests on this assumption.
- get_syskey, get_PEK and decrypt_PEK are platform and crypto calls. They are modelled by success flags and statuses; the key bytes are not modelled. The same goes for the column map and the decrypted key kept in the context.
- The file-existence check is a filesystem call; only its result, code 2, is modelled.
- The packet and TLV response, packet_transmit_response, and channel creation and registration (channel_create_pool, channel_set_type, the channel id TLV) are transport. Channel creation is modelled by its success flag alone.
- exit(startupStatus) ends the process. It is modelled as the terminal outcome `Aborted`.
- malloc, calloc, free and memset bookkeeping is left out, along with the strncpy of the path. This includes the jetState, column-map and key buffers, which leak on several failure paths.
- The raw memcpy of the batch into the caller's buffer, and `*bytesRead = bufferSize` (lines 189-190), are byte-layout copying. The batch is modelled as the sequence of 20 account slots, which assumes `bufferSize` is exactly the size of those 20 slots. With a smaller buffer the source drops records the cursor has already moved past; with a larger one it copies past the end of the batch array. NtdsStream.ReadsDeliverRowsInOrder ("each once, none skipped") and NtdsStream.DrainTable rest on this assumption.
- The in-memory layout of `ntdsAccount` is not modelled. An account is a value with identity fields and secrets.
- A callback on a closed context is a use after free in the source. It is outside the model: the callbacks require an open context.

## Findings

| source | as written | input that shows it | evidently intended | confidence | as-written member | corrected member |
|---|---|---|---|---|---|---|
| source/extensions/priv/server/ntds.c:110-130 | a failed `calloc` of the context, or a failed `channel_create_pool`, jumps to `out` without `engine_shutdown`, so the instance, session, database and table stay open with no owner | every call succeeds up to and including next_user, then `calloc` returns NULL (or the channel cannot be created) | shut the engine down like every other failure after the table is open, so that no setup failure leaves engine handles open | not executed | NtdsSetup.AsWrittenLeaksEngineWhenAllocationFails | NtdsSetup.LaterFailureShutsDownEngine |
