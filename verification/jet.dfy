/** The storage-engine side of the NTDS extractor: the status-code widths the
    extension passes around, the decoded account record, and the engine state
    (`jetState` in the source) reduced to what the stream and the setup rely on:
    the stack of engine handles acquired so far and the account-table cursor.
    The engine's own calls are opaque; each is modelled by its outcome. */
module Jet {

  /** A JET_ERR: the engine's signed 32-bit status; zero is JET_errSuccess. */
  newtype int32 = x: int | -0x8000_0000 <= x < 0x8000_0000

  /** A DWORD: the unsigned 32-bit status the channel callbacks return. */
  newtype uint32 = x: int | 0 <= x < 0x1_0000_0000

  const JetErrSuccess: int32 := 0

  /** The engine's status for "the cursor is not on a record". */
  const JetErrNoCurrentRecord: int32 := -1603

  const ErrorSuccess: uint32 := 0

  /** A failing engine status: anything but JET_errSuccess. */
  type JetFailure = e: int32 | e != 0 witness -1603

  /** Storing a JET_ERR into a DWORD: the bits are kept, so a negative status
      becomes a large unsigned one, and only success maps to success. */
  function ToDword(e: int32): (d: uint32)
    ensures 0 <= e ==> d as int == e as int
    ensures e < 0 ==> d as int == e as int + 0x1_0000_0000
    ensures d == ErrorSuccess <==> e == JetErrSuccess
  {
    (e as int % 0x1_0000_0000) as uint32
  }

  /** Storing a DWORD back into a JET_ERR: the inverse reinterpretation. */
  function ToInt32(d: uint32): (e: int32)
    ensures ToDword(e) == d
    ensures e == JetErrSuccess <==> d == ErrorSuccess
  {
    if d < 0x8000_0000 then d as int as int32 else (d as int - 0x1_0000_0000) as int32
  }

  /** A status survives the round trip JET_ERR -> DWORD -> JET_ERR unchanged. */
  lemma StatusRoundTrip(e: int32)
    ensures ToInt32(ToDword(e)) == e
  {
    var d := ToDword(e);
    if e < 0 {
      assert d as int == e as int + 0x1_0000_0000;
    }
  }

  /** A secret attribute of an account: the decrypted bytes, or absent when the
      row carries no secret of that kind. */
  datatype Secret = Absent | Present(bytes: seq<bv8>)

  /** One decoded account (`ntdsAccount`); its layout is not part of this model,
      only the identity fields and the secret fields as values. */
  datatype Account = Account(rid: nat, principalName: string, accountFlags: nat, secrets: seq<Secret>)

  /** An account slot as `memset` leaves it: every field zero or empty. */
  const Zeroed: Account := Account(0, "", 0, [])

  /** What decoding the row under the cursor yields: the record, or the failing
      status together with whatever the decoder had written before it failed. */
  datatype DecodeOutcome =
    | Decoded(account: Account)
    | DecodeFailed(status: JetFailure, partial: Account)

  /** Decoding at cursor position `i` of a table whose qualifying rows decode
      to `rows`: at position |rows|, past the last row, there is no current
      record. */
  function DecodeAt(rows: seq<DecodeOutcome>, i: nat): DecodeOutcome
  {
    if i < |rows| then rows[i] else DecodeFailed(JetErrNoCurrentRecord, Zeroed)
  }

  /** The engine handles, in the order setup acquires them. */
  datatype Handle = Instance | Session | Database | Table

  /** Everything an open stream holds, bottom of the stack first. */
  const EngineStack: seq<Handle> := [Instance, Session, Database, Table]

  /** `s` back to front: the order in which a stack built as `s` is unwound. */
  function Reversed<T>(s: seq<T>): (r: seq<T>)
    ensures |r| == |s|
    ensures forall i :: 0 <= i < |s| ==> r[i] == s[|s| - 1 - i]
  {
    if s == [] then [] else [s[|s| - 1]] + Reversed(s[..|s| - 1])
  }

  /** Unwinding a full engine releases the table first and the instance last. */
  lemma EngineStackUnwindOrder()
    ensures Reversed(EngineStack) == [Table, Database, Session, Instance]
  {
    var r := Reversed(EngineStack);
    assert r[0] == Table && r[1] == Database && r[2] == Session && r[3] == Instance;
  }

  /** The engine state: handles held (a stack, top last), handles released so
      far (in release order), and the account-table cursor over the decode
      outcomes of the table's qualifying rows. */
  class JetState {
    const rows: seq<DecodeOutcome>
    var cursor: nat
    var held: seq<Handle>
    var released: seq<Handle>

    constructor (rows: seq<DecodeOutcome>)
      ensures this.rows == rows && cursor == 0
      ensures held == [] && released == []
    {
      this.rows := rows;
      cursor := 0;
      held := [];
      released := [];
    }

    /** An engine call that succeeded and now owns handle `h`. */
    method Acquire(h: Handle)
      modifies this`held
      ensures held == old(held) + [h]
    {
      held := held + [h];
    }

    /** JetTerm / JetEndSession: releases `h`, which must be the most recently
        acquired handle still held. */
    method Release(h: Handle)
      requires held != [] && held[|held| - 1] == h
      modifies this`held, this`released
      ensures held == old(held)[..|old(held)| - 1]
      ensures released == old(released) + [h]
    {
      held := held[..|held| - 1];
      released := released + [h];
    }

    /** engine_shutdown: releases every handle still held, newest first. */
    method Shutdown()
      modifies this`held, this`released
      ensures held == []
      ensures released == old(released) + Reversed(old(held))
    {
      while held != []
        invariant released + Reversed(held) == old(released) + Reversed(old(held))
        decreases |held|
      {
        var top := held[|held| - 1];
        assert Reversed(held) == [top] + Reversed(held[..|held| - 1]);
        Release(top);
      }
    }

    /** read_user: decodes the row under the cursor without moving it. */
    method ReadUser() returns (status: int32, account: Account)
      ensures status == JetErrSuccess <==> DecodeAt(rows, cursor).Decoded?
      ensures DecodeAt(rows, cursor).Decoded? ==> account == DecodeAt(rows, cursor).account
      ensures DecodeAt(rows, cursor).DecodeFailed? ==>
                status == DecodeAt(rows, cursor).status && account == DecodeAt(rows, cursor).partial
    {
      match DecodeAt(rows, cursor)
      case Decoded(a) =>
        status, account := JetErrSuccess, a;
      case DecodeFailed(e, p) =>
        status, account := e, p;
    }

    /** next_user: moves the cursor to the next qualifying row, or past the
        last one (position |rows|), where it stays; the status says whether
        the cursor is now on a row. */
    method NextUser() returns (status: int32)
      modifies this`cursor
      ensures cursor == if old(cursor) < |rows| then old(cursor) + 1 else old(cursor)
      ensures status == JetErrSuccess <==> cursor < |rows|
    {
      if cursor < |rows| {
        cursor := cursor + 1;
      }
      status := if cursor < |rows| then JetErrSuccess else JetErrNoCurrentRecord;
    }
  }
}
