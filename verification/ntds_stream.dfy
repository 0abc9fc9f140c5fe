/** The NTDS channel: the context a stream carries between requests and the
    pool-channel callbacks read, eof, write and close. A read fills a fixed
    batch of 20 account slots by repeating "decode the current row, then
    advance the cursor", and stops at the first failed decode. */
module NtdsStream {
  import opened Jet

  /** The number of account slots in one batch. */
  const BatchSize: nat := 20

  /** Every cursor position from `a` up to (not including) `b` holds a row
      that decodes. */
  ghost predicate DecodesFrom(rows: seq<DecodeOutcome>, a: nat, b: nat)
    decreases b - a
  {
    a < b ==> DecodeAt(rows, a).Decoded? && DecodesFrom(rows, a + 1, b)
  }

  /** Each position of a decodable range decodes. */
  lemma {:induction false} DecodesAt(rows: seq<DecodeOutcome>, a: nat, b: nat, i: nat)
    requires DecodesFrom(rows, a, b) && a <= i < b
    ensures DecodeAt(rows, i).Decoded?
    decreases i - a
  {
    if a < i {
      DecodesAt(rows, a + 1, b, i);
    }
  }

  /** Decodable ranges that meet join into one decodable range. */
  lemma {:induction false} DecodesJoin(rows: seq<DecodeOutcome>, a: nat, b: nat, c: nat)
    requires a <= b <= c
    requires DecodesFrom(rows, a, b) && DecodesFrom(rows, b, c)
    ensures DecodesFrom(rows, a, c)
    decreases b - a
  {
    if a < b {
      DecodesJoin(rows, a + 1, b, c);
    }
  }

  /** A decodable range followed by one decodable row. */
  lemma {:induction false} DecodesExtend(rows: seq<DecodeOutcome>, a: nat, b: nat)
    requires a <= b && DecodesFrom(rows, a, b) && DecodeAt(rows, b).Decoded?
    ensures DecodesFrom(rows, a, b + 1)
  {
    assert DecodesFrom(rows, b + 1, b + 1);
    DecodesJoin(rows, a, b, b + 1);
  }

  /** Part of a decodable range is decodable. */
  lemma {:induction false} DecodesWithin(rows: seq<DecodeOutcome>, a: nat, b: nat, c: nat, d: nat)
    requires a <= c <= d <= b && DecodesFrom(rows, a, b)
    ensures DecodesFrom(rows, c, d)
    decreases d - c
  {
    if c < d {
      DecodesAt(rows, a, b, c);
      DecodesWithin(rows, a, b, c + 1, d);
    }
  }

  /** What a slot holds after a decode: the record, or nothing written. */
  function Slot(o: DecodeOutcome): Account
  {
    if o.Decoded? then o.account else Zeroed
  }

  /** The records of the `n` rows from cursor position `a` on, slot by slot. */
  function Records(rows: seq<DecodeOutcome>, a: nat, n: nat): (r: seq<Account>)
    ensures |r| == n
    ensures forall k :: 0 <= k < n ==> r[k] == Slot(DecodeAt(rows, a + k))
  {
    seq(n, k requires 0 <= k < n => Slot(DecodeAt(rows, a + k)))
  }

  /** The records of two adjacent ranges are the records of the joined range. */
  lemma {:induction false} RecordsAppend(rows: seq<DecodeOutcome>, a: nat, n: nat, m: nat)
    ensures Records(rows, a, n + m) == Records(rows, a, n) + Records(rows, a + n, m)
  {
    var l, r := Records(rows, a, n + m), Records(rows, a, n) + Records(rows, a + n, m);
    forall k | 0 <= k < n + m ensures l[k] == r[k] {
      if n <= k {
        assert r[k] == Records(rows, a + n, m)[k - n];
      }
    }
  }

  /** The first `n` slots of a batch. */
  function Leading(batch: seq<Account>, n: nat): (r: seq<Account>)
    requires n <= |batch|
    ensures |r| == n
    ensures forall i :: 0 <= i < n ==> r[i] == batch[i]
  {
    seq(n, i requires 0 <= i < n => batch[i])
  }

  /** `n` slots as `memset` left them. */
  function Zeros(n: nat): (r: seq<Account>)
    ensures |r| == n
    ensures forall i :: 0 <= i < n ==> r[i] == Zeroed
  {
    seq(n, _ => Zeroed)
  }

  /** Where a run of decodes from cursor position `pos` stops: at the first
      row that fails to decode, or at `end`, whichever comes first. */
  function RunEnd(rows: seq<DecodeOutcome>, pos: nat, end: nat): (c: nat)
    requires pos <= end && pos <= |rows|
    ensures pos <= c <= end && c <= |rows|
    ensures DecodesFrom(rows, pos, c)
    ensures c < end ==> DecodeAt(rows, c).DecodeFailed?
    decreases end - pos
  {
    if pos == end || DecodeAt(rows, pos).DecodeFailed? then pos
    else RunEnd(rows, pos + 1, end)
  }

  /** A decodable range from `pos` that is ended by a failure (or by `end`) is
      the run. */
  lemma {:induction false} RunEndIsFirstFailure(rows: seq<DecodeOutcome>, pos: nat, end: nat, c: nat)
    requires pos <= c <= end && c <= |rows|
    requires DecodesFrom(rows, pos, c)
    requires c < end ==> DecodeAt(rows, c).DecodeFailed?
    ensures RunEnd(rows, pos, end) == c
    decreases c - pos
  {
    if pos < c {
      RunEndIsFirstFailure(rows, pos + 1, end, c);
    }
  }

  /** The observable effect of one read request: the returned status, the 20
      slots handed to the channel, and the cursor and end-of-data flag after. */
  datatype ReadOutcome = ReadOutcome(status: uint32, batch: seq<Account>, cursor: nat, eof: bool)

  /** One read request against cursor position `pos` with end-of-data flag
      `eof`. A failure on the first slot is returned as the status; a failure on
      a later slot sets the flag and the request still succeeds. */
  function ReadSpec(rows: seq<DecodeOutcome>, pos: nat, eof: bool): (o: ReadOutcome)
    requires pos <= |rows|
    ensures pos <= o.cursor <= |rows| && o.cursor <= pos + BatchSize
    ensures DecodesFrom(rows, pos, o.cursor)
    ensures o.cursor < pos + BatchSize ==> DecodeAt(rows, o.cursor).DecodeFailed?
    ensures o.batch == Records(rows, pos, o.cursor - pos) + Zeros(BatchSize - (o.cursor - pos))
    ensures o.status == ErrorSuccess <==> DecodeAt(rows, pos).Decoded?
    ensures DecodeAt(rows, pos).DecodeFailed? ==>
              o.status == ToDword(DecodeAt(rows, pos).status) && o.cursor == pos && o.eof == eof
    ensures pos < o.cursor < pos + BatchSize ==> o.eof
    ensures o.cursor == pos + BatchSize ==> o.eof == eof
    ensures eof ==> o.eof
  {
    var c := RunEnd(rows, pos, pos + BatchSize);
    var batch := Records(rows, pos, c - pos) + Zeros(BatchSize - (c - pos));
    var status := if c == pos then ToDword(DecodeAt(rows, pos).status) else ErrorSuccess;
    ReadOutcome(status, batch, c, eof || pos < c < pos + BatchSize)
  }

  /** Twenty slots holding the records of the `n` rows from `pos`, then
      untouched slots, are that batch. */
  lemma {:induction false} SlotsAreBatch(slots: seq<Account>, rows: seq<DecodeOutcome>, pos: nat, n: nat)
    requires n <= BatchSize && |slots| == BatchSize
    requires forall k :: 0 <= k < n ==> slots[k] == Slot(DecodeAt(rows, pos + k))
    requires forall k :: n <= k < BatchSize ==> slots[k] == Zeroed
    ensures slots == Records(rows, pos, n) + Zeros(BatchSize - n)
  {
    var b := Records(rows, pos, n) + Zeros(BatchSize - n);
    forall k | 0 <= k < BatchSize ensures slots[k] == b[k] {
      if n <= k {
        assert b[k] == Zeros(BatchSize - n)[k - n];
      }
    }
  }

  /** `NTDSContext`: the engine state (with its cursor) and the end-of-data
      flag. `closed` records that the close callback has freed the context;
      no callback may run on it afterwards. */
  class NtdsContext {
    const state: JetState
    var eof: bool
    var closed: bool

    /** An open context owns the full engine stack; a closed one owns nothing.
        The cursor is on a row or just past the last one. */
    ghost predicate Valid()
      reads this, state
    {
      && state.held == (if closed then [] else EngineStack)
      && state.cursor <= |state.rows|
    }

    constructor (state: JetState)
      requires state.held == EngineStack && state.cursor <= |state.rows|
      ensures this.state == state && Valid()
      ensures !eof && !closed
    {
      this.state := state;
      eof := false;
      closed := false;
    }

    /** ntds_read_into_batch: decodes the current row and copies the record into
        slot `i` only when the decode succeeded. */
    method ReadIntoBatch(slots: array<Account>, i: nat) returns (result: uint32)
      requires i < slots.Length
      modifies slots
      ensures result == ErrorSuccess <==> DecodeAt(state.rows, state.cursor).Decoded?
      ensures DecodeAt(state.rows, state.cursor).Decoded? ==>
                slots[..] == old(slots[..])[i := DecodeAt(state.rows, state.cursor).account]
      ensures DecodeAt(state.rows, state.cursor).DecodeFailed? ==>
                result == ToDword(DecodeAt(state.rows, state.cursor).status) && slots[..] == old(slots[..])
    {
      var readStatus, userAccount := state.ReadUser();
      result := ToDword(readStatus);
      if readStatus == JetErrSuccess {
        slots[i] := userAccount;
      }
    }

    /** ntds_channel_read: one read request, as `ReadSpec` describes it. */
    method ChannelRead() returns (result: uint32, batch: seq<Account>)
      requires Valid() && !closed
      modifies this`eof, state`cursor
      ensures Valid() && !closed
      ensures ReadOutcome(result, batch, state.cursor, eof) == ReadSpec(state.rows, old(state.cursor), old(eof))
    {
      ghost var start := state.cursor;
      var slots := new Account[BatchSize](_ => Zeroed);
      result := ErrorSuccess;
      var i := 0;
      while i < BatchSize
        invariant 0 <= i <= BatchSize
        invariant state.cursor == start + i <= |state.rows|
        invariant eof == old(eof) && result == ErrorSuccess
        invariant DecodesFrom(state.rows, start, start + i)
        invariant forall k :: 0 <= k < i ==> slots[k] == Slot(DecodeAt(state.rows, start + k))
        invariant forall k :: i <= k < BatchSize ==> slots[k] == Zeroed
      {
        var batched := ReadIntoBatch(slots, i);
        var readStatus := ToInt32(batched);
        if readStatus != JetErrSuccess {
          if i == 0 {
            result := ToDword(readStatus);
          } else {
            eof := true;
          }
          break;
        }
        DecodesExtend(state.rows, start, start + i);
        var _ := state.NextUser();
        i := i + 1;
      }
      RunEndIsFirstFailure(state.rows, start, start + BatchSize, start + i);
      batch := slots[..];
      SlotsAreBatch(batch, state.rows, start, i);
    }

    /** ntds_channel_eof: reports the flag and changes nothing. */
    method ChannelEof() returns (status: uint32, isEof: bool)
      requires !closed
      ensures status == ErrorSuccess && isEof == eof
    {
      status, isEof := ErrorSuccess, eof;
    }

    /** ntds_channel_write: the channel does not take writes; a write succeeds
        and has no effect. */
    method ChannelWrite(buffer: seq<bv8>) returns (status: uint32)
      ensures status == ErrorSuccess
    {
      status := ErrorSuccess;
    }

    /** ntds_channel_close: shuts the engine down (newest handle first) and
        frees the context. */
    method ChannelClose() returns (status: uint32)
      requires Valid() && !closed
      modifies this`closed, state`held, state`released
      ensures Valid() && closed
      ensures state.released == old(state.released) + [Table, Database, Session, Instance]
      ensures eof == old(eof) && status == ErrorSuccess
    {
      EngineStackUnwindOrder();
      state.Shutdown();
      closed := true;
      status := ErrorSuccess;
    }
  }

  /** What a consumer has after some read requests: the records actually
      decoded (the leading slots of each batch), and the cursor and flag. */
  datatype Pulled = Pulled(delivered: seq<Account>, cursor: nat, eof: bool)

  /** `k` read requests in a row, starting at cursor `pos` with flag `eof`:
      `k - 1` requests, then one more from where they left off. */
  function ReadRepeatedly(rows: seq<DecodeOutcome>, pos: nat, eof: bool, k: nat): (p: Pulled)
    requires pos <= |rows|
    ensures pos <= p.cursor <= |rows|
    decreases k
  {
    if k == 0 then Pulled([], pos, eof)
    else
      var p := ReadRepeatedly(rows, pos, eof, k - 1);
      var o := ReadSpec(rows, p.cursor, p.eof);
      Pulled(p.delivered + Leading(o.batch, o.cursor - p.cursor), o.cursor, o.eof)
  }

  /** One more read on top of reads that delivered the records of `pos..c`:
      the records of `c..d` that it decoded are delivered after them. */
  lemma {:induction false} DeliverOneMore(rows: seq<DecodeOutcome>, pos: nat, p: Pulled, o: ReadOutcome, r: Pulled)
    requires pos <= p.cursor <= o.cursor <= p.cursor + BatchSize
    requires p.delivered == Records(rows, pos, p.cursor - pos)
    requires o.batch == Records(rows, p.cursor, o.cursor - p.cursor) + Zeros(BatchSize - (o.cursor - p.cursor))
    requires r == Pulled(p.delivered + Leading(o.batch, o.cursor - p.cursor), o.cursor, o.eof)
    ensures r.delivered == Records(rows, pos, r.cursor - pos)
  {
    assert Leading(o.batch, o.cursor - p.cursor) == Records(rows, p.cursor, o.cursor - p.cursor);
    RecordsAppend(rows, pos, p.cursor - pos, o.cursor - p.cursor);
  }

  /** Successive reads deliver the table's rows in cursor order, each exactly
      once and none skipped. */
  lemma {:induction false} ReadsDeliverRowsInOrder(rows: seq<DecodeOutcome>, pos: nat, eof: bool, k: nat)
    requires pos <= |rows|
    ensures var p := ReadRepeatedly(rows, pos, eof, k);
      p.delivered == Records(rows, pos, p.cursor - pos)
    decreases k
  {
    if k > 0 {
      ReadsDeliverRowsInOrder(rows, pos, eof, k - 1);
      var p := ReadRepeatedly(rows, pos, eof, k - 1);
      var o := ReadSpec(rows, p.cursor, p.eof);
      assert o.batch == Records(rows, p.cursor, o.cursor - p.cursor) + Zeros(BatchSize - (o.cursor - p.cursor));
      var r := ReadRepeatedly(rows, pos, eof, k);
      assert r == Pulled(p.delivered + Leading(o.batch, o.cursor - p.cursor), o.cursor, o.eof);
      DeliverOneMore(rows, pos, p, o, r);
    }
  }

  /** Every row that successive reads moved the cursor over decoded: no
      partially decoded record is ever delivered. */
  lemma {:induction false} ReadsPassOnlyDecodedRows(rows: seq<DecodeOutcome>, pos: nat, eof: bool, k: nat)
    requires pos <= |rows|
    ensures DecodesFrom(rows, pos, ReadRepeatedly(rows, pos, eof, k).cursor)
    decreases k
  {
    if k > 0 {
      ReadsPassOnlyDecodedRows(rows, pos, eof, k - 1);
      var p := ReadRepeatedly(rows, pos, eof, k - 1);
      DecodesJoin(rows, pos, p.cursor, ReadSpec(rows, p.cursor, p.eof).cursor);
    }
  }

  /** Once set, the end-of-data flag stays set. */
  lemma {:induction false} ReadsKeepEndOfData(rows: seq<DecodeOutcome>, pos: nat, k: nat)
    requires pos <= |rows|
    ensures ReadRepeatedly(rows, pos, true, k).eof
    decreases k
  {
    if k > 0 {
      ReadsKeepEndOfData(rows, pos, k - 1);
    }
  }

  /** A read made after the flag was set decodes the same failing row again:
      it returns that failure and delivers nothing. */
  lemma {:induction false} ReadAfterEndFails(rows: seq<DecodeOutcome>, pos: nat, eof: bool)
    requires pos <= |rows|
    requires var o := ReadSpec(rows, pos, eof); pos < o.cursor < pos + BatchSize
    ensures var o := ReadSpec(rows, pos, eof);
      var next := ReadSpec(rows, o.cursor, o.eof);
      && o.eof
      && next.status != ErrorSuccess
      && next.cursor == o.cursor && next.eof
      && next.batch == Zeros(BatchSize)
  {
    var o := ReadSpec(rows, pos, eof);
    var next := ReadSpec(rows, o.cursor, o.eof);
    assert next.cursor == o.cursor;
    assert Records(rows, o.cursor, 0) == [];
  }

  /** With 20 decodable rows ahead, a read fills every slot and leaves the
      flag as it was. */
  lemma {:induction false} FullRead(rows: seq<DecodeOutcome>, pos: nat, eof: bool)
    requires pos + BatchSize <= |rows| && DecodesFrom(rows, pos, pos + BatchSize)
    ensures ReadSpec(rows, pos, eof).cursor == pos + BatchSize
    ensures ReadSpec(rows, pos, eof).eof == eof
  {
    RunEndIsFirstFailure(rows, pos, pos + BatchSize, pos + BatchSize);
  }

  /** While at least a full batch of decodable rows remains, every read fills
      all 20 slots and leaves the flag as it was. */
  lemma {:induction false} FullBatchesWhileRowsRemain(rows: seq<DecodeOutcome>, pos: nat, eof: bool, k: nat)
    requires pos + BatchSize * k <= |rows| && DecodesFrom(rows, pos, |rows|)
    ensures ReadRepeatedly(rows, pos, eof, k).cursor == pos + BatchSize * k
    ensures ReadRepeatedly(rows, pos, eof, k).eof == eof
    decreases k
  {
    if k > 0 {
      FullBatchesWhileRowsRemain(rows, pos, eof, k - 1);
      DecodesWithin(rows, pos, |rows|, pos + BatchSize * (k - 1), pos + BatchSize * k);
      FullRead(rows, pos + BatchSize * (k - 1), eof);
    }
  }

  /** The read that meets the end of a fully decodable table: with rows left it
      delivers them all and sets the flag; with none left it fails with "no
      current record" and leaves the flag alone. */
  lemma {:induction false} LastRead(rows: seq<DecodeOutcome>, pos: nat, eof: bool)
    requires pos <= |rows| < pos + BatchSize && DecodesFrom(rows, pos, |rows|)
    ensures var o := ReadSpec(rows, pos, eof);
      && o.cursor == |rows|
      && (pos < |rows| ==> o.status == ErrorSuccess && o.eof)
      && (pos == |rows| ==> o.status == ToDword(JetErrNoCurrentRecord) && o.eof == eof)
  {
    RunEndIsFirstFailure(rows, pos, pos + BatchSize, |rows|);
  }

  /** Draining a table of N decodable rows from a fresh stream: N / 20 full
      batches and one more read deliver every row in order. The flag ends up
      set exactly when N is not a multiple of 20; otherwise the last read
      fails instead. */
  lemma {:induction false} DrainTable(rows: seq<DecodeOutcome>)
    requires DecodesFrom(rows, 0, |rows|)
    ensures var p := ReadRepeatedly(rows, 0, false, |rows| / BatchSize + 1);
      && p.delivered == Records(rows, 0, |rows|)
      && p.eof == (|rows| % BatchSize != 0)
  {
    var q := |rows| / BatchSize;
    FullBatchesWhileRowsRemain(rows, 0, false, q);
    var full := ReadRepeatedly(rows, 0, false, q);
    DecodesWithin(rows, 0, |rows|, full.cursor, |rows|);
    LastRead(rows, full.cursor, full.eof);
    ReadsDeliverRowsInOrder(rows, 0, false, q + 1);
  }
}
