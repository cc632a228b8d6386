/**
 * Append, one statement at a time, from any number of transactions: the transaction-scoped advisory lock,
 * the read of the head, the insert, and commit or rollback whenever the surrounding transaction ends.
 */
module Appends {
  import opened Base
  import opened Bytes
  import opened Audit

  /** What a caller asks for. No instant means the zero time; no payload means its JSON could not be produced. */
  datatype Entry = Entry(actor: Text, action: Text, aggType: Text, aggId: Text, nanos: Option<int>,
                         payload: Option<Text>)

  function Stamp(e: Entry, now: int): int {
    (if e.nanos.None? then now else e.nanos.value) / 1000 * 1000
  }

  function RowFor(h: HashFunction, seqNo: int64, prev: Bytes, e: Entry, now: int): Row
    requires e.payload.Some?
  {
    var row := Row(seqNo, prev, [], e.actor, e.action, e.aggType, e.aggId, Stamp(e, now), e.payload.value);
    row.(hash := h(Preimage(row)))
  }

  function NextSeq(rows: seq<Row>): int64 {
    if rows == [] then 1 else Wrap64(rows[|rows| - 1].seqNo + 1)
  }

  /** A row built on the head keeps the chain, as long as its number still fits. */
  lemma AppendKeepsChain(h: HashFunction, rows: seq<Row>, e: Entry, now: int)
    requires Chain(h, rows) && e.payload.Some? && |rows| + 1 < TWO_63
    ensures Chain(h, rows + [RowFor(h, NextSeq(rows), PrevOf(rows), e, now)])
  {
    var all := rows + [RowFor(h, NextSeq(rows), PrevOf(rows), e, now)];
    assert all[..|rows|] == rows && all[..|rows| + 1] == all;
    SamePreimageOf(h, NextSeq(rows), PrevOf(rows), e, now);
    ChainGrows(h, all, |rows|);
  }

  /**
   * What a row says of the entry it was written for: the entry's own fields, the instant cut to the microsecond, the
   * next number, the hash of the row before and the digest of all of it.
   */
  ghost predicate Records(h: HashFunction, rows: seq<Row>, e: Entry, now: int, r: Row) {
    var at := if e.nanos.None? then now else e.nanos.value;
    && r.seqNo == (if rows == [] then 1 else Wrap64(rows[|rows| - 1].seqNo + 1))
    && r.prev == (if rows == [] then GENESIS else rows[|rows| - 1].hash)
    && r.actor == e.actor && r.action == e.action && r.aggType == e.aggType && r.aggId == e.aggId
    && Some(r.payload) == e.payload
    && r.nanos % 1000 == 0 && r.nanos <= at < r.nanos + 1000
    && r.hash == Digested(h, r)
  }

  lemma RecordsEntry(h: HashFunction, rows: seq<Row>, e: Entry, now: int)
    requires e.payload.Some?
    ensures Records(h, rows, e, now, RowFor(h, NextSeq(rows), PrevOf(rows), e, now))
  {
    SamePreimageOf(h, NextSeq(rows), PrevOf(rows), e, now);
  }

  lemma SamePreimageOf(h: HashFunction, seqNo: int64, prev: Bytes, e: Entry, now: int)
    requires e.payload.Some?
    ensures var r := RowFor(h, seqNo, prev, e, now); r.hash == h(Preimage(r)) && r.seqNo == seqNo && r.prev == prev
  {
    var r := RowFor(h, seqNo, prev, e, now);
    assert Preimage(r) == Preimage(r.(hash := []));
  }

  /** The statement of Append that the database refused, if any. */
  datatype Trouble = Fine | LockFails | ReadFails | InsertFails
  datatype Error = MarshalPayload | AcquireLock | ReadHead | InsertEntry

  /** The log as one transaction sees it: the committed rows and its own. */
  class Log {
    var rows: seq<Row>

    constructor (rows: seq<Row>)
      ensures this.rows == rows
    {
      this.rows := rows;
    }

    /** Append: one row onto the head, or an error and no row. The stored instant is exact to the microsecond. */
    method Append(h: HashFunction, e: Entry, now: int, trouble: Trouble) returns (err: Option<Error>)
      modifies this
      ensures err.None? <==> e.payload.Some? && trouble.Fine?
      ensures err.Some? ==> rows == old(rows)
      ensures err.None? ==> rows == old(rows) + [RowFor(h, NextSeq(old(rows)), PrevOf(old(rows)), e, now)]
      ensures err.None? ==> Records(h, old(rows), e, now, rows[|old(rows)|])
      ensures err.None? && Chain(h, old(rows)) && |old(rows)| + 1 < TWO_63 ==> Chain(h, rows)
    {
      var occurred := if e.nanos.None? then now else e.nanos.value;
      occurred := occurred - occurred % 1000;
      if e.payload.None? { return Some(MarshalPayload); }
      if trouble.LockFails? { return Some(AcquireLock); }
      if trouble.ReadFails? { return Some(ReadHead); }
      var seqNo: int64, prev: Bytes := 1, GENESIS;
      if rows != [] {
        var head := rows[|rows| - 1];
        seqNo, prev := Wrap64(head.seqNo + 1), head.hash;
      }
      var pre := Canonical(Fields(seqNo, Micros(occurred), e.actor, e.action, e.aggType, e.aggId, e.payload.value));
      if trouble.InsertFails? { return Some(InsertEntry); }
      ghost var before := rows;
      var row := Row(seqNo, prev, h(prev + pre), e.actor, e.action, e.aggType, e.aggId, occurred, e.payload.value);
      assert row == RowFor(h, NextSeq(before), PrevOf(before), e, now);
      rows := rows + [row];
      RecordsEntry(h, before, e, now);
      if Chain(h, before) && |before| + 1 < TWO_63 { AppendKeepsChain(h, before, e, now); }
      return None;
    }
  }

  // ---------------------------------------------------------------- interleaved transactions

  datatype Place = Outside | Locked | HeadSeen(seqNo: int64, prev: Bytes)
  datatype Tx = Tx(place: Place, pending: seq<Row>, appended: nat)

  /** `appended` counts the appends of the committed transactions. */
  datatype State = State(rows: seq<Row>, txs: map<nat, Tx>, lock: Option<nat>, appended: nat)

  datatype Step = Begin(t: nat) | Lock(t: nat) | Read(t: nat) | Insert(t: nat, e: Entry, now: int) | Commit(t: nat)
      | Rollback(t: nat)

  ghost predicate Enabled(s: State, step: Step) {
    if step.Begin? then step.t !in s.txs else
    && step.t in s.txs
    && match step {
       case Lock(t) => s.txs[t].place.Outside? && (s.lock.None? || s.lock == Some(t))
       case Read(t) => s.txs[t].place.Locked?
       case Insert(t, e, _) => s.txs[t].place.HeadSeen? && e.payload.Some?
       case Commit(t) => s.txs[t].place.Outside?
       case _ => true
       }
  }

  /** The lock ends with its transaction. */
  function Released(s: State, t: nat): Option<nat> { if s.lock == Some(t) then None else s.lock }

  ghost function Do(h: HashFunction, s: State, step: Step): State
    requires Enabled(s, step)
  {
    match step
    case Begin(t) => s.(txs := s.txs[t := Tx(Outside, [], 0)])
    case Lock(t) => s.(lock := Some(t), txs := s.txs[t := s.txs[t].(place := Locked)])
    case Read(t) =>
      var seen := s.rows + s.txs[t].pending;
      s.(txs := s.txs[t := s.txs[t].(place := HeadSeen(NextSeq(seen), PrevOf(seen)))])
    case Insert(t, e, now) =>
      var x := s.txs[t];
      s.(txs := s.txs[t := Tx(Outside, x.pending + [RowFor(h, x.place.seqNo, x.place.prev, e, now)], x.appended + 1)])
    case Commit(t) =>
      State(s.rows + s.txs[t].pending, s.txs - {t}, Released(s, t), s.appended + s.txs[t].appended)
    case Rollback(t) => s.(txs := s.txs - {t}, lock := Released(s, t))
  }

  ghost predicate Next(h: HashFunction, s: State, s': State) {
    exists step :: Enabled(s, step) && s' == Do(h, s, step)
  }

  /** Every row number of the run fits an int64. */
  ghost predicate Behavior(h: HashFunction, run: seq<State>) {
    && |run| > 0 && run[0] == State([], map[], None, 0)
    && (forall i :: 0 <= i < |run| - 1 ==> Next(h, run[i], run[i + 1]))
    && (forall i :: 0 <= i < |run| ==> Numbered(run[i]))
  }

  ghost predicate Numbered(s: State) {
    |s.rows| + 1 < TWO_63 && forall t :: t in s.txs ==> |s.rows| + |s.txs[t].pending| + 1 < TWO_63
  }

  /** Only the holder of the lock has rows of its own, and they continue the committed chain. */
  ghost predicate TxOk(h: HashFunction, s: State, t: nat)
    requires t in s.txs
  {
    var x := s.txs[t];
    var all := s.rows + x.pending;
    && x.appended == |x.pending|
    && Chain(h, all)
    && (s.lock != Some(t) ==> x.place.Outside? && x.pending == [])
    && (x.place.HeadSeen? ==> x.place.seqNo == NextSeq(all) && x.place.prev == PrevOf(all))
  }

  ghost predicate Inv(h: HashFunction, s: State) {
    && Chain(h, s.rows)
    && |s.rows| == s.appended
    && (forall t :: t in s.txs ==> TxOk(h, s, t))
    && (s.lock.Some? ==> s.lock.value in s.txs)
  }

  lemma StepKeeps(h: HashFunction, s: State, step: Step)
    requires Inv(h, s) && Numbered(s) && Enabled(s, step)
    ensures Inv(h, Do(h, s, step))
    ensures s.rows <= Do(h, s, step).rows
  {
    var s' := Do(h, s, step);
    assert s.rows + [] == s.rows;
    if !step.Begin? { assert TxOk(h, s, step.t); }
    if step.Insert? {
      var x := s.txs[step.t];
      AppendKeepsChain(h, s.rows + x.pending, step.e, step.now);
      assert s'.rows + s'.txs[step.t].pending ==
          s.rows + x.pending + [RowFor(h, x.place.seqNo, x.place.prev, step.e, step.now)];
    }
    forall t | t in s'.txs ensures TxOk(h, s', t) {
      if t != step.t {
        assert TxOk(h, s, t);
        if step.Commit? { CommitIsSeen(h, s, step.t, t); }
      }
    }
  }

  /**
   * A commit that adds rows was made by the only holder of the lock, so no other transaction has looked at the head.
   */
  lemma CommitIsSeen(h: HashFunction, s: State, c: nat, t: nat)
    requires c in s.txs && t in s.txs && c != t && TxOk(h, s, c) && TxOk(h, s, t)
    ensures s.txs[c].pending == [] || (s.txs[t].pending == [] && s.txs[t].place.Outside?)
    ensures s.txs[c].pending == [] ==> s.rows + s.txs[c].pending == s.rows
    ensures s.txs[t].pending == [] ==> s.rows + s.txs[c].pending + s.txs[t].pending == s.rows + s.txs[c].pending
  {
  }

  /**
   * Whatever the interleaving, and whoever rolls back, the committed log is a chain that Verify accepts, its
   * count and head number are the number of committed appends, and it only ever grows at the end.
   */
  lemma {:induction false} LogAlwaysVerifies(h: HashFunction, run: seq<State>, i: nat)
    requires Behavior(h, run) && i < |run|
    ensures Inv(h, run[i])
    ensures Chain(h, run[i].rows) && |run[i].rows| == run[i].appended
    ensures run[i].rows != [] ==> run[i].rows[|run[i].rows| - 1].seqNo == run[i].appended
    ensures i > 0 ==> run[i - 1].rows <= run[i].rows
  {
    if i > 0 {
      LogAlwaysVerifies(h, run, i - 1);
      assert Next(h, run[i - 1], run[i - 1 + 1]);
      var step :| Enabled(run[i - 1], step) && run[i] == Do(h, run[i - 1], step);
      StepKeeps(h, run[i - 1], step);
    }
    if run[i].rows != [] { assert LinkOk(h, run[i].rows, |run[i].rows| - 1); }
  }
}
