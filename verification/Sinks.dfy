/**
 * Any number of sinks on one settlement row. The row's status is read without a lock, the posting takes the account
 * locks, the guarded update takes the row's, and an update that matches no row still lets the posting commit.
 */
module Sinks {
  import opened Base
  import opened Store

  /** Finalized posts nothing and reads nothing first. */
  datatype Delivery = Confirm(block: Hash) | Undo(block: Hash) | Final

  datatype Place = Fresh | Seen(status: RowStatus) | Posted | Marked(hit: bool)
  datatype Tx = Tx(d: Delivery, place: Place)

  /**
   * `settles` and `undos` are the blocks of the committed settle and reversal entries; the external reference makes
   * each of them unique. Both kinds touch the same two accounts, so one lock stands for them.
   */
  datatype State = State(status: RowStatus, settles: seq<Hash>, undos: seq<Hash>, txs: map<nat, Tx>,
                         accounts: Option<nat>, row: Option<nat>)

  datatype Step =
    | Begin(t: nat, d: Delivery) | Read(t: nat) | Post(t: nat) | Mark(t: nat) | Commit(t: nat) | Abort(t: nat)

  /** The test settle and reverse make on the status they have read. */
  predicate Proceeds(d: Delivery, seen: RowStatus) {
    match d
    case Confirm(_) => seen != RowSettled
    case Undo(_) => seen == RowSettled
    case Final => true
  }

  /** The guard of the update. */
  predicate Guard(d: Delivery, now: RowStatus) {
    match d
    case Confirm(_) => now == RowPending || now == RowReorged
    case Undo(_) => now == RowSettled
    case Final => now == RowSettled
  }

  function Target(d: Delivery): RowStatus {
    match d
    case Confirm(_) => RowSettled
    case Undo(_) => RowReorged
    case Final => RowFinalized
  }

  predicate Free(s: State, d: Delivery) {
    match d
    case Confirm(b) => b !in s.settles
    case Undo(b) => b !in s.undos
    case Final => true
  }

  predicate Enabled(s: State, step: Step) {
    if step.Begin? then step.t !in s.txs else
    && step.t in s.txs
    && var x := s.txs[step.t];
       && (step.Read? ==> x.place == Fresh && !x.d.Final?)
       && (step.Post? ==> x.place.Seen? && Proceeds(x.d, x.place.status) && s.accounts.None? && Free(s, x.d))
       && (step.Mark? ==> (x.place == Posted || (x.place == Fresh && x.d.Final?)) && s.row.None?)
       && (step.Commit? ==> x.place.Marked?)
  }

  function Without(lock: Option<nat>, t: nat): Option<nat> { if lock == Some(t) then None else lock }

  function At(s: State, t: nat, place: Place): State
    requires t in s.txs
  {
    s.(txs := s.txs[t := s.txs[t].(place := place)])
  }

  function Ended(s: State, t: nat): State {
    s.(txs := s.txs - {t}, accounts := Without(s.accounts, t), row := Without(s.row, t))
  }

  function Do(s: State, step: Step): State
    requires Enabled(s, step)
  {
    match step
    case Begin(t, d) => s.(txs := s.txs[t := Tx(d, Fresh)])
    case Read(t) => At(s, t, Seen(s.status))
    case Post(t) => At(s, t, Posted).(accounts := Some(t))
    case Mark(t) =>
      var hit := Guard(s.txs[t].d, s.status);
      At(s, t, Marked(hit)).(row := if hit then Some(t) else s.row)
    case Commit(t) =>
      var x := s.txs[t];
      Ended(s, t).(status := if x.place.hit then Target(x.d) else s.status,
                   settles := if x.d.Confirm? then s.settles + [x.d.block] else s.settles,
                   undos := if x.d.Undo? then s.undos + [x.d.block] else s.undos)
    case Abort(t) => Ended(s, t)
  }

  // ---------------------------------------------------------------- what the locks keep

  ghost predicate Distinct(blocks: seq<Hash>) { forall i, j :: 0 <= i < j < |blocks| ==> blocks[i] != blocks[j] }

  predicate HasPosted(x: Tx) { !x.d.Final? && (x.place == Posted || x.place.Marked?) }

  ghost predicate TxOk(s: State, t: nat, x: Tx) {
    && (HasPosted(x) ==> s.accounts == Some(t) && Free(s, x.d))
    && (x.place == Marked(true) ==> s.row == Some(t) && Guard(x.d, s.status))
  }

  ghost predicate Inv(s: State) {
    && Distinct(s.settles) && Distinct(s.undos)
    && forall t | t in s.txs :: TxOk(s, t, s.txs[t])
  }

  lemma StepKeeps(s: State, step: Step)
    requires Inv(s) && Enabled(s, step)
    ensures Inv(Do(s, step))
  {
    var s' := Do(s, step);
    if step.t in s.txs { assert TxOk(s, step.t, s.txs[step.t]); }
    forall u | u in s'.txs ensures TxOk(s', u, s'.txs[u]) {
      if u in s.txs { assert TxOk(s, u, s.txs[u]); }
    }
  }

  // ---------------------------------------------------------------- the money and the row

  predicate Live(status: RowStatus) { status == RowSettled || status == RowFinalized }

  /** One settle stands while the row is settled or finalized, and none otherwise. */
  predicate Matched(s: State) { |s.settles| - |s.undos| == if Live(s.status) then 1 else 0 }

  /** The commit of a posting whose update has matched no row. */
  predicate Misses(s: State, step: Step) {
    step.Commit? && step.t in s.txs && s.txs[step.t].place == Marked(false) && !s.txs[step.t].d.Final?
  }

  /** Of all the steps of all the sinks, exactly the commit of a posting that updated no row breaks the match. */
  lemma StepMatchesIff(s: State, step: Step)
    requires Inv(s) && Matched(s) && Enabled(s, step)
    ensures Matched(Do(s, step)) <==> !Misses(s, step)
  {
    if step.Commit? { assert TxOk(s, step.t, s.txs[step.t]); }
  }

  ghost predicate Begins(s: State) {
    s.txs == map[] && s.accounts.None? && s.row.None? && Distinct(s.settles) && Distinct(s.undos) && Matched(s)
  }

  ghost predicate Goes(run: seq<State>, steps: seq<Step>, i: nat)
    requires i < |steps| && |run| == |steps| + 1
  {
    Enabled(run[i], steps[i]) && run[i + 1] == Do(run[i], steps[i])
  }

  ghost predicate Takes(run: seq<State>, steps: seq<Step>) {
    |run| == |steps| + 1 && Begins(run[0]) && forall i :: 0 <= i < |steps| ==> Goes(run, steps, i)
  }

  lemma {:induction false} InvAlong(run: seq<State>, steps: seq<Step>, n: nat)
    requires Takes(run, steps) && n < |run|
    ensures Inv(run[n])
  {
    if n > 0 {
      InvAlong(run, steps, n - 1);
      assert Goes(run, steps, n - 1);
      StepKeeps(run[n - 1], steps[n - 1]);
    }
  }

  lemma {:induction false} MatchedUpTo(run: seq<State>, steps: seq<Step>, n: nat)
    requires Takes(run, steps) && n < |run|
    requires forall i :: 0 <= i < n ==> !Misses(run[i], steps[i])
    ensures Matched(run[n])
  {
    if n > 0 {
      MatchedUpTo(run, steps, n - 1);
      InvAlong(run, steps, n - 1);
      assert Goes(run, steps, n - 1);
      StepMatchesIff(run[n - 1], steps[n - 1]);
    }
  }

  /**
   * However the transactions of any number of sinks interleave, each block is settled and reversed at most once, and
   * the money matches the row throughout if and only if every posting that commits has updated its row.
   */
  lemma MatchedThroughoutIff(run: seq<State>, steps: seq<Step>)
    requires Takes(run, steps)
    ensures forall i :: 0 <= i < |run| ==> Distinct(run[i].settles) && Distinct(run[i].undos)
    ensures (forall i :: 0 <= i < |run| ==> Matched(run[i])) <==>
            (forall i :: 0 <= i < |steps| ==> !Misses(run[i], steps[i]))
  {
    forall i | 0 <= i < |run| ensures Distinct(run[i].settles) && Distinct(run[i].undos) { InvAlong(run, steps, i); }
    if forall i :: 0 <= i < |run| ==> Matched(run[i]) {
      forall i | 0 <= i < |steps| ensures !Misses(run[i], steps[i]) {
        InvAlong(run, steps, i);
        assert Goes(run, steps, i);
        StepMatchesIff(run[i], steps[i]);
      }
    }
    if forall i :: 0 <= i < |steps| ==> !Misses(run[i], steps[i]) {
      forall i | 0 <= i < |run| ensures Matched(run[i]) { MatchedUpTo(run, steps, i); }
    }
  }

  /** The commits that move the row: a Confirmed to settled, a Reorged back out of it, a Finalized on from it. */
  predicate Moves(d: Delivery, was: RowStatus, now: RowStatus) {
    match d
    case Confirm(_) => (was == RowPending || was == RowReorged) && now == RowSettled
    case Undo(_) => was == RowSettled && now == RowReorged
    case Final => was == RowSettled && now == RowFinalized
  }

  /** The row moves at the commits whose update matched, as their delivery says, and at no other step. */
  lemma RowMovesExactly(run: seq<State>, steps: seq<Step>, i: nat)
    requires Takes(run, steps) && i < |steps|
    ensures if steps[i].Commit? && steps[i].t in run[i].txs && run[i].txs[steps[i].t].place == Marked(true)
            then Moves(run[i].txs[steps[i].t].d, run[i].status, run[i + 1].status)
            else run[i + 1].status == run[i].status
  {
    InvAlong(run, steps, i);
    assert Goes(run, steps, i);
    if steps[i].Commit? { assert TxOk(run[i], steps[i].t, run[i].txs[steps[i].t]); }
  }

  /** So a finalized row stays finalized, whatever any number of sinks deliver. */
  lemma {:induction false} FinalizedForever(run: seq<State>, steps: seq<Step>, i: nat, j: nat)
    requires Takes(run, steps) && i <= j < |run| && run[i].status == RowFinalized
    ensures run[j].status == RowFinalized
  {
    if i < j {
      FinalizedForever(run, steps, i, j - 1);
      RowMovesExactly(run, steps, j - 1);
    }
  }

  // ---------------------------------------------------------------- one sink

  /** One sink applies one status at a time. */
  ghost predicate OneAtATime(s: State) { forall t, u :: t in s.txs && u in s.txs ==> t == u }

  /** What the only transaction has read is still the row's status. */
  ghost predicate Current(s: State) {
    forall t | t in s.txs ::
      var x := s.txs[t];
      && (x.place.Seen? ==> x.place.status == s.status)
      && (HasPosted(x) ==> Proceeds(x.d, s.status))
      && (x.place.Marked? ==> x.place.hit == Guard(x.d, s.status))
  }

  lemma StepKeepsCurrent(s: State, step: Step)
    requires OneAtATime(s) && Current(s) && Enabled(s, step)
    ensures Current(Do(s, step))
  {}

  lemma {:induction false} CurrentAlong(run: seq<State>, steps: seq<Step>, n: nat)
    requires Takes(run, steps) && n < |run| && forall i :: 0 <= i < |run| ==> OneAtATime(run[i])
    ensures Current(run[n])
  {
    if n > 0 {
      CurrentAlong(run, steps, n - 1);
      assert Goes(run, steps, n - 1);
      StepKeepsCurrent(run[n - 1], steps[n - 1]);
    }
  }

  /** With one sink, a posting misses its row exactly when it is a settle and the row is finalized. */
  lemma OneSinkMissesIff(run: seq<State>, steps: seq<Step>, i: nat)
    requires Takes(run, steps) && i < |steps| && forall k :: 0 <= k < |run| ==> OneAtATime(run[k])
    requires steps[i].Commit?
    ensures steps[i].t in run[i].txs
    ensures Misses(run[i], steps[i]) <==> run[i].txs[steps[i].t].d.Confirm? && run[i].status == RowFinalized
  {
    CurrentAlong(run, steps, i);
    assert Goes(run, steps, i);
  }

  // ---------------------------------------------------------------- two sinks

  /** Transactions 0 and 1 confirm blocks 100 and 200. */
  function Scene(status: RowStatus, settles: seq<Hash>, p0: Option<Place>, p1: Option<Place>, accounts: Option<nat>,
                 row: Option<nat>): State {
    var txs0 := if p0.Some? then map[0 := Tx(Confirm(100), p0.value)] else map[];
    State(status, settles, [], if p1.Some? then txs0[1 := Tx(Confirm(200), p1.value)] else txs0, accounts, row)
  }

  lemma Then(run: seq<State>, steps: seq<Step>, step: Step, s: State)
    requires |run| == |steps| + 1 && (forall i :: 0 <= i < |steps| ==> Goes(run, steps, i))
    requires Enabled(run[|steps|], step) && s == Do(run[|steps|], step)
    ensures forall i :: 0 <= i < |steps| + 1 ==> Goes(run + [s], steps + [step], i)
  {
    forall i | 0 <= i < |steps| + 1 ensures Goes(run + [s], steps + [step], i) {
      if i < |steps| { assert Goes(run, steps, i); }
    }
  }

  /** Both begin, and both read the row while it is pending. */
  lemma BothRead() returns (run: seq<State>, steps: seq<Step>)
    ensures |run| == 5 && |steps| == 4 && forall i :: 0 <= i < 4 ==> Goes(run, steps, i)
    ensures run[0] == Scene(RowPending, [], None, None, None, None)
    ensures run[4] == Scene(RowPending, [], Some(Seen(RowPending)), Some(Seen(RowPending)), None, None)
  {
    var p, seen := RowPending, Some(Seen(RowPending));
    run := [Scene(p, [], None, None, None, None), Scene(p, [], Some(Fresh), None, None, None),
            Scene(p, [], Some(Fresh), Some(Fresh), None, None), Scene(p, [], seen, Some(Fresh), None, None),
            Scene(p, [], seen, seen, None, None)];
    steps := [Begin(0, Confirm(100)), Begin(1, Confirm(200)), Read(0), Read(1)];
    assert Goes(run, steps, 0) && Goes(run, steps, 1) && Goes(run, steps, 2) && Goes(run, steps, 3);
  }

  /** The first settles the row. */
  lemma FirstSettles() returns (run: seq<State>, steps: seq<Step>)
    ensures |run| == 8 && |steps| == 7 && forall i :: 0 <= i < 7 ==> Goes(run, steps, i)
    ensures run[0] == Scene(RowPending, [], None, None, None, None)
    ensures run[7] == Scene(RowSettled, [100], None, Some(Seen(RowPending)), None, None)
  {
    run, steps := BothRead();
    var seen := Some(Seen(RowPending));
    var a := Scene(RowPending, [], Some(Posted), seen, Some(0), None);
    var b := Scene(RowPending, [], Some(Marked(true)), seen, Some(0), Some(0));
    var c := Scene(RowSettled, [100], None, seen, None, None);
    Then(run, steps, Post(0), a);
    Then(run + [a], steps + [Post(0)], Mark(0), b);
    assert [] + [100] == [100];
    Then(run + [a] + [b], steps + [Post(0)] + [Mark(0)], Commit(0), c);
    run, steps := run + [a] + [b] + [c], steps + [Post(0)] + [Mark(0)] + [Commit(0)];
  }

  /** The second then posts at its own block, finds no row to update, and commits: the payment is settled twice. */
  lemma TwoSinksSettleTwice() returns (run: seq<State>, steps: seq<Step>)
    ensures Takes(run, steps) && run[0].status == RowPending && run[0].settles == []
    ensures var s := run[|run| - 1];
      s.status == RowSettled && s.settles == [100, 200] && s.undos == [] && !Matched(s)
  {
    run, steps := FirstSettles();
    var a := Scene(RowSettled, [100], None, Some(Posted), Some(1), None);
    var b := Scene(RowSettled, [100], None, Some(Marked(false)), Some(1), None);
    var c := Scene(RowSettled, [100, 200], None, None, None, None);
    Then(run, steps, Post(1), a);
    Then(run + [a], steps + [Post(1)], Mark(1), b);
    assert [100] + [200] == [100, 200];
    Then(run + [a] + [b], steps + [Post(1)] + [Mark(1)], Commit(1), c);
    run, steps := run + [a] + [b] + [c], steps + [Post(1)] + [Mark(1)] + [Commit(1)];
  }
}
