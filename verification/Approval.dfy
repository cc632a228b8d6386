/** Four eyes: propose, claim under a row lock, broadcast, then record the hash or reopen. */
module Approval {
  import opened Base

  // ---------------------------------------------------------------- the gate

  datatype Gate = Gate(threshold: Option<int>, approvers: set<string>)
  datatype Refusal = UnknownApprover | SelfApproval

  /** NewApprovalGate */
  method NewGate(threshold: Option<int>, approvers: seq<string>) returns (g: Gate)
    ensures g.threshold == threshold
    ensures forall a :: a in g.approvers <==> a in approvers
  {
    var known: set<string> := {};
    for i := 0 to |approvers|
      invariant forall a :: a in known <==> a in approvers[..i]
    {
      known := known + {approvers[i]};
    }
    assert approvers[..|approvers|] == approvers;
    g := Gate(threshold, known);
  }

  predicate KnownApprover(g: Option<Gate>, id: string) { g.Some? && id in g.value.approvers }

  function Authorize(g: Option<Gate>, proposer: string, approver: string): Option<Refusal> {
    if !KnownApprover(g, approver) then Some(UnknownApprover)
    else if approver == proposer then Some(SelfApproval)
    else None
  }

  // ---------------------------------------------------------------- the rows

  type Id = nat
  datatype Intent = Intent(to: string, asset: string, key: string, payment: Option<PaymentId>, amount: int64)
  datatype Status = Pending | Approved
  datatype Row = Row(intent: Intent, proposer: string, status: Status, approver: Option<string>, hash: Option<TxHash>)

  /** The guarded update of a claim; the row is unchanged unless it is pending. */
  function Claimed(r: Row, approver: string): Row {
    if r.status == Pending then r.(status := Approved, approver := Some(approver)) else r
  }

  predicate Open(r: Row) { r.status == Approved && r.hash.None? }

  function Marked(r: Row, hash: TxHash): Row { if Open(r) then r.(hash := Some(hash)) else r }

  function Reopened(r: Row): Row { if Open(r) then r.(status := Pending, approver := None) else r }

  datatype Failure = NotFound | AlreadyApproved | Refused(why: Refusal) | Storage

  /** pgApprovalStore. `fails` stands for any statement, audit append or commit that the database refuses. */
  class Store {
    var rows: map<Id, Row>

    constructor ()
      ensures rows == map[]
    {
      rows := map[];
    }

    method Propose(id: Id, proposer: string, intent: Intent, amount: int, fails: bool) returns (ok: bool)
      requires id !in rows
      modifies this
      ensures ok <==> -TWO_63 <= amount < TWO_63 && amount > 0 && !fails
      ensures rows == if ok then old(rows)[id := Row(intent.(amount := Wrap64(amount)), proposer, Pending, None, None)]
          else old(rows)
    {
      if !(-TWO_63 <= amount < TWO_63) { return false; }
      // The amount column is checked to be positive.
      if amount <= 0 || fails { return false; }
      rows := rows[id := Row(intent.(amount := amount), proposer, Pending, None, None)];
      return true;
    }

    /** Claim: only an authorized approver flips a pending row, and gets the intent as it was parked. */
    method Claim(g: Option<Gate>, id: Id, approver: string, fails: bool)
        returns (intent: Option<Intent>, why: Option<Failure>)
      modifies this
      ensures intent.Some? <==> why.None?
      ensures intent.Some? <==>
          id in old(rows) && old(rows)[id].status == Pending && KnownApprover(g, approver)
          && approver != old(rows)[id].proposer && !fails
      ensures why == Some(Refused(UnknownApprover)) <==>
          id in old(rows) && old(rows)[id].status == Pending && !KnownApprover(g, approver)
      ensures why == Some(Refused(SelfApproval)) <==>
          id in old(rows) && old(rows)[id].status == Pending && KnownApprover(g, approver)
          && approver == old(rows)[id].proposer
      ensures why == Some(NotFound) <==> id !in old(rows)
      ensures why == Some(AlreadyApproved) <==> id in old(rows) && old(rows)[id].status == Approved
      ensures intent.Some? ==>
          intent.value == old(rows)[id].intent
          && rows == old(rows)[id := old(rows)[id].(status := Approved, approver := Some(approver))]
      ensures intent.None? ==> rows == old(rows)
    {
      if id !in rows { return None, Some(NotFound); }
      var row := rows[id];
      if row.status != Pending { return None, Some(AlreadyApproved); }
      var refusal := Authorize(g, row.proposer, approver);
      if refusal.Some? { return None, Some(Refused(refusal.value)); }
      if fails { return None, Some(Storage); }
      rows := rows[id := Claimed(row, approver)];
      return Some(row.intent), None;
    }

    method MarkBroadcast(id: Id, hash: TxHash, fails: bool) returns (ok: bool)
      modifies this
      ensures ok <==> id in old(rows) && old(rows)[id].status == Approved && old(rows)[id].hash.None? && !fails
      ensures rows == if ok then old(rows)[id := old(rows)[id].(hash := Some(hash))] else old(rows)
    {
      if id !in rows || !Open(rows[id]) || fails { return false; }
      rows := rows[id := Marked(rows[id], hash)];
      return true;
    }

    method Reopen(id: Id, fails: bool) returns (ok: bool)
      modifies this
      ensures ok <==> id in old(rows) && old(rows)[id].status == Approved && old(rows)[id].hash.None? && !fails
      ensures rows == if ok then old(rows)[id := old(rows)[id].(status := Pending, approver := None)] else old(rows)
    {
      if id !in rows || !Open(rows[id]) || fails { return false; }
      rows := rows[id := Reopened(rows[id])];
      return true;
    }

    /** The tail of runApprove after a successful claim: what becomes of the row depends on the hash alone. */
    method Conclude(id: Id, reply: Reply, fails: bool) returns (ok: bool)
      requires id in rows && Open(rows[id])
      modifies this
      ensures ok <==> reply.hash.Some? && !reply.failed
      ensures !fails && reply.hash.None? ==>
          rows == old(rows)[id := old(rows)[id].(status := Pending, approver := None)]
      ensures !fails && ok ==> rows == old(rows)[id := old(rows)[id].(hash := reply.hash)]
      ensures fails || (reply.hash.Some? && reply.failed) ==> rows == old(rows)
    {
      if reply.failed || reply.hash.None? {
        if reply.hash.None? { var _ := Reopen(id, fails); }
        return false;
      }
      var _ := MarkBroadcast(id, reply.hash.value, fails);
      return true;
    }
  }

  /** What broadcastIntent returns: an empty hash is always an error. */
  datatype Reply = Reply(hash: Option<TxHash>, failed: bool)

  // ---------------------------------------------------------------- interleaved approvers, with crashes

  datatype Place =
    | Idle                        // has not claimed yet
    | Locking                     // holds the row lock
    | Decided                     // has read a pending row and been authorized on it
    | Owner                       // claimed and committed, about to broadcast
    | Failed                      // got an empty hash back, about to reopen
    | Done(hash: TxHash)          // got a hash back, about to record it

  datatype Proc = Proc(id: Id, approver: string, place: Place)

  /** A transaction the node accepted; `told` says whether its hash came back to the approver. */
  datatype Send = Send(id: Id, hash: TxHash, told: bool)

  /** `owners` remembers whose claim of a row committed last. */
  datatype State = State(rows: map<Id, Row>, procs: map<nat, Proc>, locks: map<Id, nat>, sends: seq<Send>,
                         owners: map<Id, nat>)

  datatype Step =
    | Propose(id: Id, intent: Intent, proposer: string)
    | Start(p: nat, id: Id, approver: string)
    | Lock(p: nat)
    | Decide(p: nat)
    | Commit(p: nat, known: bool)            // a commit whose outcome is lost ends the process
    | Broadcast(p: nat, hash: Option<TxHash>, sent: bool)
    | Reopen(p: nat)
    | Mark(p: nat)
    | Crash(p: nat)                          // also an abort, a failed statement, or simply stopping

  /** Process p exists and works on a row that does. */
  predicate Works(s: State, p: nat) { p in s.procs && s.procs[p].id in s.rows }

  ghost predicate Enabled(g: Option<Gate>, s: State, step: Step) {
    match step
    case Propose(id, _, _) => id !in s.rows
    case Start(p, _, _) => p !in s.procs
    case Lock(p) => Works(s, p) && s.procs[p].place == Idle && s.procs[p].id !in s.locks
    case Decide(p) =>
      && Works(s, p) && s.procs[p].place == Locking
      && var r := s.rows[s.procs[p].id];
         r.status == Pending && Authorize(g, r.proposer, s.procs[p].approver).None?
    case Commit(p, _) => Works(s, p) && s.procs[p].place == Decided
    case Broadcast(p, hash, sent) => Works(s, p) && s.procs[p].place == Owner && (hash.Some? ==> sent)
    case Reopen(p) => Works(s, p) && s.procs[p].place == Failed && s.procs[p].id !in s.locks
    case Mark(p) => Works(s, p) && s.procs[p].place.Done? && s.procs[p].id !in s.locks
    case Crash(p) => p in s.procs
  }

  /** Row locks end with the transaction of the process that holds them. */
  function Unlocked(locks: map<Id, nat>, p: nat): map<Id, nat> { map k | k in locks && locks[k] != p :: locks[k] }

  ghost function Do(g: Option<Gate>, s: State, step: Step, lost: TxHash): State
    requires Enabled(g, s, step)
  {
    match step
    case Propose(id, intent, proposer) => s.(rows := s.rows[id := Row(intent, proposer, Pending, None, None)])
    case Start(p, id, approver) => s.(procs := s.procs[p := Proc(id, approver, Idle)])
    case Lock(p) => s.(locks := s.locks[s.procs[p].id := p], procs := s.procs[p := s.procs[p].(place := Locking)])
    case Decide(p) => s.(procs := s.procs[p := s.procs[p].(place := Decided)])
    case Commit(p, known) =>
      var x := s.procs[p];
      State(s.rows[x.id := Claimed(s.rows[x.id], x.approver)],
            if known then s.procs[p := x.(place := Owner)] else s.procs - {p},
            Unlocked(s.locks, p), s.sends, s.owners[x.id := p])
    case Broadcast(p, hash, sent) =>
      var x := s.procs[p];
      s.(sends := if sent then s.sends + [Send(x.id, if hash.Some? then hash.value else lost, hash.Some?)] else s.sends,
         procs := s.procs[p := x.(place := if hash.Some? then Done(hash.value) else Failed)])
    case Reopen(p) => s.(rows := s.rows[s.procs[p].id := Reopened(s.rows[s.procs[p].id])], procs := s.procs - {p})
    case Mark(p) =>
      var id := s.procs[p].id;
      s.(rows := s.rows[id := Marked(s.rows[id], s.procs[p].place.hash)], procs := s.procs - {p})
    case Crash(p) => s.(procs := s.procs - {p}, locks := Unlocked(s.locks, p))
  }

  ghost predicate Next(g: Option<Gate>, s: State, s': State) {
    exists step, lost :: Enabled(g, s, step) && s' == Do(g, s, step, lost)
  }

  ghost predicate Behavior(g: Option<Gate>, run: seq<State>) {
    && |run| > 0 && run[0] == State(map[], map[], map[], [], map[])
    && forall i :: 0 <= i < |run| - 1 ==> Next(g, run[i], run[i + 1])
  }

  /** The hashes that came back for one approval, in order. */
  function Told(sends: seq<Send>, id: Id): seq<TxHash> {
    if sends == [] then []
    else
      var last := sends[|sends| - 1];
      Told(sends[..|sends| - 1], id) + if last.id == id && last.told then [last.hash] else []
  }

  predicate Acting(x: Proc) { x.place == Owner || x.place == Failed || x.place.Done? }

  ghost predicate RowOk(g: Option<Gate>, r: Row, told: seq<TxHash>) {
    && |told| <= 1
    && (r.status == Pending ==> told == [] && r.hash.None? && r.approver.None?)
    && (r.status == Approved ==> r.approver.Some? && Authorize(g, r.proposer, r.approver.value).None?)
    && (r.hash.Some? ==> told == [r.hash.value])
  }

  /** Only the process that claimed an open row acts on it, and it knows what was sent. */
  ghost predicate ProcOk(g: Option<Gate>, s: State, p: nat, x: Proc) {
    && (x.place == Locking || x.place == Decided ==> x.id in s.rows && x.id in s.locks && s.locks[x.id] == p)
    && (x.place == Decided ==> s.rows[x.id].status == Pending && Authorize(g, s.rows[x.id].proposer, x.approver).None?)
    && (Acting(x) ==>
          && x.id in s.rows && Open(s.rows[x.id]) && x.id in s.owners && s.owners[x.id] == p
          && Told(s.sends, x.id) == if x.place.Done? then [x.place.hash] else [])
  }

  ghost predicate Inv(g: Option<Gate>, s: State) {
    && (forall id: Id :: if id in s.rows then RowOk(g, s.rows[id], Told(s.sends, id)) else Told(s.sends, id) == [])
    && (forall p :: p in s.procs ==> ProcOk(g, s, p, s.procs[p]))
  }

  lemma ToldAppend(sends: seq<Send>, x: Send, id: Id)
    ensures Told(sends + [x], id) == Told(sends, id) + if x.id == id && x.told then [x.hash] else []
  {
    assert (sends + [x])[..|sends|] == sends;
  }

  lemma BroadcastKeeps(g: Option<Gate>, s: State, p: nat, hash: Option<TxHash>, sent: bool, lost: TxHash)
    requires Inv(g, s) && Enabled(g, s, Broadcast(p, hash, sent))
    ensures Inv(g, Do(g, s, Broadcast(p, hash, sent), lost))
  {
    var s', x := Do(g, s, Broadcast(p, hash, sent), lost), s.procs[p];
    assert ProcOk(g, s, p, x);
    forall id: Id
      ensures Told(s'.sends, id) == Told(s.sends, id) + if id == x.id && hash.Some? then [hash.value] else [] {
      if sent { ToldAppend(s.sends, s'.sends[|s.sends|], id); }
    }
    forall q | q in s'.procs ensures ProcOk(g, s', q, s'.procs[q]) {
      assert ProcOk(g, s, q, s.procs[q]);
    }
  }

  /** Steps that write the row: the lock or the ownership keeps every other process off it. */
  lemma WriteKeeps(g: Option<Gate>, s: State, step: Step, lost: TxHash)
    requires Inv(g, s) && Enabled(g, s, step) && (step.Commit? || step.Reopen? || step.Mark?)
    ensures Inv(g, Do(g, s, step, lost))
  {
    var s', x := Do(g, s, step, lost), s.procs[step.p];
    assert ProcOk(g, s, step.p, x);
    assert RowOk(g, s.rows[x.id], Told(s.sends, x.id));
    forall q | q in s'.procs ensures ProcOk(g, s', q, s'.procs[q]) {
      assert ProcOk(g, s, q, s.procs[q]);
    }
  }

  /** Steps that touch no row. */
  lemma QuietKeeps(g: Option<Gate>, s: State, step: Step, lost: TxHash)
    requires Inv(g, s) && Enabled(g, s, step) && (step.Start? || step.Lock? || step.Decide? || step.Crash?)
    ensures Inv(g, Do(g, s, step, lost))
  {
    var s' := Do(g, s, step, lost);
    assert s'.rows == s.rows && s'.sends == s.sends && s'.owners == s.owners;
    forall p | p in s'.procs ensures ProcOk(g, s', p, s'.procs[p]) {
      if p != step.p {
        assert ProcOk(g, s, p, s.procs[p]);
        assert s'.procs[p] == s.procs[p];
      } else if p in s.procs {
        assert ProcOk(g, s, p, s.procs[p]);
      }
    }
  }

  lemma StepKeeps(g: Option<Gate>, s: State, step: Step, lost: TxHash)
    requires Inv(g, s) && Enabled(g, s, step)
    ensures Inv(g, Do(g, s, step, lost))
  {
    if step.Broadcast? {
      BroadcastKeeps(g, s, step.p, step.hash, step.sent, lost);
    } else if step.Commit? || step.Reopen? || step.Mark? {
      WriteKeeps(g, s, step, lost);
    } else if step.Propose? {
      var s' := Do(g, s, step, lost);
      forall p | p in s'.procs ensures ProcOk(g, s', p, s'.procs[p]) { assert ProcOk(g, s, p, s.procs[p]); }
    } else {
      QuietKeeps(g, s, step, lost);
    }
  }

  lemma {:induction false} InvAlong(g: Option<Gate>, run: seq<State>, i: nat)
    requires Behavior(g, run) && i < |run|
    ensures Inv(g, run[i])
  {
    if i > 0 {
      InvAlong(g, run, i - 1);
      assert Next(g, run[i - 1], run[i - 1 + 1]);
      var step, lost :| Enabled(g, run[i - 1], step) && run[i] == Do(g, run[i - 1], step, lost);
      StepKeeps(g, run[i - 1], step, lost);
    }
  }

  // ---------------------------------------------------------------- what every run guarantees

  /** How many transactions the node accepted for one approval, and for how many of them the hash did not come back. */
  function Sent(sends: seq<Send>, id: Id): nat {
    if sends == [] then 0 else Sent(sends[..|sends| - 1], id) + if sends[|sends| - 1].id == id then 1 else 0
  }

  function Lost(sends: seq<Send>, id: Id): nat {
    if sends == [] then 0
        else Lost(sends[..|sends| - 1], id) + if sends[|sends| - 1].id == id && !sends[|sends| - 1].told then 1 else 0
  }

  lemma {:induction false} ToldOrLost(sends: seq<Send>, id: Id)
    ensures Sent(sends, id) == |Told(sends, id)| + Lost(sends, id)
  {
    if sends != [] { ToldOrLost(sends[..|sends| - 1], id); }
  }

  /**
   * In every interleaving an approval is broadcast at most once more than the times the node accepted a transaction
   * and its hash was lost. It is broadcast at most once exactly when no hash was lost, or one was and none came back.
   * So it is broadcast at most once if an empty hash always means that nothing was sent.
   */
  lemma AtMostOneBroadcast(g: Option<Gate>, run: seq<State>, i: nat, id: Id)
    requires Behavior(g, run) && i < |run|
    ensures Sent(run[i].sends, id) <= 1 + Lost(run[i].sends, id)
    ensures Sent(run[i].sends, id) <= 1 <==>
            Lost(run[i].sends, id) == 0 || (Lost(run[i].sends, id) == 1 && Told(run[i].sends, id) == [])
  {
    InvAlong(g, run, i);
    ToldOrLost(run[i].sends, id);
  }

  /**
   * Whenever a row is approved, its approver is on the allowlist and is not its proposer; a recorded hash is the one
   * that was sent.
   */
  lemma FourEyes(g: Option<Gate>, run: seq<State>, i: nat, id: Id)
    requires Behavior(g, run) && i < |run| && id in run[i].rows
    ensures var r := run[i].rows[id];
      && (r.status == Approved ==>
          g.Some? && r.approver.Some? && r.approver.value in g.value.approvers && r.approver.value != r.proposer)
      && (r.hash.Some? ==> r.status == Approved && Told(run[i].sends, id) == [r.hash.value])
  {
    InvAlong(g, run, i);
    assert RowOk(g, run[i].rows[id], Told(run[i].sends, id));
  }

  ghost predicate RowStays(run: seq<State>, i: nat, j: nat, id: Id)
    requires i < |run| && j < |run|
  {
    id in run[i].rows ==> id in run[j].rows && Unmoved(run[i].rows[id], run[j].rows[id])
  }

  ghost predicate StepStays(run: seq<State>, i: nat, id: Id)
    requires i < |run| - 1
  {
    RowStays(run, i, i + 1, id)
  }

  lemma NextOnRow(g: Option<Gate>, run: seq<State>, i: nat, id: Id)
    requires Behavior(g, run) && i < |run| - 1
    ensures StepStays(run, i, id)
  {
    if id in run[i].rows {
      InvAlong(g, run, i);
      var s, s' := run[i], run[i + 1];
      assert Next(g, s, s');
      var step, lost :| Enabled(g, s, step) && s' == Do(g, s, step, lost);
      StepOnRow(g, s, step, lost, id);
    }
  }

  lemma {:induction false} RowStaysOn(run: seq<State>, i: nat, j: nat, id: Id)
    requires i <= j < |run| && forall k :: 0 <= k < |run| - 1 ==> StepStays(run, k, id)
    ensures RowStays(run, i, j, id)
  {
    if i < j {
      RowStaysOn(run, i, j - 1, id);
      assert StepStays(run, j - 1, id);
    }
  }

  /** A row keeps its intent and proposer for ever, and a hashed row is never touched again: it is never reopened. */
  lemma HashedRowIsFinal(g: Option<Gate>, run: seq<State>, i: nat, j: nat, id: Id)
    requires Behavior(g, run) && i <= j < |run| && id in run[i].rows
    ensures id in run[j].rows && Unmoved(run[i].rows[id], run[j].rows[id])
  {
    forall k | 0 <= k < |run| - 1 ensures StepStays(run, k, id) { NextOnRow(g, run, k, id); }
    RowStaysOn(run, i, j, id);
  }

  lemma StepOnRow(g: Option<Gate>, s: State, step: Step, lost: TxHash, id: Id)
    requires Inv(g, s) && Enabled(g, s, step) && id in s.rows
    ensures var s' := Do(g, s, step, lost); id in s'.rows && Unmoved(s.rows[id], s'.rows[id])
  {
    if step.Commit? || step.Reopen? || step.Mark? {
      assert ProcOk(g, s, step.p, s.procs[step.p]);
      assert RowOk(g, s.rows[id], Told(s.sends, id));
    }
  }

  predicate Unmoved(r: Row, r': Row) {
    r'.intent == r.intent && r'.proposer == r.proposer && (r.hash.Some? ==> r' == r)
  }

  // ---------------------------------------------------------------- a lost reply

  const GATE := Some(Gate(Some(1), {"bob"}))
  const PARKED := Row(Intent("0xaa", "USDC", "k", None, 5), "alice", Pending, None, None)

  /** One row, at most one process, on row 0. */
  function Scene(row: Row, procs: map<nat, Proc>, locked: bool, sends: seq<Send>, owners: map<Id, nat>): State {
    State(map[0 := row], procs, if locked then map[0 := 0] else map[], sends, owners)
  }

  function By(place: Place): map<nat, Proc> { map[0 := Proc(0, "bob", place)] }

  lemma Steps(s: State, step: Step, s': State)
    requires Enabled(GATE, s, step) && s' == Do(GATE, s, step, "0x1")
    ensures Next(GATE, s, s')
  {}

  /** Bob claims the parked row. */
  lemma ClaimRun(sends: seq<Send>, owners: map<Id, nat>) returns (run: seq<State>)
    ensures |run| == 5 && run[0] == Scene(PARKED, map[], false, sends, owners)
    ensures run[4] == Scene(Claimed(PARKED, "bob"), By(Owner), false, sends, owners[0 := 0])
    ensures forall i :: 0 <= i < 4 ==> Next(GATE, run[i], run[i + 1])
  {
    var a, b, c := Scene(PARKED, map[], false, sends, owners), Scene(PARKED, By(Locking), true, sends, owners),
        Scene(PARKED, By(Decided), true, sends, owners);
    var d := Scene(PARKED, By(Idle), false, sends, owners);
    Steps(a, Start(0, 0, "bob"), d);
    Steps(d, Lock(0), b);
    Steps(b, Decide(0), c);
    ClaimCommits(sends, owners);
    run := [a, d, b, c, Scene(Claimed(PARKED, "bob"), By(Owner), false, sends, owners[0 := 0])];
  }

  lemma ClaimCommits(sends: seq<Send>, owners: map<Id, nat>)
    ensures Next(GATE, Scene(PARKED, By(Decided), true, sends, owners),
                 Scene(Claimed(PARKED, "bob"), By(Owner), false, sends, owners[0 := 0]))
  {
    var s := Scene(PARKED, By(Decided), true, sends, owners);
    assert Unlocked(map[0 := 0], 0) == map[];
    assert map[0 := PARKED][0 := Claimed(PARKED, "bob")] == map[0 := Claimed(PARKED, "bob")];
    Steps(s, Commit(0, true), Scene(Claimed(PARKED, "bob"), By(Owner), false, sends, owners[0 := 0]));
  }

  /** The node accepts the transaction, the reply is lost, the row is reopened. */
  lemma LostRun() returns (run: seq<State>)
    ensures |run| == 3 && run[0] == Scene(Claimed(PARKED, "bob"), By(Owner), false, [], map[0 := 0])
    ensures run[2] == Scene(PARKED, map[], false, [Send(0, "0x1", false)], map[0 := 0])
    ensures forall i :: 0 <= i < 2 ==> Next(GATE, run[i], run[i + 1])
  {
    var row, sends := Claimed(PARKED, "bob"), [Send(0, "0x1", false)];
    run := [Scene(row, By(Owner), false, [], map[0 := 0]), Scene(row, By(Failed), false, sends, map[0 := 0]),
            Scene(PARKED, map[], false, sends, map[0 := 0])];
    Steps(run[0], Broadcast(0, None, true), run[1]);
    Steps(run[1], Reopen(0), run[2]);
  }

  lemma Joined(a: seq<State>, b: seq<State>)
    requires |a| > 0 && |b| > 0 && a[|a| - 1] == b[0]
    requires forall i :: 0 <= i < |a| - 1 ==> Next(GATE, a[i], a[i + 1])
    requires forall i :: 0 <= i < |b| - 1 ==> Next(GATE, b[i], b[i + 1])
    ensures forall i :: 0 <= i < |a + b[1..]| - 1 ==> Next(GATE, (a + b[1..])[i], (a + b[1..])[i + 1])
  {
    var c := a + b[1..];
    forall i | 0 <= i < |c| - 1 ensures Next(GATE, c[i], c[i + 1]) {
      if i >= |a| - 1 { assert c[i] == b[i - (|a| - 1)] && c[i + 1] == b[i + 1 - (|a| - 1)]; }
    }
  }

  /** Without that assumption the bound is met: one lost reply, and the payment is sent twice. */
  lemma LostReplySendsTwice() returns (run: seq<State>)
    ensures Behavior(GATE, run)
    ensures Sent(run[|run| - 1].sends, 0) == 2 && Lost(run[|run| - 1].sends, 0) == 1
  {
    var start := [State(map[], map[], map[], [], map[]), Scene(PARKED, map[], false, [], map[])];
    Steps(start[0], Propose(0, PARKED.intent, "alice"), start[1]);
    var first := ClaimRun([], map[]);
    var lost := LostRun();
    var sends := [Send(0, "0x1", false)];
    var second := ClaimRun(sends, map[0 := 0]);
    var last := Scene(Claimed(PARKED, "bob"), By(Done("0x2")), false, sends + [Send(0, "0x2", true)], map[0 := 0]);
    assert map[0 := 0][0 := 0] == map[0 := 0];
    Steps(second[4], Broadcast(0, Some("0x2"), true), last);
    Joined(start, first);
    Joined(start + first[1..], lost);
    Joined(start + first[1..] + lost[1..], second);
    Joined(start + first[1..] + lost[1..] + second[1..], [second[4], last]);
    run := start + first[1..] + lost[1..] + second[1..] + [second[4], last][1..];
    TwoSends();
  }

  lemma TwoSends()
    ensures Sent([Send(0, "0x1", false)] + [Send(0, "0x2", true)], 0) == 2
        && Lost([Send(0, "0x1", false)] + [Send(0, "0x2", true)], 0) == 1
  {
    var a := [Send(0, "0x1", false)];
    assert (a + [Send(0, "0x2", true)])[..1] == a && a[..0] == [];
  }
}
