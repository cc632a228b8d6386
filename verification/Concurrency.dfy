/**
 * Ledger transactions under READ COMMITTED: each takes its account rows in id order, reads the balances,
 * claims its (kind, external_ref) key, updates its own row if it has one, takes the audit lock if it is audited,
 * and commits.
 * Every statement is a separate step, so transactions interleave freely between them.
 */
module Concurrency {
  import opened Base
  import opened Ledger

  datatype Resource =
    | AccountRow(id: AccountId)
    | EntryKey(kind: string, ref: Ref)
    | PaymentRow(payment: PaymentId)
    | SettlementRow(tx: TxHash)
    | AuditLock

  /**
   * One call of PostWithin, if any, the row its caller updates in the same transaction, and whether the caller ends it
   * with an audit row. A plain PostEntry only posts; finalize only updates its row and audits it.
   */
  datatype Job = Job(entry: Option<Entry>, ids: seq<AccountId>, row: Option<Resource>, audited: bool)

  datatype Status = Active | Committed | Aborted
  datatype Tx = Tx(job: Job, held: nat, seen: map<AccountId, int>, status: Status)

  /** `log` lists the committed entries in commit order, after those of `base`. */
  datatype State = State(accounts: map<AccountId, Account>, base: seq<Entry>, journal: seq<Entry>,
                         canceled: set<PaymentId>, txs: seq<Tx>, log: seq<Entry>)

  datatype Step = Begin(job: Job) | Acquire(t: nat) | Read(t: nat, id: AccountId) | Commit(t: nat) | Abort(t: nat)

  /** The payment an entry reverses, if it is the reversal that Cancel posts. */
  function Cancels(e: Entry): Option<PaymentId> {
    if e.kind == REVERSAL && e.ref.ReversalRef? then Some(e.ref.payment) else None
  }

  function Lines(j: Job): seq<Line> { if j.entry.Some? then j.entry.value.lines else [] }

  function Undoes(j: Job): Option<PaymentId> { if j.entry.Some? then Cancels(j.entry.value) else None }

  ghost predicate JobOk(j: Job) {
    && StrictlySorted(j.ids)
    && (set id | id in j.ids) == Touched(Lines(j))
    && TotalsFit(Lines(j))
    && (j.row.Some? ==> j.row.value.PaymentRow? || j.row.value.SettlementRow?)
    && (Undoes(j).Some? ==> j.row == Some(PaymentRow(Undoes(j).value)))
  }

  // ---------------------------------------------------------------- the locks of one transaction

  function Keys(j: Job): nat { if j.entry.Some? then 1 else 0 }

  function Len(j: Job): nat { |j.ids| + Keys(j) + (if j.row.Some? then 1 else 0) + (if j.audited then 1 else 0) }

  /** The k-th resource the transaction waits for. */
  function At(j: Job, k: nat): Resource
    requires k < Len(j)
  {
    if k < |j.ids| then AccountRow(j.ids[k])
    else if k == |j.ids| && j.entry.Some? then EntryKey(j.entry.value.kind, j.entry.value.ref)
    else if k == |j.ids| + Keys(j) && j.row.Some? then j.row.value
    else AuditLock
  }

  function Class(r: Resource): nat {
    match r
    case AccountRow(_) => 0
    case EntryKey(_, _) => 1
    case PaymentRow(_) => 2
    case SettlementRow(_) => 2
    case AuditLock => 3
  }

  /** The global lock order: accounts by id, then the entry key, then the row, then the audit lock. */
  predicate Less(a: Resource, b: Resource) {
    Class(a) < Class(b) || (a.AccountRow? && b.AccountRow? && a.id < b.id)
  }

  /** Every transaction climbs the lock order. */
  lemma PlanClimbs(j: Job, i: nat, k: nat)
    requires JobOk(j) && i < k < Len(j)
    ensures Less(At(j, i), At(j, k))
  {}

  // ---------------------------------------------------------------- steps

  ghost predicate Live(s: State, t: nat) { t < |s.txs| && s.txs[t].status == Active }

  ghost predicate Holds(s: State, u: nat, k: nat) { Live(s, u) && k < s.txs[u].held <= Len(s.txs[u].job) }

  ghost predicate Wants(s: State, t: nat) { Live(s, t) && s.txs[t].held < Len(s.txs[t].job) }

  function Want(s: State, t: nat): Resource
    requires t < |s.txs| && s.txs[t].held < Len(s.txs[t].job)
  {
    At(s.txs[t].job, s.txs[t].held)
  }

  ghost predicate WaitsFor(s: State, t: nat, u: nat) {
    && t != u && Wants(s, t)
    && exists k: nat :: Holds(s, u, k) && At(s.txs[u].job, k) == Want(s, t)
  }

  /** The checks between the locks and the insert, made on the balances this transaction has read. */
  ghost predicate Passed(accounts: map<AccountId, Account>, x: Tx) {
    && x.job.entry.Some? && Validate(x.job.entry.value) == Posted
    && AccountsOk(accounts, Touched(Lines(x.job)), x.job.entry.value.asset)
    && x.seen.Keys == Touched(Lines(x.job))
    && forall a | a in x.seen :: -TWO_63 <= x.seen[a] < TWO_63 && Wrap64(x.seen[a] + Net(Lines(x.job), a)) >= 0
  }

  ghost predicate Enabled(s: State, step: Step) {
    match step
    case Begin(j) => JobOk(j)
    case Acquire(t) =>
      && Wants(s, t)
      && (forall u: nat :: !WaitsFor(s, t, u))
      && (Want(s, t).AccountRow? ==> s.txs[t].job.entry.Some? && Validate(s.txs[t].job.entry.value) == Posted)
      && (Want(s, t).EntryKey? ==> Passed(s.accounts, s.txs[t]) && !HasKey(s.journal, Want(s, t).kind, Want(s, t).ref))
      && (Want(s, t).PaymentRow? && Undoes(s.txs[t].job).Some? ==> Want(s, t).payment !in s.canceled)
    case Read(t, id) => Live(s, t) && s.txs[t].held == |s.txs[t].job.ids| && id in s.txs[t].job.ids
    case Commit(t) => Live(s, t) && s.txs[t].held == Len(s.txs[t].job)
    case Abort(t) => Live(s, t)
  }

  ghost function Apply(s: State, step: Step): State
    requires Enabled(s, step)
  {
    match step
    case Begin(j) => s.(txs := s.txs + [Tx(j, 0, map[], Active)])
    case Acquire(t) => s.(txs := s.txs[t := s.txs[t].(held := s.txs[t].held + 1)])
    case Read(t, id) => s.(txs := s.txs[t := s.txs[t].(seen := s.txs[t].seen[id := Balance(s.journal, id)])])
    case Commit(t) =>
      var j := s.txs[t].job;
      var posted := if j.entry.Some? then [j.entry.value] else [];
      s.(journal := s.journal + posted,
         log := s.log + posted,
         canceled := s.canceled + (if Undoes(j).Some? then {Undoes(j).value} else {}),
         txs := s.txs[t := s.txs[t].(status := Committed)])
    case Abort(t) => s.(txs := s.txs[t := s.txs[t].(status := Aborted)])
  }

  ghost predicate Next(s: State, s': State) { exists step :: Enabled(s, step) && s' == Apply(s, step) }

  /** The statement the transaction's program is at: it aborts only when one of its own checks refuses. */
  ghost function Program(s: State, t: nat): Step
    requires Live(s, t)
  {
    var x := s.txs[t];
    if x.held >= Len(x.job) then Commit(t)
    else if Want(s, t).AccountRow? && x.job.entry.Some? && Validate(x.job.entry.value) != Posted then Abort(t)
    else if x.held == |x.job.ids| && exists id :: id in x.job.ids && id !in x.seen then
      var id :| id in x.job.ids && id !in x.seen;
      Read(t, id)
    else if Want(s, t).EntryKey? && (!Passed(s.accounts, x) || HasKey(s.journal, Want(s, t).kind, Want(s, t).ref)) then
      Abort(t)
    else if Want(s, t).PaymentRow? && Undoes(x.job).Some? && Want(s, t).payment in s.canceled then Abort(t)
    else Acquire(t)
  }

  ghost predicate CanceledExact(s: State) {
    forall p: PaymentId :: p in s.canceled <==> HasKey(s.journal, REVERSAL, ReversalRef(p))
  }

  ghost predicate Init(s: State) {
    && s.txs == [] && s.log == [] && s.journal == s.base
    && Solvent(s.base) && UniqueKeys(s.base) && CanceledExact(s)
  }

  ghost predicate Behavior(run: seq<State>) {
    && run != [] && Init(run[0])
    && forall i :: 0 <= i < |run| - 1 ==> Next(run[i], run[i + 1])
  }

  ghost function Last(run: seq<State>): State
    requires run != []
  {
    run[|run| - 1]
  }

  // ---------------------------------------------------------------- the serial reference

  /** Posting the entries one after the other, each alone; None when one of them is refused. */
  function Serial(accounts: map<AccountId, Account>, base: seq<Entry>, es: seq<Entry>): Option<seq<Entry>> {
    if es == [] then Some(base)
    else
      var before := Serial(accounts, base, es[..|es| - 1]);
      var e := es[|es| - 1];
      if before.Some? && Posting(accounts, before.value, e) == Posted then Some(before.value + [e]) else None
  }

  // ---------------------------------------------------------------- the invariant

  ghost predicate Exclusive(s: State) {
    forall t: nat, i: nat, u: nat, k: nat {:trigger Holds(s, t, i), Holds(s, u, k)} ::
      t != u && Holds(s, t, i) && Holds(s, u, k) ==> At(s.txs[t].job, i) != At(s.txs[u].job, k)
  }

  /** What a live transaction knows stays true of the committed state until it commits or aborts. */
  ghost predicate TxOk(accounts: map<AccountId, Account>, journal: seq<Entry>, x: Tx) {
    && JobOk(x.job) && x.held <= Len(x.job)
    && (x.seen != map[] ==> x.held >= |x.job.ids|)
    && (forall a | a in x.seen :: a in x.job.ids && x.seen[a] == Balance(journal, a))
    && (x.job.entry.Some? && x.held > |x.job.ids| ==>
          Passed(accounts, x) && !HasKey(journal, x.job.entry.value.kind, x.job.entry.value.ref))
  }

  ghost predicate AllTxOk(s: State) { forall t: nat :: Live(s, t) ==> TxOk(s.accounts, s.journal, s.txs[t]) }

  ghost predicate LedgerOk(s: State) {
    && Solvent(s.journal) && UniqueKeys(s.journal) && CanceledExact(s)
    && Serial(s.accounts, s.base, s.log) == Some(s.journal)
    && forall asset :: Total(s.journal, AccountsOf(s.accounts, asset)) == Total(s.base, AccountsOf(s.accounts, asset))
  }

  ghost predicate Inv(s: State) { Exclusive(s) && AllTxOk(s) && LedgerOk(s) }

  /** The rows and the key a transaction holds when it commits shield every other live transaction's reads. */
  lemma CommitShields(s: State, t: nat, u: nat)
    requires Inv(s) && Enabled(s, Commit(t)) && Live(s, u) && u != t
    ensures TxOk(s.accounts, Apply(s, Commit(t)).journal, s.txs[u])
  {
    var s', x := Apply(s, Commit(t)), s.txs[u];
    assert TxOk(s.accounts, s.journal, x) && TxOk(s.accounts, s.journal, s.txs[t]);
    if s.txs[t].job.entry.None? {
      assert s'.journal == s.journal;
      return;
    }
    var e := s.txs[t].job.entry.value;
    forall a | a in x.seen ensures x.seen[a] == Balance(s'.journal, a) {
      AppendBalance(s.journal, e, a);
      var k: nat :| k < |x.job.ids| && x.job.ids[k] == a;
      assert Holds(s, u, k);
      if a in Touched(e.lines) {
        var i: nat :| i < |s.txs[t].job.ids| && s.txs[t].job.ids[i] == a;
        assert Holds(s, t, i);
        assert false;
      }
      UntouchedNet(e.lines, a);
    }
    if x.job.entry.Some? && x.held > |x.job.ids| {
      assert Holds(s, u, |x.job.ids|) && Holds(s, t, |s.txs[t].job.ids|);
      assert At(x.job, |x.job.ids|) != At(s.txs[t].job, |s.txs[t].job.ids|);
    }
  }

  /** A transaction ready to commit would be accepted if it ran alone on the committed journal. */
  lemma CommitIsPosting(s: State, t: nat)
    requires Inv(s) && Enabled(s, Commit(t)) && s.txs[t].job.entry.Some?
    ensures Posting(s.accounts, s.journal, s.txs[t].job.entry.value) == Posted
  {
    var x := s.txs[t];
    assert TxOk(s.accounts, s.journal, x) && Passed(s.accounts, x);
    forall a | a in Touched(Lines(x.job))
      ensures -TWO_63 <= Balance(s.journal, a) < TWO_63
          && Wrap64(Balance(s.journal, a) + Net(Lines(x.job), a)) >= 0
    {
      assert a in x.seen;
    }
  }

  lemma CommitKeepsLedger(s: State, t: nat)
    requires Inv(s) && Enabled(s, Commit(t))
    ensures LedgerOk(Apply(s, Commit(t)))
  {
    var s' := Apply(s, Commit(t));
    assert TxOk(s.accounts, s.journal, s.txs[t]);
    if s.txs[t].job.entry.None? {
      assert s'.journal == s.journal && s'.log == s.log && s'.canceled == s.canceled;
      return;
    }
    var e := s.txs[t].job.entry.value;
    CommitIsPosting(s, t);
    PostingKeeps(s.accounts, s.journal, e);
    assert s'.log[..|s'.log| - 1] == s.log;
    forall p: PaymentId ensures p in s'.canceled <==> HasKey(s'.journal, REVERSAL, ReversalRef(p)) {
      if HasKey(s.journal, REVERSAL, ReversalRef(p)) {
        var i :| 0 <= i < |s.journal| && s.journal[i].kind == REVERSAL && s.journal[i].ref == ReversalRef(p);
        assert s'.journal[i] == s.journal[i];
      }
      assert s'.journal[|s.journal|] == e;
    }
  }

  lemma CommitKeeps(s: State, t: nat)
    requires Inv(s) && Enabled(s, Commit(t))
    ensures Inv(Apply(s, Commit(t)))
  {
    var s' := Apply(s, Commit(t));
    CommitKeepsLedger(s, t);
    forall u: nat | Live(s', u) ensures TxOk(s'.accounts, s'.journal, s'.txs[u]) { CommitShields(s, t, u); }
    assert forall u: nat, k: nat :: Holds(s', u, k) ==> Holds(s, u, k);
  }

  lemma AcquireExcludes(s: State, t: nat)
    requires Exclusive(s) && Enabled(s, Acquire(t))
    ensures Exclusive(Apply(s, Acquire(t)))
  {
    var s' := Apply(s, Acquire(t));
    forall v: nat, i: nat, u: nat, k: nat | v != u && Holds(s', v, i) && Holds(s', u, k)
      ensures At(s'.txs[v].job, i) != At(s'.txs[u].job, k)
    {
      assert Holds(s, v, i) || (v == t && i == s.txs[t].held);
      assert Holds(s, u, k) || (u == t && k == s.txs[t].held);
      assert !WaitsFor(s, t, u) && !WaitsFor(s, t, v);
    }
  }

  lemma AcquireKeeps(s: State, t: nat)
    requires Inv(s) && Enabled(s, Acquire(t))
    ensures Inv(Apply(s, Acquire(t)))
  {
    AcquireExcludes(s, t);
    assert TxOk(s.accounts, s.journal, s.txs[t]);
    var s' := Apply(s, Acquire(t));
    forall u: nat | Live(s', u) ensures TxOk(s'.accounts, s'.journal, s'.txs[u]) { assert Live(s, u); }
  }

  lemma OtherStepsKeep(s: State, step: Step)
    requires Inv(s) && Enabled(s, step) && !step.Commit? && !step.Acquire?
    ensures Inv(Apply(s, step))
  {
    var s' := Apply(s, step);
    forall u: nat | Live(s', u) ensures TxOk(s'.accounts, s'.journal, s'.txs[u]) {
      assert (step.Begin? && u == |s.txs|) || Live(s, u);
    }
    assert forall u: nat, k: nat :: Holds(s', u, k) ==> Holds(s, u, k);
  }

  lemma {:induction false} InvAlong(run: seq<State>)
    requires Behavior(run)
    ensures Inv(Last(run))
    ensures Last(run).base == run[0].base && Last(run).accounts == run[0].accounts
  {
    var s' := Last(run);
    if |run| > 1 {
      var before := run[..|run| - 1];
      InvAlong(before);
      var s := Last(before);
      assert Next(run[|run| - 2], run[|run| - 1]);
      var step :| Enabled(s, step) && s' == Apply(s, step);
      match step {
        case Commit(t) => CommitKeeps(s, t);
        case Acquire(t) => AcquireKeeps(s, t);
        case _ => OtherStepsKeep(s, step);
      }
    }
  }

  // ---------------------------------------------------------------- main theorems

  /**
   * Every interleaving keeps every balance a non-negative int64 and every asset's total, posts no key twice,
   * and leaves exactly what the committed transactions leave when they run one by one in commit order.
   */
  lemma InterleavingsAreSerial(run: seq<State>)
    requires Behavior(run)
    ensures var s := Last(run);
      && Serial(run[0].accounts, run[0].base, s.log) == Some(s.journal)
      && Solvent(s.journal) && UniqueKeys(s.journal)
      && forall asset ::
          Total(s.journal, AccountsOf(run[0].accounts, asset)) == Total(run[0].base, AccountsOf(run[0].accounts, asset))
  {
    InvAlong(run);
  }

  /** A payment is marked canceled exactly when its reversal is posted, and then it is posted once. */
  lemma AtMostOneReversal(run: seq<State>, p: PaymentId)
    requires Behavior(run)
    ensures var s := Last(run);
      && (p in s.canceled <==> HasKey(s.journal, REVERSAL, ReversalRef(p)))
      && forall i, k | 0 <= i < |s.journal| && 0 <= k < |s.journal| ::
           Cancels(s.journal[i]) == Some(p) == Cancels(s.journal[k]) ==> i == k
  {
    InvAlong(run);
  }

  /** Waiting climbs the lock order: what a waiter wants lies below what its holder wants. */
  lemma WaitingClimbs(s: State, t: nat, u: nat)
    requires Inv(s) && WaitsFor(s, t, u) && Wants(s, u)
    ensures Less(Want(s, t), Want(s, u))
  {
    assert TxOk(s.accounts, s.journal, s.txs[u]);
    var k: nat :| Holds(s, u, k) && At(s.txs[u].job, k) == Want(s, t);
    PlanClimbs(s.txs[u].job, k, s.txs[u].held);
  }

  ghost predicate WaitPath(s: State, p: seq<nat>) {
    && |p| >= 2
    && forall i :: 0 <= i < |p| - 1 ==> WaitsFor(s, p[i], p[i + 1])
  }

  lemma {:induction false} PathClimbs(s: State, p: seq<nat>)
    requires Inv(s) && WaitPath(s, p) && Wants(s, p[|p| - 1])
    ensures Wants(s, p[0]) && Less(Want(s, p[0]), Want(s, p[|p| - 1]))
  {
    assert WaitsFor(s, p[0], p[1]);
    if |p| == 2 {
      WaitingClimbs(s, p[0], p[1]);
    } else {
      PathClimbs(s, p[1..]);
      WaitingClimbs(s, p[0], p[1]);
    }
  }

  /** The wait-for graph of a reachable state has no cycle. */
  lemma NoWaitCycle(run: seq<State>, p: seq<nat>)
    requires Behavior(run) && WaitPath(Last(run), p)
    ensures p[0] != p[|p| - 1]
  {
    InvAlong(run);
    assert WaitsFor(Last(run), p[0], p[1]);
    if p[0] == p[|p| - 1] {
      PathClimbs(Last(run), p);
    }
  }

  /** Among the live transactions below `n`, all of them waiting, one that wants a topmost resource. */
  lemma {:induction false} Topmost(s: State, n: nat) returns (t: nat)
    requires n <= |s.txs| && exists u: nat :: u < n && Live(s, u)
    requires forall u: nat :: u < n && Live(s, u) ==> Wants(s, u)
    ensures t < n && Wants(s, t)
    ensures forall u: nat :: u < n && Wants(s, u) ==> !Less(Want(s, t), Want(s, u))
  {
    if exists u: nat :: u < n - 1 && Live(s, u) {
      t := Topmost(s, n - 1);
      if Wants(s, n - 1) && Less(Want(s, t), Want(s, n - 1)) { t := n - 1; }
    } else {
      t := n - 1;
    }
  }

  lemma AccountsNeedAnEntry(j: Job)
    requires JobOk(j) && j.ids != []
    ensures j.entry.Some?
  {
    assert j.ids[0] in Touched(Lines(j));
  }

  /** A transaction that waits for nobody can take the statement its program is at. */
  lemma ProgramCanGoOn(s: State, t: nat)
    requires Live(s, t) && TxOk(s.accounts, s.journal, s.txs[t]) && forall u: nat :: !WaitsFor(s, t, u)
    ensures Enabled(s, Program(s, t))
  {
    if s.txs[t].job.ids != [] { AccountsNeedAnEntry(s.txs[t].job); }
  }

  /**
   * Whenever some transaction is unfinished, some unfinished transaction waits for nobody and can take its next
   * statement.
   */
  lemma SomeoneCanStep(run: seq<State>) returns (t: nat)
    requires Behavior(run)
    requires exists u: nat :: Live(Last(run), u)
    ensures Live(Last(run), t)
    ensures forall u: nat :: !WaitsFor(Last(run), t, u)
    ensures Enabled(Last(run), Program(Last(run), t))
  {
    var s := Last(run);
    InvAlong(run);
    if u: nat :| Live(s, u) && !Wants(s, u) {
      t := u;
    } else {
      t := Topmost(s, |s.txs|);
      if u: nat :| WaitsFor(s, t, u) {
        WaitingClimbs(s, t, u);
      }
    }
    assert TxOk(s.accounts, s.journal, s.txs[t]);
    ProgramCanGoOn(s, t);
  }
}
