/** The sliding velocity window of a signing key: check, then insert, under an advisory lock. */
module Velocity {
  import opened Base

  /** A recorded charge. Instants and the window are counted in microseconds, the resolution they are stored with. */
  datatype Event = Event(key: string, amount: int64, at: int)

  /** maxCount 0 and maxAmount None are unlimited. */
  datatype Caps = Caps(window: int, maxCount: uint64, maxAmount: Option<int>)

  predicate Enabled(c: Caps) { c.window > 0 && (c.maxCount > 0 || c.maxAmount.Some?) }

  // ---------------------------------------------------------------- counting

  /** The events of one key from `lo` on and, if `hi` is given, no later than it. */
  predicate Within(e: Event, key: string, lo: int, hi: Option<int>) {
    e.key == key && lo <= e.at && (hi.Some? ==> e.at <= hi.value)
  }

  function Count(events: seq<Event>, key: string, lo: int, hi: Option<int>): nat {
    if events == [] then 0
    else Count(events[..|events| - 1], key, lo, hi) + if Within(events[|events| - 1], key, lo, hi) then 1 else 0
  }

  function Sum(events: seq<Event>, key: string, lo: int, hi: Option<int>): int {
    if events == [] then 0
    else Sum(events[..|events| - 1], key, lo, hi) + if Within(events[|events| - 1], key, lo, hi)
        then events[|events| - 1].amount as int else 0
  }

  /** The decide closure, on the usage the store found. */
  predicate Decide(c: Caps, count: nat, sum: int, amount: int) {
    && (c.maxCount > 0 ==> count + 1 <= c.maxCount)
    && (c.maxAmount.Some? ==> sum + amount <= c.maxAmount.value)
  }

  /** The charges of one key from `since` on break a cap: too many of them, or too much together. */
  predicate Over(c: Caps, events: seq<Event>, key: string, since: int) {
    || (c.maxCount > 0 && Count(events, key, since, None) > c.maxCount)
    || (c.maxAmount.Some? && Sum(events, key, since, None) > c.maxAmount.value)
  }

  /** The decision, both ways: a charge is refused exactly when it would put its own window over a cap. */
  lemma RefusedIffOver(c: Caps, events: seq<Event>, e: Event)
    requires c.window >= 0
    ensures !Decide(c, Count(events, e.key, e.at - c.window, None), Sum(events, e.key, e.at - c.window, None), e.amount)
        <==> Over(c, events + [e], e.key, e.at - c.window)
  {
    assert (events + [e])[..|events|] == events;
  }

  /** The sum, one charge at a time. */
  lemma SumAppend(events: seq<Event>, e: Event, key: string, lo: int)
    ensures Sum([], key, lo, None) == 0
    ensures Sum(events + [e], key, lo, None) ==
        Sum(events, key, lo, None) + if e.key == key && lo <= e.at then e.amount as int else 0
  {
    assert (events + [e])[..|events|] == events;
  }

  /** The charges counted, as positions in the list. */
  ghost function Counted(events: seq<Event>, key: string, lo: int, hi: Option<int>): set<int> {
    set i | 0 <= i < |events| && events[i].key == key && lo <= events[i].at && (hi == None || events[i].at <= hi.value)
  }

  /** The count is the number of charges of the key in the window, both of its ends included. */
  lemma {:induction false} CountIsCardinality(events: seq<Event>, key: string, lo: int, hi: Option<int>)
    ensures Count(events, key, lo, hi) == |Counted(events, key, lo, hi)|
  {
    if events != [] {
      var n := |events| - 1;
      CountIsCardinality(events[..n], key, lo, hi);
      var before, all := Counted(events[..n], key, lo, hi), Counted(events, key, lo, hi);
      assert all == before + if Within(events[n], key, lo, hi) then {n} else {};
    }
  }

  /** Each charge was decided on everything recorded before it in the window that ends with it, or later. */
  ghost predicate Admitted(c: Caps, events: seq<Event>, i: nat)
    requires i < |events|
  {
    var e := events[i];
    var count, sum := Count(events[..i], e.key, e.at - c.window, None), Sum(events[..i], e.key, e.at - c.window, None);
    e.amount > 0 && Decide(c, count, sum, e.amount)
  }

  ghost predicate AllAdmitted(c: Caps, events: seq<Event>) { forall i :: 0 <= i < |events| ==> Admitted(c, events, i) }

  ghost predicate Positive(events: seq<Event>) { forall i :: 0 <= i < |events| ==> events[i].amount > 0 }

  /** A narrower window holds no more. */
  lemma {:induction false} NarrowerHoldsLess(events: seq<Event>, key: string, lo: int, hi: Option<int>, since: int)
    requires Positive(events) && since <= lo
    ensures Count(events, key, lo, hi) <= Count(events, key, since, None)
    ensures Sum(events, key, lo, hi) <= Sum(events, key, since, None)
  {
    if events != [] { NarrowerHoldsLess(events[..|events| - 1], key, lo, hi, since); }
  }

  lemma AdmittedPrefix(c: Caps, events: seq<Event>, n: nat)
    requires AllAdmitted(c, events) && n <= |events|
    ensures AllAdmitted(c, events[..n]) && Positive(events[..n])
  {
    forall i | 0 <= i < n ensures Admitted(c, events[..n], i) && events[..n][i].amount > 0 {
      assert Admitted(c, events, i);
      assert events[..n][..i] == events[..i];
    }
  }

  /** At most maxCount charges, of at most maxAmount together (of nothing, if maxAmount is negative). */
  ghost predicate WindowHolds(c: Caps, events: seq<Event>, key: string, s: int) {
    && (c.maxCount > 0 ==> Count(events, key, s, Some(s + c.window)) <= c.maxCount)
    && (c.maxAmount.Some? ==>
        Sum(events, key, s, Some(s + c.window)) <= if c.maxAmount.value < 0 then 0 else c.maxAmount.value)
  }

  /**
   * Every closed window of the configured width, wherever it starts, respects both caps, in whatever order of
   * timestamps the charges were admitted: the last one admitted in the window saw all the others.
   */
  lemma {:induction false} EveryWindowHolds(c: Caps, events: seq<Event>, key: string, s: int)
    requires AllAdmitted(c, events)
    ensures WindowHolds(c, events, key, s)
  {
    if events != [] {
      var n := |events| - 1;
      var e := events[n];
      AdmittedPrefix(c, events, n);
      EveryWindowHolds(c, events[..n], key, s);
      if Within(e, key, s, Some(s + c.window)) {
        assert Admitted(c, events, n);
        NarrowerHoldsLess(events[..n], key, s, Some(s + c.window), e.at - c.window);
      }
    }
  }

  lemma AdmittedAppend(c: Caps, events: seq<Event>, e: Event)
    requires AllAdmitted(c, events) && e.amount > 0
    requires Decide(c, Count(events, e.key, e.at - c.window, None), Sum(events, e.key, e.at - c.window, None), e.amount)
    ensures AllAdmitted(c, events + [e])
  {
    var all := events + [e];
    forall i | 0 <= i < |all| ensures Admitted(c, all, i) {
      if i < |events| {
        assert Admitted(c, events, i); assert all[..i] == events[..i];
      } else {
        assert all[..i] == events;
      }
    }
  }

  // ---------------------------------------------------------------- one charge

  datatype Trouble = Fine | BeginFails | LockFails | SumFails | InsertFails | CommitFails
  datatype Outcome = NotEnforced | BadAmount | TooLarge | Exceeded | Recorded | Operational

  class Store {
    var events: seq<Event>

    constructor ()
      ensures events == []
    {
      events := [];
    }

    /** VelocityLimiter.Charge over pgVelocityStore.Charge: records the charge or leaves no trace. */
    method Charge(c: Caps, key: string, amount: Option<int>, now: int, trouble: Trouble) returns (r: Outcome)
      modifies this
      ensures r == NotEnforced <==> c.window <= 0 || (c.maxCount == 0 && c.maxAmount.None?)
      ensures r == BadAmount <==> Enabled(c) && (amount.None? || amount.value <= 0)
      ensures r == TooLarge <==> Enabled(c) && amount.Some? && amount.value >= TWO_63
      ensures Enabled(c) && amount.Some? && 0 < amount.value < TWO_63 ==>
        var count, sum := Count(old(events), key, now - c.window, None), Sum(old(events), key, now - c.window, None);
        && (r == Recorded <==> trouble.Fine? && sum < TWO_63 && Decide(c, count, sum, amount.value))
        && (r == Exceeded <==>
              && !trouble.BeginFails? && !trouble.LockFails? && !trouble.SumFails? && sum < TWO_63
              && Over(c, old(events) + [Event(key, amount.value, now)], key, now - c.window))
        && (r == Operational ==> !trouble.Fine? || sum >= TWO_63)
        && (r == Recorded ==> events == old(events) + [Event(key, amount.value, now)])
      ensures r != Recorded ==> events == old(events)
      ensures Enabled(c) && AllAdmitted(c, old(events)) ==> AllAdmitted(c, events)
    {
      if !(c.window > 0 && (c.maxCount > 0 || c.maxAmount.Some?)) { return NotEnforced; }
      if amount.None? || amount.value <= 0 { return BadAmount; }
      if amount.value >= TWO_63 { return TooLarge; }
      if trouble.BeginFails? || trouble.LockFails? || trouble.SumFails? { return Operational; }
      var since := now - c.window;
      var count, sum := Count(events, key, since, None), Sum(events, key, since, None);
      if sum >= TWO_63 { return Operational; }
      RefusedIffOver(c, events, Event(key, amount.value, now));
      if c.maxCount > 0 && count + 1 > c.maxCount { return Exceeded; }
      if c.maxAmount.Some? {
        var total := sum + amount.value;
        if total > c.maxAmount.value { return Exceeded; }
      }
      if trouble.InsertFails? || trouble.CommitFails? { return Operational; }
      var e := Event(key, amount.value, now);
      if AllAdmitted(c, events) { AdmittedAppend(c, events, e); }
      events := events + [e];
      return Recorded;
    }
  }

  // ---------------------------------------------------------------- interleaved charges

  datatype Place = Waiting | Locked | Summed(count: nat, sum: int) | Inserted
  datatype Tx = Tx(key: string, amount: int64, at: int, place: Place)

  /** `events` is in commit order; `locks` says which transaction holds an advisory lock. */
  datatype State = State(events: seq<Event>, txs: map<nat, Tx>, locks: map<int64, nat>)

  datatype Step = Begin(t: nat, key: string, amount: int64, now: int) | Lock(t: nat) | Read(t: nat) | Insert(t: nat)
      | Commit(t: nat) | Rollback(t: nat)

  type Locking = string -> int64

  ghost predicate CanStep(c: Caps, h: Locking, s: State, step: Step) {
    if step.Begin? then step.t !in s.txs && step.amount > 0 else
    && step.t in s.txs
    && var x := s.txs[step.t];
       match step {
         case Lock(_) => x.place.Waiting? && h(x.key) !in s.locks
         case Read(_) => x.place.Locked? && Sum(s.events, x.key, x.at - c.window, None) < TWO_63
         case Insert(_) => x.place.Summed? && Decide(c, x.place.count, x.place.sum, x.amount)
         case Commit(_) => x.place.Inserted?
         case _ => true
       }
  }

  function Released(locks: map<int64, nat>, t: nat): map<int64, nat> { map k | k in locks && locks[k] != t :: locks[k] }

  ghost function Do(c: Caps, h: Locking, s: State, step: Step): State
    requires CanStep(c, h, s, step)
  {
    match step
    case Begin(t, key, amount, now) => s.(txs := s.txs[t := Tx(key, amount, now, Waiting)])
    case Lock(t) => s.(txs := s.txs[t := s.txs[t].(place := Locked)], locks := s.locks[h(s.txs[t].key) := t])
    case Read(t) =>
      var x := s.txs[t];
      var usage := Summed(Count(s.events, x.key, x.at - c.window, None), Sum(s.events, x.key, x.at - c.window, None));
      s.(txs := s.txs[t := x.(place := usage)])
    case Insert(t) => s.(txs := s.txs[t := s.txs[t].(place := Inserted)])
    case Commit(t) => State(s.events + [EventOf(s.txs[t])], s.txs - {t}, Released(s.locks, t))
    case Rollback(t) => s.(txs := s.txs - {t}, locks := Released(s.locks, t))
  }

  function EventOf(x: Tx): Event { Event(x.key, x.amount, x.at) }

  ghost predicate Next(c: Caps, h: Locking, s: State, s': State) {
    exists step :: CanStep(c, h, s, step) && s' == Do(c, h, s, step)
  }

  ghost predicate Behavior(c: Caps, h: Locking, run: seq<State>) {
    && |run| > 0 && run[0] == State([], map[], map[])
    && forall i :: 0 <= i < |run| - 1 ==> Next(c, h, run[i], run[i + 1])
  }

  /** Past the lock a transaction holds it, and what it read is still the usage of its key. */
  ghost predicate TxOk(c: Caps, h: Locking, events: seq<Event>, locks: map<int64, nat>, t: nat, x: Tx) {
    var count, sum := Count(events, x.key, x.at - c.window, None), Sum(events, x.key, x.at - c.window, None);
    && x.amount > 0
    && (!x.place.Waiting? ==> h(x.key) in locks && locks[h(x.key)] == t)
    && (x.place.Summed? ==> x.place == Summed(count, sum))
    && (x.place.Inserted? ==> Decide(c, count, sum, x.amount))
  }

  ghost predicate Inv(c: Caps, h: Locking, s: State) {
    AllAdmitted(c, s.events) && forall t :: t in s.txs ==> TxOk(c, h, s.events, s.locks, t, s.txs[t])
  }

  /** A commit under another lock is a charge of another key, which leaves this key's usage alone. */
  lemma OtherKey(events: seq<Event>, e: Event, key: string, since: int)
    requires e.key != key
    ensures Count(events + [e], key, since, None) == Count(events, key, since, None)
    ensures Sum(events + [e], key, since, None) == Sum(events, key, since, None)
  {
    assert (events + [e])[..|events|] == events;
  }

  lemma CommitKeeps(c: Caps, h: Locking, s: State, t: nat)
    requires Inv(c, h, s) && t in s.txs && s.txs[t].place.Inserted?
    ensures Inv(c, h, Do(c, h, s, Commit(t)))
  {
    var s', e := Do(c, h, s, Commit(t)), EventOf(s.txs[t]);
    assert TxOk(c, h, s.events, s.locks, t, s.txs[t]);
    AdmittedAppend(c, s.events, e);
    forall u | u in s'.txs ensures TxOk(c, h, s'.events, s'.locks, u, s'.txs[u]) {
      assert TxOk(c, h, s.events, s.locks, u, s.txs[u]);
      if !s.txs[u].place.Waiting? { OtherKey(s.events, e, s.txs[u].key, s.txs[u].at - c.window); }
    }
  }

  lemma StepKeeps(c: Caps, h: Locking, s: State, step: Step)
    requires Inv(c, h, s) && CanStep(c, h, s, step)
    ensures Inv(c, h, Do(c, h, s, step))
  {
    if step.Commit? {
      CommitKeeps(c, h, s, step.t);
    } else {
      var s' := Do(c, h, s, step);
      if step.t in s.txs { assert TxOk(c, h, s.events, s.locks, step.t, s.txs[step.t]); }
      forall u | u in s'.txs ensures TxOk(c, h, s'.events, s'.locks, u, s'.txs[u]) {
        if u != step.t { assert TxOk(c, h, s.events, s.locks, u, s.txs[u]); }
      }
    }
  }

  lemma {:induction false} InvAlong(c: Caps, h: Locking, run: seq<State>, i: nat)
    requires Behavior(c, h, run) && i < |run|
    ensures Inv(c, h, run[i])
  {
    if i > 0 {
      InvAlong(c, h, run, i - 1);
      assert Next(c, h, run[i - 1], run[i - 1 + 1]);
      var step :| CanStep(c, h, run[i - 1], step) && run[i] == Do(c, h, run[i - 1], step);
      StepKeeps(c, h, run[i - 1], step);
    }
  }

  /**
   * In every interleaving, whatever the lock hash does and however the clocks disagree, no window of any key is ever
   * over its caps.
   */
  lemma NoWindowEverOver(c: Caps, h: Locking, run: seq<State>, i: nat, key: string, s: int)
    requires Behavior(c, h, run) && i < |run|
    ensures WindowHolds(c, run[i].events, key, s)
  {
    InvAlong(c, h, run, i);
    EveryWindowHolds(c, run[i].events, key, s);
  }

  /** And a charge that holds its lock and has read its usage is stopped exactly when it would break a cap by now. */
  lemma StoppedIffOver(c: Caps, h: Locking, run: seq<State>, i: nat, t: nat)
    requires Behavior(c, h, run) && i < |run| && t in run[i].txs && run[i].txs[t].place.Summed? && c.window >= 0
    ensures CanStep(c, h, run[i], Insert(t)) <==>
        !Over(c, run[i].events + [EventOf(run[i].txs[t])], run[i].txs[t].key, run[i].txs[t].at - c.window)
  {
    InvAlong(c, h, run, i);
    assert TxOk(c, h, run[i].events, run[i].locks, t, run[i].txs[t]);
    RefusedIffOver(c, run[i].events, EventOf(run[i].txs[t]));
  }
}
