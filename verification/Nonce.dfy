/** The per-sender nonce allocator. */
module Nonce {
  import opened Base

  type Address = nat

  /** One call of withNonce: the node's pending nonce (None is a failed query) and whether the submission succeeds. */
  datatype Call = Call(from: Address, pending: Option<uint64>, succeeds: bool)

  /** A committed allocation, with the pending nonce the node had reported for it. */
  datatype Grant = Grant(from: Address, nonce: uint64, pending: uint64)

  /** nonce + 1 in uint64 arithmetic. */
  function Successor(n: uint64): uint64 { if n == TWO_64 - 1 then 0 else n + 1 }

  function HighWater(next: map<Address, uint64>, from: Address): uint64 { if from in next then next[from] else 0 }

  function Candidate(next: map<Address, uint64>, from: Address, pending: uint64): uint64 {
    if HighWater(next, from) > pending then HighWater(next, from) else pending
  }

  class Allocator {
    var next: map<Address, uint64>

    constructor ()
      ensures next == map[]
    {
      next := map[];
    }

    /** withNonce: `used` is the nonce the submission ran with, if it ran at all. */
    method WithNonce(c: Call) returns (used: Option<uint64>, ok: bool)
      modifies this
      ensures used.Some? <==> c.pending.Some?
      ensures used.Some? ==> used.value >= c.pending.value && used.value >= HighWater(old(next), c.from)
      ensures used.Some? ==> used.value == c.pending.value || used.value == HighWater(old(next), c.from)
      ensures ok <==> c.pending.Some? && c.succeeds
      ensures ok && used.value < TWO_64 - 1 ==> next == old(next)[c.from := used.value + 1]
      ensures ok && used.value == TWO_64 - 1 ==> next == old(next)[c.from := 0]
      ensures !ok ==> next == old(next)
      ensures next == Called(History(old(next), []), c).next
    {
      if c.pending.None? { return None, false; }
      var nonce := c.pending.value;
      var hw := if c.from in next then next[c.from] else 0;
      if hw > nonce { nonce := hw; }
      if !c.succeeds { return Some(nonce), false; }
      next := next[c.from := Successor(nonce)];
      return Some(nonce), true;
    }
  }

  // ---------------------------------------------------------------- any sequence of calls

  datatype History = History(next: map<Address, uint64>, grants: seq<Grant>)

  function Called(h: History, c: Call): History {
    if c.pending.None? || !c.succeeds then h
    else
      var nonce := Candidate(h.next, c.from, c.pending.value);
      History(h.next[c.from := Successor(nonce)], h.grants + [Grant(c.from, nonce, c.pending.value)])
  }

  function After(calls: seq<Call>): History {
    if calls == [] then History(map[], []) else Called(After(calls[..|calls| - 1]), calls[|calls| - 1])
  }

  /** One sender's grants, in order. */
  function Of(grants: seq<Grant>, a: Address): seq<Grant> {
    if grants == [] then []
    else Of(grants[..|grants| - 1], a) + if grants[|grants| - 1].from == a then [grants[|grants| - 1]] else []
  }

  /** None but the last is the largest uint64, after which the high-water wraps. */
  ghost predicate NoneWraps(g: seq<Grant>) { forall i :: 0 <= i < |g| - 1 ==> g[i].nonce != TWO_64 - 1 }

  ghost predicate Increasing(g: seq<Grant>) { forall i, j :: 0 <= i < j < |g| ==> g[i].nonce < g[j].nonce }

  /** None is below its pending nonce, and each is the successor of the one before it unless the node was further on. */
  ghost predicate Follows(g: seq<Grant>) {
    && (forall i :: 0 <= i < |g| ==> g[i].pending <= g[i].nonce)
    && (forall i :: 0 < i < |g| ==> FollowsAt(g, i))
  }

  ghost predicate FollowsAt(g: seq<Grant>, i: nat)
    requires 0 < i < |g|
  {
    ComesAfter(g[i - 1], g[i])
  }

  predicate ComesAfter(last: Grant, x: Grant) {
    var next := if last.nonce < TWO_64 - 1 then last.nonce + 1 else 0;
    x.nonce == if x.pending <= next then next else x.pending
  }

  lemma FollowsAppend(g: seq<Grant>, x: Grant)
    requires Follows(g) && x.pending <= x.nonce && (g != [] ==> ComesAfter(g[|g| - 1], x))
    ensures Follows(g + [x])
  {
    var g' := g + [x];
    forall i | 0 < i < |g'| ensures FollowsAt(g', i) {
      if i < |g| { assert FollowsAt(g, i) && g'[i - 1] == g[i - 1] && g'[i] == g[i]; }
    }
  }

  ghost predicate Inv(h: History, a: Address) {
    var g := Of(h.grants, a);
    Follows(g) && HighWater(h.next, a) == if g == [] then 0 else Successor(g[|g| - 1].nonce)
  }

  lemma OfAppend(grants: seq<Grant>, x: Grant, a: Address)
    ensures Of(grants + [x], a) == if x.from == a then Of(grants, a) + [x] else Of(grants, a)
  {
    assert (grants + [x])[..|grants|] == grants;
  }

  lemma CalledKeeps(h: History, c: Call, a: Address)
    requires Inv(h, a)
    ensures Inv(Called(h, c), a)
  {
    if c.pending.Some? && c.succeeds {
      var x := Grant(c.from, Candidate(h.next, c.from, c.pending.value), c.pending.value);
      OfAppend(h.grants, x, a);
      if c.from == a { FollowsAppend(Of(h.grants, a), x); }
    }
  }

  lemma {:induction false} RunInv(calls: seq<Call>, a: Address)
    ensures Inv(After(calls), a)
  {
    if calls != [] {
      RunInv(calls[..|calls| - 1], a);
      CalledKeeps(After(calls[..|calls| - 1]), calls[|calls| - 1], a);
    }
  }

  lemma {:induction false} FollowsIncreases(g: seq<Grant>, i: nat, j: nat)
    requires Follows(g) && NoneWraps(g) && i < j < |g|
    ensures g[i].nonce < g[j].nonce
  {
    assert FollowsAt(g, j);
    if i + 1 < j { FollowsIncreases(g, i, j - 1); }
  }

  /**
   * Over any sequence of calls, a sender's committed nonces follow each other unless the node was further on, none is
   * below the pending nonce the node reported for it, and they strictly increase if and only if none but the last is
   * the largest uint64.
   */
  lemma NoncesIncreaseIff(calls: seq<Call>, a: Address)
    ensures var g := Of(After(calls).grants, a);
      Follows(g) && (Increasing(g) <==> NoneWraps(g))
  {
    var g := Of(After(calls).grants, a);
    RunInv(calls, a);
    if NoneWraps(g) {
      forall i, j | 0 <= i < j < |g| ensures g[i].nonce < g[j].nonce { FollowsIncreases(g, i, j); }
    }
    if Increasing(g) {
      forall i | 0 <= i < |g| - 1 ensures g[i].nonce != TWO_64 - 1 { assert g[i].nonce < g[|g| - 1].nonce; }
    }
  }

  /** Each nonce is one above the one before it. */
  ghost predicate Consecutive(g: seq<Grant>) { forall i :: 0 < i < |g| ==> g[i].nonce == g[i - 1].nonce + 1 }

  /** The node never reported a pending nonce beyond the next one. */
  ghost predicate NodeIsBehind(g: seq<Grant>) { forall i :: 0 < i < |g| ==> g[i].pending <= g[i - 1].nonce + 1 }

  /**
   * A sender's nonces leave no gap and repeat nothing if and only if none but the last is the largest uint64 and the
   * node never was further on than the allocator.
   */
  lemma NoncesGaplessIff(calls: seq<Call>, a: Address)
    ensures var g := Of(After(calls).grants, a);
      Consecutive(g) <==> NoneWraps(g) && NodeIsBehind(g)
  {
    var g := Of(After(calls).grants, a);
    RunInv(calls, a);
    forall i | 0 < i < |g|
      ensures g[i].nonce == g[i - 1].nonce + 1 <==> g[i - 1].nonce != TWO_64 - 1 && g[i].pending <= g[i - 1].nonce + 1
    {
      assert FollowsAt(g, i);
    }
    if Consecutive(g) {
      forall i | 0 <= i < |g| - 1 ensures g[i].nonce != TWO_64 - 1 { assert g[i + 1].nonce == g[i + 1 - 1].nonce + 1; }
    }
  }

  predicate Commits(c: Call) { c.pending.Some? && c.succeeds }

  /** The calls that commit, in order. */
  function Committing(calls: seq<Call>): seq<Call> {
    if calls == [] then []
    else Committing(calls[..|calls| - 1]) + if Commits(calls[|calls| - 1]) then [calls[|calls| - 1]] else []
  }

  /**
   * Failed queries and submissions consume nothing: a sequence of calls grants exactly what its committing calls grant
   * by themselves, one nonce each.
   */
  lemma {:induction false} FailuresConsumeNothing(calls: seq<Call>)
    ensures After(calls) == After(Committing(calls))
    ensures |After(calls).grants| == |Committing(calls)|
  {
    if calls != [] {
      var before, c := calls[..|calls| - 1], calls[|calls| - 1];
      FailuresConsumeNothing(before);
      if Commits(c) {
        assert Committing(calls)[..|Committing(before)|] == Committing(before);
      } else {
        assert Committing(calls) == Committing(before);
      }
    }
  }

  /** Each grant went to the sender of its call, against the pending nonce of that call. */
  lemma {:induction false} GrantsFollowCalls(calls: seq<Call>, i: nat)
    requires i < |After(calls).grants|
    ensures i < |Committing(calls)|
    ensures After(calls).grants[i].from == Committing(calls)[i].from
    ensures Some(After(calls).grants[i].pending) == Committing(calls)[i].pending
  {
    var before := calls[..|calls| - 1];
    FailuresConsumeNothing(before);
    if i < |After(before).grants| { GrantsFollowCalls(before, i); }
  }

  /** At the largest uint64 the high-water wraps to zero, and the next nonce can be one that was used long before. */
  lemma OverflowReuses() returns (calls: seq<Call>)
    ensures var g := Of(After(calls).grants, 0); |g| == 2 && g[0].nonce + 1 == TWO_64 && g[1].nonce == 0
  {
    var a := Call(0, Some(TWO_64 - 1), true);
    var b := Call(0, Some(0), true);
    calls := [a, b];
    assert calls[..1] == [a] && [a][..0] == [];
    var first, second := Grant(0, TWO_64 - 1, TWO_64 - 1), Grant(0, 0, 0);
    assert After([a]) == History(map[0 := 0], [first]);
    assert After(calls).grants == [first] + [second];
    assert Of([], 0) == [];
    OfAppend([], first, 0);
    OfAppend([first], second, 0);
    assert [] + [first] == [first];
  }
}
