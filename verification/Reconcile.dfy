/** Reconciliation: the keyset-paged sum over the settlements and the proof-of-reserves report. */
module Reconcile {
  import opened Base

  type int32 = x: int | -0x8000_0000 <= x < 0x8000_0000

  /** What one settled or finalized row contributes. */
  datatype Item = Item(final: bool, asset: string, amount: int64)
  /** A row of the query: its place in the (created_at, id) order and its contribution. */
  datatype Record = Record(at: int, id: nat, item: Item)
  datatype AssetSums = AssetSums(finalized: int64, confirmed: int64)

  // ---------------------------------------------------------------- the two queries

  predicate After(a: Record, b: Record) { a.at < b.at || (a.at == b.at && a.id < b.id) }

  /** The settled and finalized rows in query order; `id` is a key, so the order is strict. */
  ghost predicate Table(t: seq<Record>) {
    forall i, j :: 0 <= i < j < |t| ==> t[i].at < t[j].at || (t[i].at == t[j].at && t[i].id < t[j].id)
  }

  function Beyond(t: seq<Record>, c: Record): seq<Record> {
    if t == [] then [] else (if After(c, t[0]) then [t[0]] else []) + Beyond(t[1..], c)
  }

  /** LIMIT: Postgres refuses a negative one. */
  function Limited(t: seq<Record>, limit: int32): Option<seq<Record>> {
    if limit < 0 then None else Some(if |t| <= limit then t else t[..limit])
  }

  /** Past the cursor of the k-th row of a table lies exactly the rest of it. */
  lemma {:induction false} BeyondIsRest(t: seq<Record>, k: nat, c: Record)
    requires Table(t) && k <= |t|
    requires forall i :: 0 <= i < |t| ==> (After(c, t[i]) <==> k <= i)
    ensures Beyond(t, c) == t[k..]
  {
    if t != [] {
      if k == 0 {
        BeyondIsRest(t[1..], 0, c);
        assert t == [t[0]] + t[1..];
      } else {
        BeyondIsRest(t[1..], k - 1, c);
        assert t[1..][k - 1..] == t[k..];
      }
    }
  }

  // ---------------------------------------------------------------- the sum

  function Sum(items: seq<Item>, asset: string, final: bool): int {
    if items == [] then 0
    else
      var x := items[|items| - 1];
      Sum(items[..|items| - 1], asset, final) + if x.asset == asset && x.final == final then x.amount as int else 0
  }

  function Items(t: seq<Record>): seq<Item> { seq(|t|, i requires 0 <= i < |t| => t[i].item) }

  predicate Occurs(items: seq<Item>, asset: string) { exists i :: 0 <= i < |items| && items[i].asset == asset }

  /** An asset that occurs has the two sums of its rows, kept as int64s; another is not listed. */
  ghost predicate SumsOf(sums: map<string, AssetSums>, items: seq<Item>, asset: string) {
    if asset in sums
    then Occurs(items, asset)
        && sums[asset] == AssetSums(Wrap64(Sum(items, asset, true)), Wrap64(Sum(items, asset, false)))
    else !Occurs(items, asset)
  }

  ghost predicate Sums(sums: map<string, AssetSums>, items: seq<Item>) {
    forall asset: string :: SumsOf(sums, items, asset)
  }

  lemma {:induction false} NoSum(items: seq<Item>, asset: string, final: bool)
    requires !Occurs(items, asset)
    ensures Sum(items, asset, final) == 0
  {
    if items != [] { NoSum(items[..|items| - 1], asset, final); }
  }

  lemma OneMore(items: seq<Item>, x: Item, asset: string)
    ensures Occurs(items + [x], asset) <==> Occurs(items, asset) || x.asset == asset
    ensures forall final :: Sum(items + [x], asset, final) == Sum(items, asset, final) + if x.asset == asset
        && x.final == final then x.amount as int else 0
  {
    var all := items + [x];
    assert all[..|items|] == items && all[|items|] == x;
    if Occurs(items, asset) { var i :| 0 <= i < |items| && items[i].asset == asset; assert all[i].asset == asset; }
  }

  /** accumulate */
  method Accumulate(sums: map<string, AssetSums>, x: Item, ghost items: seq<Item>) returns (now: map<string, AssetSums>)
    requires Sums(sums, items)
    ensures Sums(now, items + [x])
  {
    var s := if x.asset in sums then sums[x.asset] else AssetSums(0, 0);
    assert SumsOf(sums, items, x.asset);
    if x.asset !in sums { NoSum(items, x.asset, true); NoSum(items, x.asset, false); }
    WrapAdd(Sum(items, x.asset, x.final), x.amount);
    if x.final {
      s := s.(finalized := Wrap64(s.finalized + x.amount));
    } else {
      s := s.(confirmed := Wrap64(s.confirmed + x.amount));
    }
    now := sums[x.asset := s];
    forall asset: string ensures SumsOf(now, items + [x], asset) {
      assert SumsOf(sums, items, asset);
      OneMore(items, x, asset);
    }
  }

  /** The loop over one page of the table, which starts after `done` rows: it leaves the cursor on the last row read. */
  method Fold(sums: map<string, AssetSums>, page: seq<Record>, cursor: Record, ghost t: seq<Record>, ghost done: nat)
      returns (now: map<string, AssetSums>, last: Record)
    requires done + |page| <= |t| && page == t[done..done + |page|]
    requires Sums(sums, Items(t[..done]))
    ensures Sums(now, Items(t[..done + |page|]))
    ensures last == if page == [] then cursor else t[done + |page| - 1]
  {
    now, last := sums, cursor;
    for i := 0 to |page|
      invariant Sums(now, Items(t[..done + i]))
      invariant last == if i == 0 then cursor else page[i - 1]
    {
      now := Accumulate(now, page[i].item, Items(t[..done + i]));
      OneMoreRow(t, done + i);
      last := page[i];
    }
  }

  lemma OneMoreRow(t: seq<Record>, k: nat)
    requires k < |t|
    ensures Items(t[..k + 1]) == Items(t[..k]) + [t[k].item]
  {
  }

  function Min(a: int, b: int): int { if a < b then a else b }

  /** The query for the page after `done` rows gives the next rows of the table. */
  lemma NextPage(t: seq<Record>, done: nat, cursor: Record, limit: int32)
    requires Table(t) && done <= |t| && (done > 0 ==> cursor == t[done - 1]) && 0 <= limit
    ensures Limited(if done == 0 then t else Beyond(t, cursor), limit) == Some(t[done..done + Min(limit, |t| - done)])
  {
    if done > 0 { BeyondIsRest(t, done, cursor); }
    assert t[0..] == t;
    Slice(t, done, Min(limit, |t| - done));
  }

  lemma Slice(t: seq<Record>, a: nat, n: nat)
    requires a + n <= |t|
    ensures t[a..][..n] == t[a..a + n]
    ensures a + n == |t| ==> t[a..] == t[a..a + n]
  {
    var s := t[a..a + n];
    assert forall i :: 0 <= i < n ==> s[i] == t[a + i] == t[a..][i] == t[a..][..n][i];
  }

  method Query(t: seq<Record>, done: nat, cursor: Record, pageSize: int32) returns (page: seq<Record>)
    requires Table(t) && done <= |t| && (done > 0 ==> cursor == t[done - 1]) && 0 <= pageSize
    ensures |page| == Min(pageSize, |t| - done) && page == t[done..done + |page|]
  {
    NextPage(t, done, cursor, pageSize);
    page := Limited(if done == 0 then t else Beyond(t, cursor), pageSize).value;
  }

  /** One query and the loop over its page. */
  method ReadPage(t: seq<Record>, done: nat, sums: map<string, AssetSums>, cursor: Record, pageSize: int32)
      returns (n: nat, now: map<string, AssetSums>, last: Record)
    requires Table(t) && done <= |t| && (done > 0 ==> cursor == t[done - 1]) && 0 <= pageSize
    requires Sums(sums, Items(t[..done]))
    ensures n == Min(pageSize, |t| - done)
    ensures Sums(now, Items(t[..done + n]))
    ensures n > 0 ==> last == t[done + n - 1]
  {
    var page := Query(t, done, cursor, pageSize);
    n := |page|;
    now, last := Fold(sums, page, cursor, t, done);
  }

  /** The number of queries: every full page is followed by another. */
  function Queries(rows: nat, pageSize: int32): nat
    requires pageSize > 0
    decreases rows
  {
    if rows < pageSize then 1 else 1 + Queries(rows - pageSize, pageSize)
  }

  /** One query for every full page, and one more that finds fewer rows. */
  lemma {:induction false} QueriesExactly(rows: nat, pageSize: int32)
    requires pageSize > 0
    ensures (Queries(rows, pageSize) - 1) * pageSize <= rows < Queries(rows, pageSize) * pageSize
    decreases rows
  {
    if rows >= pageSize {
      QueriesExactly(rows - pageSize, pageSize);
      var q, p: int := Queries(rows - pageSize, pageSize), pageSize;
      assert (1 + q) * p == p + q * p && (q - 1) * p + p == q * p;
    }
  }

  /**
   * AggregateSettlements over a table that stays as it is. `failing` is the first query that fails, if it is ever
   * asked: a database error, or the end of the caller's context. With a page size of zero only that ends the loop.
   */
  method AggregateSettlements(t: seq<Record>, pageSize: int32, failing: nat)
      returns (r: Option<map<string, AssetSums>>)
    requires Table(t)
    ensures r.None? <==> pageSize <= 0 || failing < Queries(|t|, pageSize)
    ensures r.Some? ==> Sums(r.value, Items(t))
  {
    if failing == 0 || Limited(t, pageSize).None? { return None; }
    assert Items(t[..0]) == [];
    var n, sums, cursor := ReadPage(t, 0, map[], NOWHERE, pageSize);
    var done, asked := n, 1;
    while n == pageSize
      invariant 0 <= n <= done <= |t| && n <= pageSize && (n < pageSize ==> done == |t|)
          && (pageSize == 0 ==> done == 0)
      invariant pageSize > 0 ==>
        Queries(|t|, pageSize) == asked + if n == pageSize then Queries(|t| - done, pageSize) else 0
      invariant failing >= asked
      invariant n == pageSize && done > 0 ==> cursor == t[done - 1]
      invariant Sums(sums, Items(t[..done]))
      decreases |t| - done, if n == pageSize then 1 else 0, failing - asked
    {
      if failing == asked { return None; }
      n, sums, cursor := ReadPage(t, done, sums, cursor, pageSize);
      done, asked := done + n, asked + 1;
    }
    assert t[..done] == t;
    return Some(sums);
  }

  const NOWHERE := Record(0, 0, Item(false, "", 0))

  /** The size of the last page and the cursor after it, k passes into the page loop. */
  function Control(t: seq<Record>, pageSize: int32, k: nat): (int, Record)
    requires pageSize >= 0
  {
    var (n, cursor) := if k == 0 then (pageSize as int, NOWHERE) else Control(t, pageSize, k - 1);
    if n != pageSize then (n, cursor) else
    var page := Limited(if k == 0 then t else Beyond(t, cursor), pageSize).value;
    (|page|, if page == [] then cursor else page[|page| - 1])
  }

  /** With a page size of zero the loop's guard holds after every pass, whatever the table. */
  lemma {:induction false} ZeroNeverEnds(t: seq<Record>, k: nat)
    ensures Control(t, 0, k).0 == 0
  {
    if k > 0 { ZeroNeverEnds(t, k - 1); }
  }
}
