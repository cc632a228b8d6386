/** The report read against the ledger it is built from. */
module Reserves {
  import opened Base
  import opened Ledger
  import opened Store
  import opened Money
  import opened Clearing
  import P = Pipeline
  import R = Reconcile
  import Report

  /** What a settled or finalized row shows to the reconciliation query. */
  function ItemOf(payments: map<PaymentId, Payment>, r: Row): R.Item
    requires r.payment in payments
  {
    R.Item(r.status == RowFinalized, payments[r.payment].asset, payments[r.payment].amount)
  }

  function LiveItems(payments: map<PaymentId, Payment>, rows: seq<Row>): seq<R.Item> {
    if rows == [] then []
    else
      var r := rows[|rows| - 1];
      LiveItems(payments, rows[..|rows| - 1]) + if Live(r) && r.payment in payments then [ItemOf(payments, r)] else []
  }

  /** The query lists each settled or finalized row of the database once, in creation order. */
  ghost predicate Snapshot(db: Db, t: seq<R.Record>) {
    R.Table(t) && multiset(R.Items(t)) == multiset(LiveItems(db.payments, db.rows))
  }

  // ---------------------------------------------------------------- sums do not depend on the order

  function Share(x: R.Item, asset: string, final: bool): int {
    if x.asset == asset && x.final == final then x.amount as int else 0
  }

  lemma {:induction false} SumConcat(a: seq<R.Item>, b: seq<R.Item>, asset: string, final: bool)
    ensures R.Sum(a + b, asset, final) == R.Sum(a, asset, final) + R.Sum(b, asset, final)
  {
    if b == [] {
      assert a + b == a;
    } else {
      SumConcat(a, b[..|b| - 1], asset, final);
      assert (a + b)[..|a + b| - 1] == a + b[..|b| - 1];
    }
  }

  lemma SumRemove(b: seq<R.Item>, k: nat, asset: string, final: bool)
    requires k < |b|
    ensures R.Sum(b, asset, final) == R.Sum(b[..k] + b[k + 1..], asset, final) + Share(b[k], asset, final)
  {
    var before, x, after := b[..k], b[k], b[k + 1..];
    assert b == before + [x] + after;
    SumConcat(before + [x], after, asset, final);
    R.OneMore(before, x, asset);
    SumConcat(before, after, asset, final);
  }

  lemma {:induction false} SumPermutes(a: seq<R.Item>, b: seq<R.Item>, asset: string, final: bool)
    requires multiset(a) == multiset(b)
    ensures R.Sum(a, asset, final) == R.Sum(b, asset, final)
    decreases |a|
  {
    if a == [] {
      assert |multiset(b)| == 0;
    } else {
      var n := |a| - 1;
      assert a[n] in multiset(a);
      var k :| 0 <= k < |b| && b[k] == a[n];
      WithoutOne(a, n);
      WithoutOne(b, k);
      assert a[..n] + a[n + 1..] == a[..n];
      SumRemove(b, k, asset, final);
      SumPermutes(a[..n], b[..k] + b[k + 1..], asset, final);
    }
  }

  lemma WithoutOne(b: seq<R.Item>, k: nat)
    requires k < |b|
    ensures multiset(b[..k] + b[k + 1..]) == multiset(b) - multiset{b[k]}
  {
    assert b == b[..k] + [b[k]] + b[k + 1..];
  }

  lemma {:induction false} ItemsAreRows(payments: map<PaymentId, Payment>, rows: seq<Row>, asset: string)
    ensures R.Sum(LiveItems(payments, rows), asset, true) + R.Sum(LiveItems(payments, rows), asset, false) ==
        RowSum(rows, AmountOf(payments, asset))
  {
    if rows != [] {
      var before := LiveItems(payments, rows[..|rows| - 1]);
      ItemsAreRows(payments, rows[..|rows| - 1], asset);
      var r := rows[|rows| - 1];
      if Live(r) && r.payment in payments {
        R.OneMore(before, ItemOf(payments, r), asset);
      } else {
        assert before + [] == before;
      }
    }
  }

  /** What the rows of one status carry in the asset. */
  function StatusSum(payments: map<PaymentId, Payment>, rows: seq<Row>, asset: string, status: RowStatus): int {
    if rows == [] then 0
    else
      var r := rows[|rows| - 1];
      StatusSum(payments, rows[..|rows| - 1], asset, status) +
        if r.status == status && r.payment in payments && payments[r.payment].asset == asset
        then payments[r.payment].amount as int else 0
  }

  /** The two columns of the report: finalized rows in the one, settled rows in the other, no other row in either. */
  lemma {:induction false} ColumnsAreStatuses(payments: map<PaymentId, Payment>, rows: seq<Row>, asset: string)
    ensures R.Sum(LiveItems(payments, rows), asset, true) == StatusSum(payments, rows, asset, RowFinalized)
    ensures R.Sum(LiveItems(payments, rows), asset, false) == StatusSum(payments, rows, asset, RowSettled)
  {
    if rows != [] {
      var before := LiveItems(payments, rows[..|rows| - 1]);
      ColumnsAreStatuses(payments, rows[..|rows| - 1], asset);
      var r := rows[|rows| - 1];
      if Live(r) && r.payment in payments {
        R.OneMore(before, ItemOf(payments, r), asset);
      } else {
        assert before + [] == before;
      }
    }
  }

  // ---------------------------------------------------------------- amounts stay positive

  ghost predicate PositiveAmounts(db: Db) { forall id | id in db.payments :: db.payments[id].amount > 0 }

  /** A payment whose amount is not positive is refused by the ledger, so none is ever recorded. */
  lemma NextKeepsPositive(db: Db, op: Op)
    requires PositiveAmounts(db)
    ensures PositiveAmounts(Next(db, op))
  {
    if op.Create? && CreatePayment(db, op.id, op.p).Some? {
      var lines := PaymentEntry(op.id, op.p).lines;
      assert Posting(db.accounts, db.journal, PaymentEntry(op.id, op.p)) == Posted;
      assert WellFormed(lines) && lines[0].amount == op.p.amount;
    }
  }

  lemma {:induction false} PositiveAlong(db: Db, ops: seq<Op>)
    requires PositiveAmounts(db)
    ensures PositiveAmounts(Run(db, ops))
  {
    if ops != [] {
      PositiveAlong(db, ops[..|ops| - 1]);
      NextKeepsPositive(Run(db, ops[..|ops| - 1]), ops[|ops| - 1]);
    }
  }

  lemma {:induction false} LiveItemsPositive(payments: map<PaymentId, Payment>, rows: seq<Row>, asset: string,
                                             final: bool)
    requires forall id | id in payments :: payments[id].amount > 0
    ensures R.Sum(LiveItems(payments, rows), asset, final) >= 0
  {
    if rows != [] {
      var before := LiveItems(payments, rows[..|rows| - 1]);
      LiveItemsPositive(payments, rows[..|rows| - 1], asset, final);
      var r := rows[|rows| - 1];
      if Live(r) && r.payment in payments {
        R.OneMore(before, ItemOf(payments, r), asset);
      } else {
        assert before + [] == before;
      }
    }
  }

  // ---------------------------------------------------------------- the report against the ledger

  predicate ColumnsOf(db: Db, sums: map<string, R.AssetSums>, asset: string) {
    var s := if asset in sums then sums[asset] else R.AssetSums(0, 0);
    && s.finalized == StatusSum(db.payments, db.rows, asset, RowFinalized)
    && s.confirmed == StatusSum(db.payments, db.rows, asset, RowSettled)
  }

  /** Finalized plus confirmed is the balance of the clearing account, exactly: neither sum can wrap. */
  lemma ExpectedIsHouseBalance(db: Db, t: seq<R.Record>, sums: map<string, R.AssetSums>, asset: string)
    requires ClearingInv(db) && PositiveAmounts(db) && asset in db.houses
    requires Snapshot(db, t) && R.Sums(sums, R.Items(t))
    ensures Report.Expected(sums, asset) == Balance(db.journal, db.houses[asset])
    ensures ColumnsOf(db, sums, asset)
  {
    var items, live := R.Items(t), LiveItems(db.payments, db.rows);
    ColumnsAreStatuses(db.payments, db.rows, asset);
    SumPermutes(items, live, asset, true);
    SumPermutes(items, live, asset, false);
    ItemsAreRows(db.payments, db.rows, asset);
    LiveItemsPositive(db.payments, db.rows, asset, true);
    LiveItemsPositive(db.payments, db.rows, asset, false);
    assert Balance(db.journal, db.houses[asset]) == LiveValue(db, asset);
    assert 0 <= Balance(db.journal, db.houses[asset]) < TWO_63;
    assert R.SumsOf(sums, items, asset);
    if asset !in sums { R.NoSum(items, asset, true); R.NoSum(items, asset, false); }
  }

  const HOUSE_KIND := "onchain_settlement"

  function NonHouse(db: Db, asset: string): set<AccountId> {
    set a | a in db.accounts && db.accounts[a].kind != HOUSE_KIND && db.accounts[a].asset == asset
  }

  /** Liabilities leave out the clearing accounts by their kind, whatever their asset's house is. */
  lemma NonHouseExactly(db: Db, asset: string, a: AccountId)
    ensures a in NonHouse(db, asset) <==>
        a in db.accounts && db.accounts[a].asset == asset && db.accounts[a].kind != "onchain_settlement"
  {}

  predicate FitsBigint(x: int) { -TWO_63 <= x < TWO_63 }

  /** A treasury address and the reply to its balance query: None is a failed call. */
  datatype Treasury = Treasury(asset: string, address: string, reply: Option<nat>)

  function HeldOn(reg: seq<Treasury>, asset: string): nat {
    if reg == [] then 0
    else
      var x := reg[|reg| - 1];
      HeldOn(reg[..|reg| - 1], asset) + if x.asset == asset && x.reply.Some? then x.reply.value else 0
  }

  predicate Registered(reg: seq<Treasury>, asset: string) { exists i :: 0 <= i < |reg| && reg[i].asset == asset }

  predicate AllReplied(reg: seq<Treasury>) { forall i :: 0 <= i < |reg| ==> reg[i].reply.Some? }

  ghost predicate Collected(reg: seq<Treasury>, actuals: map<string, seq<Report.AddressBalance>>) {
    && (forall asset :: asset in actuals <==> Registered(reg, asset))
    && (forall asset | asset in actuals :: Report.OnChain(actuals[asset]) == HeldOn(reg, asset))
  }

  lemma {:induction false} NotHeld(reg: seq<Treasury>, asset: string)
    requires !Registered(reg, asset)
    ensures HeldOn(reg, asset) == 0
  {
    if reg != [] { NotHeld(reg[..|reg| - 1], asset); }
  }

  lemma OneMoreTreasury(reg: seq<Treasury>, k: nat, asset: string)
    requires k < |reg|
    ensures Registered(reg[..k + 1], asset) <==> Registered(reg[..k], asset) || reg[k].asset == asset
    ensures HeldOn(reg[..k + 1], asset) == HeldOn(reg[..k], asset) + if reg[k].asset == asset && reg[k].reply.Some?
        then reg[k].reply.value else 0
  {
    assert reg[..k + 1][..k] == reg[..k] && reg[..k + 1][k] == reg[k];
    if Registered(reg[..k], asset) {
      var i :| 0 <= i < k && reg[..k][i].asset == asset; assert reg[..k + 1][i].asset == asset;
    }
  }

  /** The balance loop of reconcileReport: it stops at the first failed call. */
  method ReadBalances(reg: seq<Treasury>) returns (r: Option<map<string, seq<Report.AddressBalance>>>)
    ensures r.Some? <==> AllReplied(reg)
    ensures r.Some? ==> Collected(reg, r.value)
  {
    var actuals: map<string, seq<Report.AddressBalance>> := map[];
    for k := 0 to |reg|
      invariant Collected(reg[..k], actuals) && AllReplied(reg[..k])
    {
      var e := reg[k];
      ghost var before := actuals;
      if e.asset !in actuals { NotHeld(reg[..k], e.asset); actuals := actuals[e.asset := []]; }
      if e.reply.None? { return None; }
      var list := actuals[e.asset] + [Report.AddressBalance(e.address, Some(e.reply.value as int))];
      assert list[..|list| - 1] == actuals[e.asset];
      actuals := actuals[e.asset := list];
      forall asset
        ensures (asset in actuals <==> Registered(reg[..k + 1], asset))
        && (asset in actuals ==> Report.OnChain(actuals[asset]) == HeldOn(reg[..k + 1], asset)) {
        OneMoreTreasury(reg, k, asset);
      }
    }
    assert reg[..|reg|] == reg;
    return Some(actuals);
  }

  /** The liabilities of each asset: the negated sum of every balance that is not a clearing account's. */
  method ReadLiabilities(db: Db, assets: set<string>) returns (r: Option<map<string, int64>>)
    requires Solvent(db.journal)
    ensures r.Some? <==> forall asset | asset in assets :: FitsBigint(Total(db.journal, NonHouse(db, asset)))
    ensures r.Some? ==>
        r.value.Keys == assets
        && forall asset | asset in assets :: r.value[asset] == -Total(db.journal, NonHouse(db, asset)) <= 0
  {
    var out: map<string, int64> := map[];
    var left := assets;
    while left != {}
      invariant left <= assets && out.Keys == assets - left
      invariant forall asset | asset in out ::
        FitsBigint(Total(db.journal, NonHouse(db, asset))) && out[asset] == -Total(db.journal, NonHouse(db, asset)) <= 0
      decreases |left|
    {
      var asset :| asset in left;
      var sum := Total(db.journal, NonHouse(db, asset));
      SolventTotal(db.journal, NonHouse(db, asset));
      if !FitsBigint(sum) { return None; }
      out := out[asset := Wrap64(-sum)];
      left := left - {asset};
    }
    return Some(out);
  }

  /**
   * reconcileReport on a database whose clearing accounts match its rows. The discrepancy of an asset is the on-chain
   * balance less the clearing account's, and since no ledger account is ever negative the liabilities never exceed
   * zero: the verdict is OK on every row, and the report is clean exactly when no asset shows a discrepancy.
   */
  method ReconcileReport(db: Db, t: seq<R.Record>, pageSize: R.int32, failing: nat, reg: seq<Treasury>)
      returns (r: Option<Report.Report>)
    requires ClearingInv(db) && PositiveAmounts(db) && Snapshot(db, t)
    ensures r.None? <==>
      || pageSize <= 0 || failing < R.Queries(|t|, pageSize)
      || !AllReplied(reg)
      || exists asset: string :: Registered(reg, asset) && !FitsBigint(Total(db.journal, NonHouse(db, asset)))
    ensures r.Some? ==> forall asset :: Registered(reg, asset) ==>
        exists i :: 0 <= i < |r.value.assets| && r.value.assets[i].asset == asset
    ensures r.Some? ==> forall i :: 0 <= i < |r.value.assets| ==> RowIsRight(db, reg, r.value.assets[i])
    ensures r.Some? ==>
        (r.value.clean <==> forall i :: 0 <= i < |r.value.assets| ==> r.value.assets[i].discrepancy == 0)
  {
    var sums := R.AggregateSettlements(t, pageSize, failing);
    if sums.None? { return None; }
    var actuals := ReadBalances(reg);
    if actuals.None? { return None; }
    var liabilities := ReadLiabilities(db, actuals.value.Keys);
    if liabilities.None? { return None; }
    var report := Report.BuildReport(sums.value, liabilities.value, actuals.value);
    forall i | 0 <= i < |report.assets| ensures RowIsRight(db, reg, report.assets[i]) {
      RowFollows(db, t, reg, report.assets[i], sums.value, liabilities.value, actuals.value);
    }
    assert forall i :: 0 <= i < |report.assets| ==>
        (Report.Reconciled(report.assets[i]) <==> report.assets[i].discrepancy == 0) by {
      assert forall i :: 0 <= i < |report.assets| ==> RowIsRight(db, reg, report.assets[i]);
    }
    return Some(report);
  }

  ghost predicate RowIsRight(db: Db, reg: seq<Treasury>, row: Report.AssetRow) {
    && row.onChain == HeldOn(reg, row.asset)
    && row.verdict == Report.OK
    && (row.asset in db.houses ==>
          && row.discrepancy == HeldOn(reg, row.asset) - Balance(db.journal, db.houses[row.asset])
          && row.finalized == StatusSum(db.payments, db.rows, row.asset, RowFinalized)
          && row.confirmed == StatusSum(db.payments, db.rows, row.asset, RowSettled))
  }

  lemma RowFollows(db: Db, t: seq<R.Record>, reg: seq<Treasury>, row: Report.AssetRow,
                   sums: map<string, R.AssetSums>, liabilities: map<string, int64>,
                       actuals: map<string, seq<Report.AddressBalance>>)
    requires ClearingInv(db) && PositiveAmounts(db) && Snapshot(db, t) && R.Sums(sums, R.Items(t))
    requires Collected(reg, actuals) && (forall asset | asset in liabilities :: liabilities[asset] <= 0)
    requires Report.Tells(row, sums, liabilities, actuals)
    ensures RowIsRight(db, reg, row)
  {
    if row.asset !in actuals { NotHeld(reg, row.asset); }
    if row.asset in db.houses { ExpectedIsHouseBalance(db, t, sums, row.asset); }
  }

  // ---------------------------------------------------------------- in every run of watcher and sink

  /** A step of the whole system that resurrects no key and creates no payment naming a clearing account. */
  ghost predicate Advances(s: P.Sys, s': P.Sys) {
    exists step ::
      && P.Enabled(s, step) && !P.Resurrects(s, step) && (step.Other? && step.op.Create? ==> Outside(s.db, step.op.p))
      && s' == P.Do(s, step)
  }

  ghost predicate Sound(s: P.Sys) { P.SafeInv(s) && ClearingInv(s.db) && PositiveAmounts(s.db) }

  lemma StepKeepsSound(s: P.Sys, step: P.Step)
    requires Sound(s) && P.Enabled(s, step) && !P.Resurrects(s, step)
    requires step.Other? && step.op.Create? ==> Outside(s.db, step.op.p)
    ensures Sound(P.Do(s, step))
  {
    P.StepKeepsSafe(s, step);
    match step {
      case Hand(outcome) =>
        P.HandKeepsSafe(s, outcome);
        var op := Deliver(s.pending[0], P.Applied(s, outcome));
        assert P.Do(s, step).db == Next(s.db, op);
        NextKeepsHouse(s.db, op);
        NextKeepsPositive(s.db, op);
      case Other(op) =>
        NextKeepsHouse(s.db, op);
        NextKeepsPositive(s.db, op);
      case _ =>
    }
  }

  lemma {:induction false} SoundAlong(run: seq<P.Sys>)
    requires run != [] && P.Booted(run[0]) && Sound(run[0])
    requires forall i :: 0 <= i < |run| - 1 ==> Advances(run[i], run[i + 1])
    ensures Sound(run[|run| - 1])
  {
    if |run| > 1 {
      var before := run[..|run| - 1];
      assert forall i :: 0 <= i < |before| - 1 ==> Advances(run[i], run[i + 1]);
      SoundAlong(before);
      var s, s' := before[|before| - 1], run[|run| - 1];
      assert Advances(run[|run| - 2], run[|run| - 1]);
      var step :|
        && P.Enabled(s, step) && !P.Resurrects(s, step) && (step.Other? && step.op.Create? ==> Outside(s.db, step.op.p))
        && s' == P.Do(s, step);
      StepKeepsSound(s, step);
    }
  }

  /**
   * In every state that watcher, sink, rescan, crashes and failed deliveries can reach, the paged sums of an asset add
   * up to the balance of its clearing account.
   */
  lemma ReservesInEveryRun(run: seq<P.Sys>, t: seq<R.Record>, sums: map<string, R.AssetSums>, asset: string)
    requires run != [] && P.Booted(run[0]) && Sound(run[0])
    requires forall i :: 0 <= i < |run| - 1 ==> Advances(run[i], run[i + 1])
    requires var db := run[|run| - 1].db; asset in db.houses && Snapshot(db, t) && R.Sums(sums, R.Items(t))
    ensures var db := run[|run| - 1].db; Report.Expected(sums, asset) == Balance(db.journal, db.houses[asset])
  {
    SoundAlong(run);
    ExpectedIsHouseBalance(run[|run| - 1].db, t, sums, asset);
  }
}
