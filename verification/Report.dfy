/** The proof-of-reserves report: one row for every asset named anywhere, in order. */
module Report {
  import opened Base
  import opened Reconcile

  /** An address whose balance is missing counts for nothing. */
  datatype AddressBalance = AddressBalance(address: string, actual: Option<int>)
  datatype Verdict = OK | Undercollateralized
  datatype AssetRow = AssetRow(asset: string, addresses: seq<AddressBalance>, finalized: int64, confirmed: int64,
                               onChain: int, discrepancy: int, liabilities: int64, verdict: Verdict)
  datatype Report = Report(assets: seq<AssetRow>, clean: bool)

  // ---------------------------------------------------------------- sorted keys

  /** The byte order of strings. */
  predicate Below(a: string, b: string) {
    b != [] && (a == [] || a[0] < b[0] || (a[0] == b[0] && Below(a[1..], b[1..])))
  }

  /** The order is the usual one: a proper prefix comes first, and else the first difference decides. */
  lemma {:induction false} BelowIff(a: string, b: string)
    ensures Below(a, b) <==>
        exists k :: 0 <= k < |b| && k <= |a| && a[..k] == b[..k] && (k == |a| || a[k] < b[k])
  {
    if a == [] || b == [] {
      assert a == [] && b != [] ==> a[..0] == b[..0];
    } else if a[0] == b[0] {
      BelowIff(a[1..], b[1..]);
      BelowRest(a, b);
    } else {
      assert a[..0] == b[..0];
      forall k | 0 < k < |b| && k <= |a| ensures a[..k] != b[..k] { assert a[..k][0] != b[..k][0]; }
    }
  }

  lemma BelowRest(a: string, b: string)
    requires a != [] && b != [] && a[0] == b[0]
    ensures (exists k :: 0 <= k < |b| && k <= |a| && a[..k] == b[..k] && (k == |a| || a[k] < b[k])) <==>
        var c, d := a[1..], b[1..];
        exists k :: 0 <= k < |d| && k <= |c| && c[..k] == d[..k] && (k == |c| || c[k] < d[k])
  {
    var c, d := a[1..], b[1..];
    if k :| 0 <= k < |b| && k <= |a| && a[..k] == b[..k] && (k == |a| || a[k] < b[k]) {
      assert k > 0;
      assert c[..k - 1] == a[..k][1..] && d[..k - 1] == b[..k][1..];
    }
    if k :| 0 <= k < |d| && k <= |c| && c[..k] == d[..k] && (k == |c| || c[k] < d[k]) {
      assert a[..k + 1] == [a[0]] + c[..k] && b[..k + 1] == [b[0]] + d[..k];
    }
  }

  lemma {:induction false} BelowTotal(a: string, b: string)
    ensures a == b || Below(a, b) || Below(b, a)
    ensures !(Below(a, b) && Below(b, a)) && (a == b ==> !Below(a, b))
  {
    if a != [] && b != [] && a[0] == b[0] {
      BelowTotal(a[1..], b[1..]);
      assert a == [a[0]] + a[1..] && b == [b[0]] + b[1..];
    }
  }

  lemma {:induction false} BelowTransitive(a: string, b: string, c: string)
    requires Below(a, b) && Below(b, c)
    ensures Below(a, c)
  {
    if a != [] && a[0] == b[0] == c[0] { BelowTransitive(a[1..], b[1..], c[1..]); }
  }

  ghost predicate Ordered(keys: seq<string>) { forall i, j :: 0 <= i < j < |keys| ==> Below(keys[i], keys[j]) }

  method Insert(keys: seq<string>, x: string) returns (r: seq<string>)
    requires Ordered(keys) && x !in keys
    ensures Ordered(r)
    ensures forall y :: y in r <==> y in keys || y == x
  {
    var k := 0;
    while k < |keys| && Below(keys[k], x)
      invariant 0 <= k <= |keys|
      invariant forall i :: 0 <= i < k ==> Below(keys[i], x)
    {
      k := k + 1;
    }
    r := keys[..k] + [x] + keys[k..];
    forall i | k <= i < |keys| ensures Below(x, keys[i]) {
      BelowTotal(keys[k], x);
      if i > k { BelowTransitive(x, keys[k], keys[i]); }
    }
    forall y | y in keys ensures y in r {
      var i :| 0 <= i < |keys| && keys[i] == y;
      assert r[if i < k then i else i + 1] == y;
    }
    assert r[k] == x;
  }

  /** unionKeys: every key of the three maps once, in ascending order. */
  method UnionKeys(sums: map<string, AssetSums>, liabilities: map<string, int64>,
                   actuals: map<string, seq<AddressBalance>>) returns (keys: seq<string>)
    ensures Ordered(keys)
    ensures forall k :: k in keys <==> k in sums || k in liabilities || k in actuals
  {
    var left := sums.Keys + liabilities.Keys + actuals.Keys;
    ghost var all := left;
    keys := [];
    while left != {}
      invariant Ordered(keys) && left <= all
      invariant forall k :: k in keys <==> k in all - left
      decreases |left|
    {
      var k :| k in left;
      keys := Insert(keys, k);
      left := left - {k};
    }
  }

  // ---------------------------------------------------------------- the report

  function OnChain(addresses: seq<AddressBalance>): int {
    if addresses == [] then 0
    else
      var last := addresses[|addresses| - 1].actual;
      OnChain(addresses[..|addresses| - 1]) + if last.Some? then last.value else 0
  }

  function Expected(sums: map<string, AssetSums>, asset: string): int {
    if asset in sums then sums[asset].finalized + sums[asset].confirmed else 0
  }

  /** What a row says about its asset. */
  ghost predicate Tells(row: AssetRow, sums: map<string, AssetSums>, liabilities: map<string, int64>,
                        actuals: map<string, seq<AddressBalance>>) {
    && row.addresses == (if row.asset in actuals then actuals[row.asset] else [])
    && row.onChain == OnChain(row.addresses)
    && row.finalized == (if row.asset in sums then sums[row.asset].finalized else 0)
    && row.confirmed == (if row.asset in sums then sums[row.asset].confirmed else 0)
    && row.discrepancy == row.onChain - Expected(sums, row.asset)
    && row.liabilities == (if row.asset in liabilities then liabilities[row.asset] else 0)
    && (row.verdict == OK <==> row.onChain >= row.liabilities)
  }

  predicate Reconciled(row: AssetRow) { row.discrepancy == 0 && row.verdict == OK }

  method SumAddresses(addresses: seq<AddressBalance>) returns (actual: int)
    ensures actual == OnChain(addresses)
  {
    actual := 0;
    for i := 0 to |addresses|
      invariant actual == OnChain(addresses[..i])
    {
      if addresses[i].actual.Some? { actual := actual + addresses[i].actual.value; }
      assert addresses[..i + 1][..i] == addresses[..i];
    }
    assert addresses[..|addresses|] == addresses;
  }

  /** BuildReport */
  method BuildReport(sums: map<string, AssetSums>, liabilities: map<string, int64>,
                     actuals: map<string, seq<AddressBalance>>) returns (r: Report)
    ensures Ordered(seq(|r.assets|, i requires 0 <= i < |r.assets| => r.assets[i].asset))
    ensures forall asset :: asset in sums || asset in liabilities || asset in actuals <==>
        exists i :: 0 <= i < |r.assets| && r.assets[i].asset == asset
    ensures forall i :: 0 <= i < |r.assets| ==> Tells(r.assets[i], sums, liabilities, actuals)
    ensures r.clean <==> forall i :: 0 <= i < |r.assets| ==> Reconciled(r.assets[i])
  {
    var keys := UnionKeys(sums, liabilities, actuals);
    r := Report([], true);
    for i := 0 to |keys|
      invariant |r.assets| == i && forall k :: 0 <= k < i ==> r.assets[k].asset == keys[k]
      invariant forall k :: 0 <= k < i ==> Tells(r.assets[k], sums, liabilities, actuals)
      invariant r.clean <==> forall k :: 0 <= k < i ==> Reconciled(r.assets[k])
    {
      var row := Row(keys[i], sums, liabilities, actuals);
      ghost var before := r.assets;
      var clean := r.clean;
      if row.discrepancy != 0 || row.verdict != OK { clean := false; }
      r := Report(r.assets + [row], clean);
      assert r.assets[i] == row && forall k :: 0 <= k < i ==> r.assets[k] == before[k];
    }
    assert seq(|r.assets|, i requires 0 <= i < |r.assets| => r.assets[i].asset) == keys;
    forall asset ensures asset in keys <==> exists i :: 0 <= i < |r.assets| && r.assets[i].asset == asset {
      if asset in keys { var i :| 0 <= i < |keys| && keys[i] == asset; assert r.assets[i].asset == asset; }
    }
  }

  method Row(asset: string, sums: map<string, AssetSums>, liabilities: map<string, int64>,
             actuals: map<string, seq<AddressBalance>>) returns (row: AssetRow)
    ensures row.asset == asset && Tells(row, sums, liabilities, actuals)
  {
    var s := if asset in sums then sums[asset] else AssetSums(0, 0);
    var liab := if asset in liabilities then liabilities[asset] else 0;
    var addresses := if asset in actuals then actuals[asset] else [];
    var actual := SumAddresses(addresses);
    var expected := s.finalized + s.confirmed;
    var verdict := OK;
    if actual < liab { verdict := Undercollateralized; }
    row := AssetRow(asset, addresses, s.finalized, s.confirmed, actual, actual - expected, liab, verdict);
  }
}
