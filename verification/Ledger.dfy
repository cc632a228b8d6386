/** The double-entry ledger: the checks a posting passes and the balances it leaves. */
module Ledger {
  import opened Base

  datatype Direction = Debit | Credit | Unknown(text: string)
  datatype Line = Line(account: AccountId, direction: Direction, amount: int64)
  datatype Account = Account(name: string, kind: string, asset: string, active: bool)

  /** The external references the source renders as text. Their text is injective: a UUID has a fixed length. */
  datatype Ref =
    | Text(text: string)
    | PaymentRef(payment: PaymentId)
    | ReversalRef(payment: PaymentId)
    | SettleRef(payment: PaymentId, block: Option<Hash>)
    | ReverseRef(payment: PaymentId, block: Option<Hash>)

  datatype Entry = Entry(kind: string, ref: Ref, asset: string, lines: seq<Line>)

  /** The kind of the entry that undoes a payment. */
  const REVERSAL := "payment.reversal"

  datatype Verdict = Posted | Invalid | Unbalanced | Insufficient | Duplicate | StorageError

  // ---------------------------------------------------------------- sums over lines

  function Signed(l: Line): int {
    var amount: int := l.amount;
    match l.direction
    case Credit => amount
    case Debit => -amount
    case Unknown(_) => 0
  }

  /** Total amount of the lines on one side. */
  function Side(lines: seq<Line>, d: Direction): int {
    if lines == [] then 0
    else
      var l := lines[|lines| - 1];
      Side(lines[..|lines| - 1], d) + if l.direction == d then l.amount else 0
  }

  /** What the lines do to the accounts of `s` together: a credit raises, a debit lowers. */
  function LinesOn(lines: seq<Line>, s: set<AccountId>): int {
    if lines == [] then 0
    else
      var l := lines[|lines| - 1];
      LinesOn(lines[..|lines| - 1], s) + if l.account in s then Signed(l) else 0
  }

  function Net(lines: seq<Line>, a: AccountId): int { LinesOn(lines, {a}) }

  /** The derived total of the accounts of `s`: no balance is ever stored. */
  function Total(journal: seq<Entry>, s: set<AccountId>): int {
    if journal == [] then 0
    else Total(journal[..|journal| - 1], s) + LinesOn(journal[|journal| - 1].lines, s)
  }

  function Balance(journal: seq<Entry>, a: AccountId): int { Total(journal, {a}) }

  function Touched(lines: seq<Line>): set<AccountId> { set l | l in lines :: l.account }

  predicate HasKey(journal: seq<Entry>, kind: string, ref: Ref) {
    exists i :: 0 <= i < |journal| && journal[i].kind == kind && journal[i].ref == ref
  }

  // ---------------------------------------------------------------- Balanced

  predicate WellFormed(lines: seq<Line>) {
    && lines != []
    && forall l | l in lines :: l.amount > 0 && !l.direction.Unknown?
  }

  /** No overflow can hide a lopsided posting when both sides stay inside int64. */
  predicate TotalsFit(lines: seq<Line>) {
    Side(lines, Debit) < TWO_63 && Side(lines, Credit) < TWO_63
  }

  function BalanceVerdict(lines: seq<Line>): Verdict {
    if !WellFormed(lines) then Invalid
    else if Wrap64(Side(lines, Debit)) != Wrap64(Side(lines, Credit)) then Unbalanced
    else Posted
  }

  lemma SideAppend(lines: seq<Line>, l: Line, d: Direction)
    ensures Side(lines + [l], d) == Side(lines, d) + if l.direction == d then l.amount else 0
  {
    assert (lines + [l])[..|lines|] == lines;
  }

  /** One more line on the accumulator of one side. */
  lemma OneMoreLine(lines: seq<Line>, i: nat, d: Direction)
    requires i < |lines|
    ensures Wrap64(Side(lines[..i + 1], d)) ==
        if lines[i].direction == d then Wrap64(Wrap64(Side(lines[..i], d)) + lines[i].amount)
        else Wrap64(Side(lines[..i], d))
  {
    assert lines[..i + 1] == lines[..i] + [lines[i]];
    SideAppend(lines[..i], lines[i], d);
    WrapAdd(Side(lines[..i], d), lines[i].amount);
  }

  /** The two int64 accumulators wrap, so acceptance is equality of the sides modulo 2^64. */
  method Balanced(lines: seq<Line>) returns (v: Verdict)
    ensures v == Invalid <==> !WellFormed(lines)
    ensures v == Posted <==> WellFormed(lines) && (Side(lines, Debit) - Side(lines, Credit)) % TWO_64 == 0
    ensures v == BalanceVerdict(lines)
  {
    if |lines| == 0 { return Invalid; }
    var debits: int64, credits: int64 := 0, 0;
    for i := 0 to |lines|
      invariant forall l | l in lines[..i] :: l.amount > 0 && !l.direction.Unknown?
      invariant debits == Wrap64(Side(lines[..i], Debit))
      invariant credits == Wrap64(Side(lines[..i], Credit))
    {
      var l := lines[i];
      assert l in lines;
      assert lines[..i + 1] == lines[..i] + [l];
      OneMoreLine(lines, i, Debit);
      OneMoreLine(lines, i, Credit);
      if l.amount <= 0 { return Invalid; }
      match l.direction {
        case Debit => debits := Wrap64(debits + l.amount);
        case Credit => credits := Wrap64(credits + l.amount);
        case Unknown(_) => return Invalid;
      }
    }
    assert lines[..|lines|] == lines;
    WrapUnique(Side(lines, Debit), Side(lines, Credit));
    v := if debits != credits then Unbalanced else Posted;
  }

  lemma {:induction false} SideNonNegative(lines: seq<Line>, d: Direction)
    requires forall l | l in lines :: l.amount > 0
    ensures Side(lines, d) >= 0
  {
    if lines != [] { SideNonNegative(lines[..|lines| - 1], d); }
  }

  /** While the totals fit, the check accepts exactly the postings whose debits equal their credits. */
  lemma BalancedExactWhenTotalsFit(lines: seq<Line>)
    requires WellFormed(lines) && TotalsFit(lines)
    ensures BalanceVerdict(lines) == Posted <==> Side(lines, Debit) == Side(lines, Credit)
  {
    SideNonNegative(lines, Debit);
    SideNonNegative(lines, Credit);
  }

  /** Beyond that, three debits that sum to 2^64 + 1 pass against a single credit of one. */
  lemma BalancedOverflow() returns (lines: seq<Line>)
    ensures WellFormed(lines) && BalanceVerdict(lines) == Posted
    ensures Side(lines, Debit) == TWO_64 + 1 && Side(lines, Credit) == 1
  {
    var big: int64 := TWO_63 - 1;
    var l0, l1, l2, l3 := Line(1, Debit, big), Line(1, Debit, big), Line(1, Debit, 3), Line(2, Credit, 1);
    lines := [l0, l1, l2, l3];
    assert lines == [] + [l0] + [l1] + [l2] + [l3];
    forall d ensures Side(lines, d) == Side([], d) + (if d == Debit then TWO_64 + 1 else if d == Credit then 1 else 0) {
      SideAppend([], l0, d);
      SideAppend([] + [l0], l1, d);
      SideAppend([] + [l0] + [l1], l2, d);
      SideAppend([] + [l0] + [l1] + [l2], l3, d);
    }
    WrapUnique(TWO_64 + 1, 1);
  }

  // ---------------------------------------------------------------- ApplyToBalances

  function Lookup(cur: map<AccountId, int64>, a: AccountId): int64 { if a in cur then cur[a] else 0 }

  datatype Projection = Projected(balances: map<AccountId, int64>) | Rejected(verdict: Verdict)

  /** The map holds, for every account of `cur` and of the lines, the wrapped sum of its balance and its lines. */
  ghost predicate Projects(cur: map<AccountId, int64>, lines: seq<Line>, next: map<AccountId, int64>) {
    && next.Keys == cur.Keys + Touched(lines)
    && forall a | a in next :: next[a] == Wrap64(Lookup(cur, a) + Net(lines, a))
  }

  lemma TouchedAppend(lines: seq<Line>, l: Line)
    ensures Touched(lines + [l]) == Touched(lines) + {l.account}
  {
    assert forall m :: m in lines + [l] <==> m in lines || m == l;
  }

  lemma NetAppend(lines: seq<Line>, l: Line, a: AccountId)
    ensures Net(lines + [l], a) == Net(lines, a) + if a == l.account then Signed(l) else 0
  {
    assert (lines + [l])[..|lines|] == lines;
  }

  /** Applying one more line with int64 arithmetic extends the projection by that line. */
  lemma ProjectOne(cur: map<AccountId, int64>, lines: seq<Line>, next: map<AccountId, int64>, l: Line)
    requires Projects(cur, lines, next)
    ensures Projects(cur, lines + [l], next[l.account := Wrap64(Lookup(next, l.account) + Signed(l))])
  {
    var v := Wrap64(Lookup(next, l.account) + Signed(l));
    var next' := next[l.account := v];
    assert next'.Keys == cur.Keys + Touched(lines + [l]) by { TouchedAppend(lines, l); }
    forall a | a in next' ensures next'[a] == Wrap64(Lookup(cur, a) + Net(lines + [l], a)) {
      NetAppend(lines, l, a);
      if a == l.account { ProjectTouched(cur, lines, next, l); }
    }
  }

  lemma ProjectTouched(cur: map<AccountId, int64>, lines: seq<Line>, next: map<AccountId, int64>, l: Line)
    requires Projects(cur, lines, next)
    ensures Wrap64(Lookup(next, l.account) + Signed(l)) == Wrap64(Lookup(cur, l.account) + Net(lines + [l], l.account))
  {
    var a := l.account;
    NetAppend(lines, l, a);
    UntouchedNet(lines, a);
    WrapAdd(Lookup(cur, a) + Net(lines, a), Signed(l));
    assert Lookup(next, a) == Wrap64(Lookup(cur, a) + Net(lines, a));
  }

  /** Projects the lines onto a copy of `cur`; an unknown direction or a negative result rejects the posting. */
  method ApplyToBalances(cur: map<AccountId, int64>, lines: seq<Line>) returns (r: Projection)
    ensures r == Rejected(Invalid) <==> exists l :: l in lines && l.direction.Unknown?
    ensures r.Projected? ==> Projects(cur, lines, r.balances) && forall a | a in r.balances :: r.balances[a] >= 0
    ensures r.Rejected? ==> r.verdict in {Invalid, Insufficient}
    ensures r == Rejected(Insufficient) ==>
      exists a | a in cur.Keys + Touched(lines) :: Wrap64(Lookup(cur, a) + Net(lines, a)) < 0
  {
    var next: map<AccountId, int64> := cur;
    for i := 0 to |lines|
      invariant Projects(cur, lines[..i], next)
      invariant forall l | l in lines[..i] :: !l.direction.Unknown?
    {
      var l := lines[i];
      assert lines[..i + 1] == lines[..i] + [l];
      if l.direction.Unknown? {
        assert l in lines;
        return Rejected(Invalid);
      }
      ProjectOne(cur, lines[..i], next, l);
      next := next[l.account := Wrap64(Lookup(next, l.account) + Signed(l))];
    }
    assert lines[..|lines|] == lines;
    if a :| a in next && next[a] < 0 {
      return Rejected(Insufficient);
    }
    r := Projected(next);
  }

  /** Lines that name no account of `s` leave their total alone. */
  lemma {:induction false} UntouchedLines(lines: seq<Line>, s: set<AccountId>)
    requires Touched(lines) !! s
    ensures LinesOn(lines, s) == 0
  {
    if lines != [] {
      var l := lines[|lines| - 1];
      assert l in lines;
      assert Touched(lines[..|lines| - 1]) <= Touched(lines);
      UntouchedLines(lines[..|lines| - 1], s);
    }
  }

  lemma UntouchedNet(lines: seq<Line>, a: AccountId)
    ensures a !in Touched(lines) ==> Net(lines, a) == 0
  {
    if a !in Touched(lines) { UntouchedLines(lines, {a}); }
  }

  // ---------------------------------------------------------------- accountIDs

  ghost predicate StrictlySorted(ids: seq<AccountId>) {
    forall i, j :: 0 <= i < j < |ids| ==> ids[i] < ids[j]
  }

  /** The lock set: every touched account once, in ascending order. */
  method AccountIds(lines: seq<Line>) returns (ids: seq<AccountId>)
    ensures StrictlySorted(ids)
    ensures (set id | id in ids) == Touched(lines)
  {
    var seen: set<AccountId> := {};
    ids := [];
    for i := 0 to |lines|
      invariant seen == Touched(lines[..i]) == set id | id in ids
      invariant StrictlySorted(ids)
    {
      var l := lines[i];
      assert lines[..i + 1] == lines[..i] + [l];
      if l.account !in seen {
        seen := seen + {l.account};
        ids := InsertSorted(ids, l.account);
      }
    }
    assert lines[..|lines|] == lines;
  }

  method InsertSorted(ids: seq<AccountId>, x: AccountId) returns (r: seq<AccountId>)
    requires StrictlySorted(ids) && x !in ids
    ensures StrictlySorted(r)
    ensures forall y :: y in r <==> y in ids || y == x
  {
    var k := 0;
    while k < |ids| && ids[k] < x
      invariant 0 <= k <= |ids|
      invariant forall i :: 0 <= i < k ==> ids[i] < x
    {
      k := k + 1;
    }
    r := ids[..k] + [x] + ids[k..];
    forall y | y in ids ensures y in r {
      var i :| 0 <= i < |ids| && ids[i] == y;
      assert r[if i < k then i else i + 1] == y;
    }
    assert r[k] == x;
  }

  // ---------------------------------------------------------------- posting

  function Validate(e: Entry): Verdict {
    if e.kind == "" || e.asset == "" || e.ref == Text("") then Invalid else BalanceVerdict(e.lines)
  }

  predicate AccountsOk(accounts: map<AccountId, Account>, ids: set<AccountId>, asset: string) {
    forall id | id in ids :: id in accounts && accounts[id].active && accounts[id].asset == asset
  }

  predicate BalancesFit(journal: seq<Entry>, ids: set<AccountId>) {
    forall a | a in ids :: -TWO_63 <= Balance(journal, a) < TWO_63
  }

  predicate Covered(journal: seq<Entry>, lines: seq<Line>) {
    forall a | a in Touched(lines) :: Wrap64(Balance(journal, a) + Net(lines, a)) >= 0
  }

  /** The outcome of one posting that runs alone: the checks in the source's order. */
  function Posting(accounts: map<AccountId, Account>, journal: seq<Entry>, e: Entry): Verdict {
    var v := Validate(e);
    if v != Posted then v
    else if !AccountsOk(accounts, Touched(e.lines), e.asset) then Invalid
    else if !BalancesFit(journal, Touched(e.lines)) then StorageError
    else if !Covered(journal, e.lines) then Insufficient
    else if HasKey(journal, e.kind, e.ref) then Duplicate
    else Posted
  }

  // ---------------------------------------------------------------- what every posting keeps

  /** Every derived balance is a non-negative int64. */
  ghost predicate Solvent(journal: seq<Entry>) {
    forall a: AccountId :: 0 <= Balance(journal, a) < TWO_63
  }

  ghost predicate UniqueKeys(journal: seq<Entry>) {
    forall i, j :: 0 <= i < j < |journal| ==> journal[i].kind != journal[j].kind || journal[i].ref != journal[j].ref
  }

  /** An account's net is bounded by the sides of the posting, so wrapping cannot disguise a deficit. */
  lemma {:induction false} NetBounds(lines: seq<Line>, a: AccountId)
    requires forall l | l in lines :: l.amount > 0
    ensures -Side(lines, Debit) <= Net(lines, a) <= Side(lines, Credit)
  {
    if lines != [] { NetBounds(lines[..|lines| - 1], a); }
  }

  lemma {:induction false} LinesOnAll(lines: seq<Line>, s: set<AccountId>)
    requires Touched(lines) <= s
    requires forall l | l in lines :: !l.direction.Unknown?
    ensures LinesOn(lines, s) == Side(lines, Credit) - Side(lines, Debit)
  {
    if lines != [] {
      var l := lines[|lines| - 1];
      assert l in lines;
      assert Touched(lines[..|lines| - 1]) <= Touched(lines);
      LinesOnAll(lines[..|lines| - 1], s);
    }
  }

  function AccountsOf(accounts: map<AccountId, Account>, asset: string): set<AccountId> {
    set a | a in accounts && accounts[a].asset == asset
  }

  lemma AppendTotal(journal: seq<Entry>, e: Entry, s: set<AccountId>)
    ensures Total(journal + [e], s) == Total(journal, s) + LinesOn(e.lines, s)
  {
    assert (journal + [e])[..|journal|] == journal;
  }

  lemma AppendBalance(journal: seq<Entry>, e: Entry, a: AccountId)
    ensures Balance(journal + [e], a) == Balance(journal, a) + Net(e.lines, a)
  {
    AppendTotal(journal, e, {a});
  }

  /** An accepted posting keeps every account solvent, every asset's total and every key's uniqueness. */
  lemma PostingKeeps(accounts: map<AccountId, Account>, journal: seq<Entry>, e: Entry)
    requires Posting(accounts, journal, e) == Posted && TotalsFit(e.lines)
    requires Solvent(journal) && UniqueKeys(journal)
    ensures Solvent(journal + [e]) && UniqueKeys(journal + [e])
    ensures Side(e.lines, Debit) == Side(e.lines, Credit)
    ensures forall asset ::
        Total(journal + [e], AccountsOf(accounts, asset)) == Total(journal, AccountsOf(accounts, asset))
  {
    BalancedExactWhenTotalsFit(e.lines);
    forall a: AccountId ensures 0 <= Balance(journal + [e], a) < TWO_63 {
      AppendBalance(journal, e, a);
      NetBounds(e.lines, a);
      UntouchedNet(e.lines, a);
    }
    forall asset
      ensures Total(journal + [e], AccountsOf(accounts, asset)) == Total(journal, AccountsOf(accounts, asset)) {
      AppendTotal(journal, e, AccountsOf(accounts, asset));
      if asset == e.asset {
        LinesOnAll(e.lines, AccountsOf(accounts, asset));
      } else {
        UntouchedLines(e.lines, AccountsOf(accounts, asset));
      }
    }
  }

  // What each verdict means, line by line, on a solvent ledger.

  ghost predicate FieldsGiven(e: Entry) { e.kind != "" && e.asset != "" && e.ref != Text("") }

  ghost predicate LinesGiven(e: Entry) {
    |e.lines| > 0 && forall l | l in e.lines :: l.amount > 0 && (l.direction == Debit || l.direction == Credit)
  }

  /** Every line is on an account that exists, is active and holds the entry's asset. */
  ghost predicate AccountsServe(accounts: map<AccountId, Account>, e: Entry) {
    forall l | l in e.lines ::
      l.account in accounts && accounts[l.account].active && accounts[l.account].asset == e.asset
  }

  ghost predicate FundsSuffice(journal: seq<Entry>, e: Entry) {
    forall l | l in e.lines :: 0 <= Balance(journal, l.account) + Net(e.lines, l.account) < TWO_63
  }

  ghost predicate KeyIsNew(journal: seq<Entry>, e: Entry) {
    forall i :: 0 <= i < |journal| ==> journal[i].kind != e.kind || journal[i].ref != e.ref
  }

  /** A posting is accepted if and only if all of these hold, and refused for the first that does not. */
  lemma VerdictExactly(accounts: map<AccountId, Account>, journal: seq<Entry>, e: Entry)
    requires Solvent(journal) && TotalsFit(e.lines)
    ensures var v := Posting(accounts, journal, e);
      var given := FieldsGiven(e) && LinesGiven(e);
      var balanced := given && Side(e.lines, Debit) == Side(e.lines, Credit);
      var served := balanced && AccountsServe(accounts, e);
      var funded := served && FundsSuffice(journal, e);
      && (v == Invalid <==> !given || (balanced && !served))
      && (v == Unbalanced <==> given && !balanced)
      && (v == Insufficient <==> served && !funded)
      && (v == Duplicate <==> funded && !KeyIsNew(journal, e))
      && (v == Posted <==> funded && KeyIsNew(journal, e))
      && v != StorageError
  {
    assert WellFormed(e.lines) <==> LinesGiven(e);
    if LinesGiven(e) {
      BalancedExactWhenTotalsFit(e.lines);
      CoveredExact(journal, e.lines);
      LinesTouch(accounts, journal, e);
    }
  }

  lemma LinesTouch(accounts: map<AccountId, Account>, journal: seq<Entry>, e: Entry)
    ensures AccountsOk(accounts, Touched(e.lines), e.asset) <==> AccountsServe(accounts, e)
    ensures FundsSuffice(journal, e) <==>
            forall a | a in Touched(e.lines) :: 0 <= Balance(journal, a) + Net(e.lines, a) < TWO_63
  {
    assert forall l | l in e.lines :: l.account in Touched(e.lines);
  }

  /** On a solvent ledger a posting is refused for funds exactly when some balance would leave [0, 2^63). */
  lemma CoveredExact(journal: seq<Entry>, lines: seq<Line>)
    requires Solvent(journal) && WellFormed(lines) && TotalsFit(lines)
    ensures Covered(journal, lines) <==>
            forall a | a in Touched(lines) :: 0 <= Balance(journal, a) + Net(lines, a) < TWO_63
  {
    forall a | a in Touched(lines)
      ensures Wrap64(Balance(journal, a) + Net(lines, a)) >= 0 <==> 0 <= Balance(journal, a) + Net(lines, a) < TWO_63
    {
      NetBounds(lines, a);
    }
  }

  /** Solvency adds up: any group of accounts of a solvent ledger has a non-negative total. */
  lemma {:induction false} SolventTotal(journal: seq<Entry>, s: set<AccountId>)
    requires Solvent(journal)
    ensures Total(journal, s) >= 0
  {
    if s == {} {
      EmptyTotal(journal);
    } else {
      var a :| a in s;
      SplitTotal(journal, {a}, s - {a});
      assert {a} + (s - {a}) == s;
      SolventTotal(journal, s - {a});
      assert Balance(journal, a) >= 0;
    }
  }

  lemma {:induction false} EmptyTotal(journal: seq<Entry>)
    ensures Total(journal, {}) == 0
  {
    if journal != [] {
      EmptyTotal(journal[..|journal| - 1]);
      UntouchedLines(journal[|journal| - 1].lines, {});
    }
  }

  lemma {:induction false} SplitLines(lines: seq<Line>, s: set<AccountId>, t: set<AccountId>)
    requires s !! t
    ensures LinesOn(lines, s + t) == LinesOn(lines, s) + LinesOn(lines, t)
  {
    if lines != [] { SplitLines(lines[..|lines| - 1], s, t); }
  }

  /** The total of two disjoint groups is the sum of their totals. */
  lemma {:induction false} SplitTotal(journal: seq<Entry>, s: set<AccountId>, t: set<AccountId>)
    requires s !! t
    ensures Total(journal, s + t) == Total(journal, s) + Total(journal, t)
  {
    if journal != [] {
      SplitTotal(journal[..|journal| - 1], s, t);
      SplitLines(journal[|journal| - 1].lines, s, t);
    }
  }
}
