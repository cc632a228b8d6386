/**
 * What each operation on the money does, and when it is accepted, in the terms of its callers: the entry it posts, line
 * by line, the accounts and balances it needs, the row and the event it leaves.
 */
module Effects {
  import opened Base
  import opened Ledger
  import opened Store
  import opened Settlement
  import opened Money
  import W = Watcher

  // ---------------------------------------------------------------- one transfer

  ghost predicate Serves(accounts: map<AccountId, Account>, a: AccountId, asset: string) {
    a in accounts && accounts[a].active && accounts[a].asset == asset
  }

  ghost predicate Unused(journal: seq<Entry>, kind: string, ref: Ref) {
    forall i :: 0 <= i < |journal| ==> journal[i].kind != kind || journal[i].ref != ref
  }

  /** The amount can go from one account to the other: both serve, the first holds it and the second has room for it. */
  ghost predicate Movable(db: Db, asset: string, from: AccountId, to: AccountId, amount: int64) {
    && asset != "" && amount > 0 && Serves(db.accounts, from, asset) && Serves(db.accounts, to, asset)
    && (from != to ==> Balance(db.journal, from) >= amount && Balance(db.journal, to) + amount < TWO_63)
  }

  lemma TwoSides(from: AccountId, to: AccountId, amount: int64)
    ensures var lines := [Line(from, Debit, amount), Line(to, Credit, amount)];
      Side(lines, Debit) == amount && Side(lines, Credit) == amount
  {
    var l0, l1 := Line(from, Debit, amount), Line(to, Credit, amount);
    assert [l0, l1][..1] == [l0] && [l0][..0] == [];
    assert Side([l0], Debit) == amount && Side([l0], Credit) == 0;
  }

  lemma TransferAcceptedIff(db: Db, kind: string, ref: Ref, asset: string, from: AccountId, to: AccountId,
                            amount: int64)
    requires Solvent(db.journal) && kind != "" && ref != Text("")
    ensures var e := Entry(kind, ref, asset, [Line(from, Debit, amount), Line(to, Credit, amount)]);
      Posting(db.accounts, db.journal, e) == Posted <==>
        Movable(db, asset, from, to, amount) && Unused(db.journal, kind, ref)
  {
    var l0, l1 := Line(from, Debit, amount), Line(to, Credit, amount);
    var e := Entry(kind, ref, asset, [l0, l1]);
    TransferLines(from, to, amount);
    TwoSides(from, to, amount);
    VerdictExactly(db.accounts, db.journal, e);
    assert l0 in e.lines && l1 in e.lines && forall l | l in e.lines :: l == l0 || l == l1;
    assert 0 <= Balance(db.journal, from) < TWO_63 && 0 <= Balance(db.journal, to) < TWO_63;
  }

  /** The transfer lowers one balance and raises the other by the amount, and leaves every other alone. */
  lemma TransferMoves(journal: seq<Entry>, e: Entry, from: AccountId, to: AccountId, amount: int64, a: AccountId)
    requires e.lines == [Line(from, Debit, amount), Line(to, Credit, amount)]
    ensures Balance(journal + [e], a) ==
            Balance(journal, a) - (if a == from then amount else 0) + (if a == to then amount else 0)
  {
    TransferLines(from, to, amount);
    AppendBalance(journal, e, a);
  }

  // ---------------------------------------------------------------- payments

  /** A payment is created if and only if its amount can move from source to destination, and then it has. */
  lemma CreateExactly(db: Db, id: PaymentId, p: Payment)
    requires Solvent(db.journal) && !p.canceled
    ensures var lines := [Line(p.source, Debit, p.amount), Line(p.dest, Credit, p.amount)];
      var e := Entry("payment", PaymentRef(id), p.asset, lines);
      var movable := Movable(db, p.asset, p.source, p.dest, p.amount);
      CreatePayment(db, id, p) ==
        if id !in db.payments && movable && Unused(db.journal, "payment", PaymentRef(id))
        then Some(db.(journal := db.journal + [e], payments := db.payments[id := p],
                      outbox := db.outbox + [PaymentCreated(id)], audit := db.audit + [PaymentCreated(id)]))
        else None
  {
    TransferAcceptedIff(db, "payment", PaymentRef(id), p.asset, p.source, p.dest, p.amount);
  }

  /** It is canceled if and only if it is not yet, and the amount can move back, and then it has. */
  lemma CancelExactly(db: Db, id: PaymentId)
    requires Solvent(db.journal) && id in db.payments
    ensures var p := db.payments[id];
      var lines := [Line(p.dest, Debit, p.amount), Line(p.source, Credit, p.amount)];
      var e := Entry("payment.reversal", ReversalRef(id), p.asset, lines);
      var movable := Movable(db, p.asset, p.dest, p.source, p.amount);
      CancelPayment(db, id) ==
        if !p.canceled && movable && Unused(db.journal, "payment.reversal", ReversalRef(id))
        then Some(db.(journal := db.journal + [e], payments := db.payments[id := p.(canceled := true)],
                      outbox := db.outbox + [PaymentCanceled(id)], audit := db.audit + [PaymentCanceled(id)]))
        else None
  {
    var p := db.payments[id];
    TransferAcceptedIff(db, "payment.reversal", ReversalRef(id), p.asset, p.dest, p.source, p.amount);
  }

  /** Cancelling undoes what creating did, on every account, whatever was posted in between. */
  lemma CancelUndoesCreate(db: Db, id: PaymentId, p: Payment, later: Db, a: AccountId)
    requires Solvent(db.journal) && !p.canceled && CreatePayment(db, id, p).Some?
    requires Solvent(later.journal) && id in later.payments && later.payments[id] == p && CancelPayment(later, id).Some?
    ensures Balance(CancelPayment(later, id).value.journal, a) - Balance(later.journal, a) ==
            Balance(db.journal, a) - Balance(CreatePayment(db, id, p).value.journal, a)
  {
    CreateExactly(db, id, p);
    CancelExactly(later, id);
    var created, canceled := CreatePayment(db, id, p).value.journal, CancelPayment(later, id).value.journal;
    var e, u := created[|db.journal|], canceled[|later.journal|];
    TransferMoves(db.journal, e, p.source, p.dest, p.amount, a);
    TransferMoves(later.journal, u, p.dest, p.source, p.amount, a);
  }

  lemma CancelUnknown(db: Db, id: PaymentId)
    requires id !in db.payments
    ensures CancelPayment(db, id).None?
  {}

  // ---------------------------------------------------------------- deliveries

  /** The row that a transaction hash names. */
  ghost predicate Names(db: Db, i: nat, st: Status) {
    i < |db.rows| && db.rows[i].tx == st.tx && forall j :: 0 <= j < |db.rows| && j != i ==> db.rows[j].tx != st.tx
  }

  ghost predicate Resolved(db: Db, i: nat)
    requires i < |db.rows|
  {
    db.rows[i].payment in db.payments && db.payments[db.rows[i].payment].asset in db.houses
  }

  /** The entry a delivery posts for row i, written out. */
  function Posts(db: Db, i: nat, kind: string, ref: Ref, back: bool): Entry
    requires i < |db.rows| && db.rows[i].payment in db.payments && db.payments[db.rows[i].payment].asset in db.houses
  {
    var pay := db.payments[db.rows[i].payment];
    var house := db.houses[pay.asset];
    Entry(kind, ref, pay.asset,
          if back then [Line(house, Debit, pay.amount), Line(pay.dest, Credit, pay.amount)]
          else [Line(pay.dest, Debit, pay.amount), Line(house, Credit, pay.amount)])
  }

  lemma NamesIsFind(db: Db, i: nat, st: Status)
    requires Names(db, i, st)
    ensures Find(db.rows, st.tx) == Some(i)
  {}

  /**
   * A Reorged on a settled row takes effect if and only if the payment was not reversed at that block before, the house
   * holds the amount and the destination has room for it. On any other row it does nothing.
   */
  lemma ReorgedExactly(db: Db, i: nat, st: Status)
    requires Solvent(db.journal) && Names(db, i, st) && Resolved(db, i) && st.phase == W.Reorged
    ensures var row := db.rows[i];
      var pay := db.payments[row.payment];
      var ref := ReverseRef(row.payment, st.block);
      var movable := Movable(db, pay.asset, db.houses[pay.asset], pay.dest, pay.amount);
      Handle(db, st) ==
        if row.status != RowSettled then Some(db)
        else if movable && Unused(db.journal, "settlement.reversal", ref)
        then Some(db.(journal := db.journal + [Posts(db, i, "settlement.reversal", ref, true)],
                      rows := db.rows[i := row.(status := RowReorged, anchor := None)],
                      outbox := db.outbox + [SettlementReorged(st.tx, row.payment)],
                      audit := db.audit + [SettlementReorged(st.tx, row.payment)]))
        else None
  {
    NamesIsFind(db, i, st);
    var row := db.rows[i];
    var pay := db.payments[row.payment];
    var ref := ReverseRef(row.payment, st.block);
    TransferAcceptedIff(db, "settlement.reversal", ref, pay.asset, db.houses[pay.asset], pay.dest, pay.amount);
  }

  /**
   * A Confirmed on a pending or reorged row takes effect if and only if the payment was not settled at that block
   * before, the destination holds the amount and the house has room for it. On a settled row it does nothing; on a
   * finalized row it posts, if it can, and leaves the row.
   */
  lemma ConfirmedExactly(db: Db, i: nat, st: Status)
    requires Solvent(db.journal) && Names(db, i, st) && Resolved(db, i) && st.phase == W.Confirmed
    ensures var row := db.rows[i];
      var pay := db.payments[row.payment];
      var ref := SettleRef(row.payment, st.block);
      var posted := db.(journal := db.journal + [Posts(db, i, "settlement.settle", ref, false)]);
      var anchor := Anchor(st.block, st.number);
      var settled := row.(status := RowSettled, settleEntry := Some(|db.journal|), anchor := Some(anchor));
      var movable := Movable(db, pay.asset, pay.dest, db.houses[pay.asset], pay.amount);
      Handle(db, st) ==
        if row.status == RowSettled then Some(db)
        else if !movable || !Unused(db.journal, "settlement.settle", ref) then None
        else if row.status == RowFinalized then Some(posted)
        else Some(posted.(rows := db.rows[i := settled],
                          outbox := db.outbox + [SettlementConfirmed(st.tx, row.payment)],
                          audit := db.audit + [SettlementConfirmed(st.tx, row.payment)]))
  {
    NamesIsFind(db, i, st);
    var row := db.rows[i];
    var pay := db.payments[row.payment];
    var ref := SettleRef(row.payment, st.block);
    TransferAcceptedIff(db, "settlement.settle", ref, pay.asset, pay.dest, db.houses[pay.asset], pay.amount);
  }

  /** A Finalized moves a settled row to finalized and posts nothing; on any other row it does nothing. */
  lemma FinalizedExactly(db: Db, i: nat, st: Status)
    requires Names(db, i, st) && st.phase == W.Finalized
    ensures var row := db.rows[i];
      Handle(db, st) ==
        if row.status != RowSettled then Some(db)
        else Some(db.(rows := db.rows[i := row.(status := RowFinalized)],
                      outbox := db.outbox + [SettlementFinalized(st.tx, row.payment)],
                      audit := db.audit + [SettlementFinalized(st.tx, row.payment)]))
  {
    NamesIsFind(db, i, st);
  }

  /**
   * A status of a transaction that is not linked, or one that carries no effect, does nothing; a link that leads
   * nowhere fails.
   */
  lemma OthersExactly(db: Db, st: Status)
    ensures (forall i :: 0 <= i < |db.rows| ==> db.rows[i].tx != st.tx) ==> Handle(db, st) == Some(db)
    ensures st.phase == W.Pending || st.phase == W.Mined ==> Handle(db, st) == Some(db)
    ensures st.phase == W.Confirmed || st.phase == W.Reorged ==>
      forall i: nat :: Names(db, i, st) && !Resolved(db, i) ==> Handle(db, st).None?
  {
    forall i: nat | Names(db, i, st) ensures Find(db.rows, st.tx) == Some(i) { NamesIsFind(db, i, st); }
  }

  /** Row i can be settled by st, and gone is the reorg of that settle. */
  ghost predicate RoundTrip(db: Db, i: nat, st: Status, gone: Status) {
    && Solvent(db.journal) && UniqueKeys(db.journal) && Names(db, i, st) && Resolved(db, i)
    && (db.rows[i].status == RowPending || db.rows[i].status == RowReorged)
    && st.phase == W.Confirmed && gone.phase == W.Reorged && gone.tx == st.tx && gone.block == st.block
    && Unused(db.journal, "settlement.reversal", ReverseRef(db.rows[i].payment, st.block))
    && Handle(db, st).Some?
  }

  /** The settle itself: what it posts, and the balances it leaves. */
  lemma Settles(db: Db, i: nat, st: Status, gone: Status) returns (d: Db)
    requires RoundTrip(db, i, st, gone)
    ensures Handle(db, st) == Some(d) && Solvent(d.journal) && UniqueKeys(d.journal)
    ensures var ref := SettleRef(db.rows[i].payment, st.block);
      d.journal == db.journal + [Posts(db, i, "settlement.settle", ref, false)]
    ensures |d.rows| == |db.rows| && d.rows[i].payment == db.rows[i].payment && d.rows[i].status == RowSettled
    ensures d.rows == db.rows[i := d.rows[i]] && d.rows[i].tx == st.tx
    ensures d.payments == db.payments && d.houses == db.houses && d.accounts == db.accounts
    ensures Movable(db, db.payments[db.rows[i].payment].asset, db.payments[db.rows[i].payment].dest,
                    db.houses[db.payments[db.rows[i].payment].asset], db.payments[db.rows[i].payment].amount)
  {
    ConfirmedExactly(db, i, st);
    d := Handle(db, st).value;
    var row := db.rows[i];
    var pay := db.payments[row.payment];
    var e := Posts(db, i, "settlement.settle", SettleRef(row.payment, st.block), false);
    var ref := SettleRef(row.payment, st.block);
    TransferAcceptedIff(db, "settlement.settle", ref, pay.asset, pay.dest, db.houses[pay.asset], pay.amount);
    assert e.lines == Transfer(pay.dest, db.houses[pay.asset], pay.amount);
    Keeps(db, e);
  }

  /** A settle that is reorged out is undone: the Reorged is accepted, and every balance is what it was before both. */
  lemma ReorgUndoesSettle(db: Db, i: nat, st: Status, gone: Status) returns (d: Db, d2: Db)
    requires RoundTrip(db, i, st, gone)
    ensures Handle(db, st) == Some(d) && Handle(d, gone) == Some(d2)
    ensures forall a: AccountId :: Balance(d2.journal, a) == Balance(db.journal, a)
    ensures |d2.rows| == |db.rows| && d2.rows == db.rows[i := d2.rows[i]]
    ensures d2.rows[i].tx == st.tx && d2.rows[i].payment == db.rows[i].payment && d2.rows[i].status == RowReorged
    ensures d2.payments == db.payments && d2.houses == db.houses && d2.accounts == db.accounts
    ensures var id := db.rows[i].payment;
      d2.journal == db.journal + [Posts(db, i, "settlement.settle", SettleRef(id, st.block), false),
                                  Posts(db, i, "settlement.reversal", ReverseRef(id, st.block), true)]
  {
    var row := db.rows[i];
    var pay := db.payments[row.payment];
    var house := db.houses[pay.asset];
    var e := Posts(db, i, "settlement.settle", SettleRef(row.payment, st.block), false);
    var u := Posts(db, i, "settlement.reversal", ReverseRef(row.payment, st.block), true);
    d := Settles(db, i, st, gone);
    TransferMoves(db.journal, e, pay.dest, house, pay.amount, pay.dest);
    TransferMoves(db.journal, e, pay.dest, house, pay.amount, house);
    assert 0 <= Balance(db.journal, pay.dest) < TWO_63 && 0 <= Balance(db.journal, house);
    assert Movable(d, pay.asset, house, pay.dest, pay.amount);
    ReorgedExactly(d, i, gone);
    d2 := Handle(d, gone).value;
    assert d2.journal == db.journal + [e] + [u] == db.journal + [e, u];
    forall a: AccountId ensures Balance(d2.journal, a) == Balance(db.journal, a) {
      TransferMoves(db.journal, e, pay.dest, house, pay.amount, a);
      TransferMoves(d.journal, u, house, pay.dest, pay.amount, a);
    }
  }

  /** With the balances of before, what could be moved still can. */
  lemma StillMovable(db: Db, d: Db, asset: string, from: AccountId, to: AccountId, amount: int64)
    requires Solvent(db.journal) && Movable(db, asset, from, to, amount) && d.accounts == db.accounts
    requires forall a: AccountId :: Balance(d.journal, a) == Balance(db.journal, a)
    ensures Solvent(d.journal) && Movable(d, asset, from, to, amount)
  {}

  lemma StillUnused(journal: seq<Entry>, e: Entry, u: Entry, kind: string, ref: Ref)
    requires Unused(journal, kind, ref) && (e.kind != kind || e.ref != ref) && (u.kind != kind || u.ref != ref)
    ensures Unused(journal + [e, u], kind, ref)
  {}

  /** And the payment settles again: a Confirmed at any block that is new to it is accepted. */
  lemma SettlesAgainAfterReorg(db: Db, i: nat, st: Status, gone: Status, again: Status)
      returns (d2: Db, d3: Db)
    requires RoundTrip(db, i, st, gone)
    requires again.phase == W.Confirmed && again.tx == st.tx && again.block != st.block
    requires Unused(db.journal, "settlement.settle", SettleRef(db.rows[i].payment, again.block))
    ensures Handle(db, st).Some? && Handle(Handle(db, st).value, gone) == Some(d2)
    ensures Handle(d2, again) == Some(d3) && i < |d3.rows|
    ensures d3.rows[i].status == RowSettled && d3.rows[i].anchor == Some(Anchor(again.block, again.number))
  {
    var d;
    d := Settles(db, i, st, gone);
    d, d2 := ReorgUndoesSettle(db, i, st, gone);
    var id := db.rows[i].payment;
    var pay := db.payments[id];
    StillMovable(db, d2, pay.asset, pay.dest, db.houses[pay.asset], pay.amount);
    StillUnused(db.journal, Posts(db, i, "settlement.settle", SettleRef(id, st.block), false),
                Posts(db, i, "settlement.reversal", ReverseRef(id, st.block), true),
                "settlement.settle", SettleRef(id, again.block));
    ConfirmedExactly(d2, i, again);
    d3 := Handle(d2, again).value;
  }

  /** A transfer that is posted leaves the ledger solvent. */
  lemma Keeps(db: Db, e: Entry)
    requires Solvent(db.journal) && UniqueKeys(db.journal) && Posting(db.accounts, db.journal, e) == Posted
    requires exists from, to, amount: int64 :: e.lines == Transfer(from, to, amount)
    ensures Solvent(db.journal + [e]) && UniqueKeys(db.journal + [e])
  {
    var from, to, amount: int64 :| e.lines == Transfer(from, to, amount);
    TransferLines(from, to, amount);
    PostingKeeps(db.accounts, db.journal, e);
  }

  // ---------------------------------------------------------------- links

  ghost predicate OneRow(rows: seq<Row>, tx: TxHash) {
    forall i, j :: 0 <= i < j < |rows| ==> rows[i].tx != tx || rows[j].tx != tx
  }

  /** A transaction is bound to the first existing payment it is linked to, and never to another. */
  lemma LinkExactly(db: Db, id: PaymentId, tx: TxHash)
    ensures id !in db.payments ==> Link(db, id, tx).None?
    ensures id in db.payments && (forall i :: 0 <= i < |db.rows| ==> db.rows[i].tx != tx) ==>
            Link(db, id, tx) == Some(db.(rows := db.rows + [Row(tx, id, RowPending, None, None)]))
    ensures id in db.payments ==>
      forall i :: 0 <= i < |db.rows| && db.rows[i].tx == tx && OneRow(db.rows, tx) ==>
        Link(db, id, tx) == if db.rows[i].payment == id then Some(db) else None
  {}
}
