/** The clearing account and the published events, tied to the settlement rows over every run. */
module Clearing {
  import opened Base
  import opened Ledger
  import opened Store
  import opened Settlement
  import opened Money
  import Watcher

  // ---------------------------------------------------------------- the house balance

  /** No payment pays into or out of a clearing account directly. */
  ghost predicate Apart(db: Db) {
    forall id | id in db.payments :: Outside(db, db.payments[id])
  }

  ghost predicate Outside(db: Db, p: Payment) {
    forall asset | asset in db.houses :: p.source != db.houses[asset] && p.dest != db.houses[asset]
  }

  ghost predicate HouseMatches(db: Db) {
    forall asset | asset in db.houses :: Balance(db.journal, db.houses[asset]) == LiveValue(db, asset)
  }

  ghost predicate ClearingInv(db: Db) { Inv(db) && Apart(db) && HouseMatches(db) }

  /** Settling or reversing row i moves its amount on the house account and on the row sum alike. */
  lemma RowMoveMatches(db: Db, i: nat, row': Row, e: Entry, asset: string)
    requires ClearingInv(db) && i < |db.rows| && asset in db.houses
    requires row'.payment == db.rows[i].payment && Live(row') != Live(db.rows[i])
    requires var p := db.payments[db.rows[i].payment];
      && p.asset in db.houses
      && e.lines == if Live(row') then Transfer(p.dest, db.houses[p.asset], p.amount)
          else Transfer(db.houses[p.asset], p.dest, p.amount)
    ensures Balance(db.journal + [e], db.houses[asset]) == RowSum(db.rows[i := row'], AmountOf(db.payments, asset))
  {
    var p := db.payments[db.rows[i].payment];
    assert Outside(db, p);
    AppendBalance(db.journal, e, db.houses[asset]);
    TransferLines(p.dest, db.houses[p.asset], p.amount);
    TransferLines(db.houses[p.asset], p.dest, p.amount);
    RowSumUpdate(db.rows, i, row', AmountOf(db.payments, asset));
  }

  lemma DeliveryKeepsHouse(db: Db, st: Status)
    requires ClearingInv(db) && Handle(db, st).Some? && !DoubleSettles(db, st)
    ensures ClearingInv(Handle(db, st).value)
  {
    HandleKeepsIff(db, st);
    var d := Handle(db, st).value;
    var at := Find(db.rows, st.tx);
    forall asset | asset in db.houses ensures Balance(d.journal, d.houses[asset]) == LiveValue(d, asset) {
      if at.Some? && |d.journal| > |db.journal| {
        RowMoveMatches(db, at.value, d.rows[at.value], d.journal[|db.journal|], asset);
      } else if at.Some? {
        RowSumUpdate(db.rows, at.value, d.rows[at.value], AmountOf(db.payments, asset));
      }
    }
  }

  /** A transfer between outside accounts leaves every clearing account alone. */
  lemma OutsideTransfer(db: Db, e: Entry, p: Payment, asset: string)
    requires Outside(db, p) && asset in db.houses
    requires e.lines == Transfer(p.source, p.dest, p.amount) || e.lines == Transfer(p.dest, p.source, p.amount)
    ensures Balance(db.journal + [e], db.houses[asset]) == Balance(db.journal, db.houses[asset])
  {
    AppendBalance(db.journal, e, db.houses[asset]);
    TransferLines(p.source, p.dest, p.amount);
    TransferLines(p.dest, p.source, p.amount);
  }

  lemma CreateKeepsHouse(db: Db, id: PaymentId, p: Payment)
    requires ClearingInv(db) && Outside(db, p) && CreatePayment(db, id, p).Some?
    ensures Apart(CreatePayment(db, id, p).value) && HouseMatches(CreatePayment(db, id, p).value)
  {
    var d := CreatePayment(db, id, p).value;
    forall asset | asset in db.houses ensures Balance(d.journal, d.houses[asset]) == LiveValue(d, asset) {
      OutsideTransfer(db, PaymentEntry(id, p), p, asset);
      RowSumSame(db.rows, AmountOf(db.payments, asset), AmountOf(d.payments, asset));
    }
  }

  lemma CancelKeepsHouse(db: Db, id: PaymentId)
    requires ClearingInv(db) && CancelPayment(db, id).Some?
    ensures Apart(CancelPayment(db, id).value) && HouseMatches(CancelPayment(db, id).value)
  {
    var d := CancelPayment(db, id).value;
    forall asset | asset in db.houses ensures Balance(d.journal, d.houses[asset]) == LiveValue(d, asset) {
      OutsideTransfer(db, ReversalEntry(id, db.payments[id]), db.payments[id], asset);
      RowSumSame(db.rows, AmountOf(db.payments, asset), AmountOf(d.payments, asset));
    }
  }

  lemma LinkKeepsHouse(db: Db, id: PaymentId, tx: TxHash)
    requires ClearingInv(db)
    ensures ClearingInv(OrElse(Link(db, id, tx), db))
  {
    LinkKeeps(db, id, tx);
    forall asset | asset in db.houses
      ensures RowSum(db.rows + [Row(tx, id, RowPending, None, None)], AmountOf(db.payments, asset)) ==
      LiveValue(db, asset) {
      RowSumAppend(db.rows, Row(tx, id, RowPending, None, None), AmountOf(db.payments, asset));
    }
  }

  ghost predicate StaysOutside(db: Db, ops: seq<Op>) {
    forall i :: 0 <= i < |ops| && ops[i].Create? ==> Outside(db, ops[i].p)
  }

  lemma NextKeepsHouse(db: Db, op: Op)
    requires ClearingInv(db)
    requires op.Deliver? && op.applied ==> !DoubleSettles(db, op.st)
    requires op.Create? ==> Outside(db, op.p)
    ensures ClearingInv(Next(db, op))
  {
    match op {
      case LinkTx(id, tx) => LinkKeepsHouse(db, id, tx);
      case Deliver(st, applied) => if applied && Handle(db, st).Some? { DeliveryKeepsHouse(db, st); }
      case Create(id, p) =>
        PaymentsKeep(db, op);
        if CreatePayment(db, id, p).Some? { CreateKeepsHouse(db, id, p); }
      case Cancel(id) =>
        PaymentsKeep(db, op);
        if CancelPayment(db, id).Some? { CancelKeepsHouse(db, id); }
    }
  }

  /**
   * In every such run the clearing account of each asset holds exactly the value of the asset's settled and finalized
   * rows.
   */
  lemma {:induction false} HouseHoldsLiveValue(db: Db, ops: seq<Op>)
    requires ClearingInv(db) && NeverDoubles(db, ops) && StaysOutside(db, ops)
    ensures ClearingInv(Run(db, ops)) && Run(db, ops).houses == db.houses && Run(db, ops).accounts == db.accounts
  {
    if ops != [] {
      var n := |ops| - 1;
      assert forall i :: 0 <= i < n ==> ops[..n][i] == ops[i] && ops[..n][..i] == ops[..i];
      HouseHoldsLiveValue(db, ops[..n]);
      NextKeepsAccounts(Run(db, ops[..n]), ops[n]);
      NextKeepsHouse(Run(db, ops[..n]), ops[n]);
    }
  }

  // ---------------------------------------------------------------- the published events

  predicate About(e: Event, tx: TxHash) {
    (e.SettlementConfirmed? || e.SettlementReorged? || e.SettlementFinalized?) && e.tx == tx
  }

  /** The status a settlement event leads to; None if it cannot happen in the given status. */
  function Transition(s: RowStatus, e: Event): Option<RowStatus> {
    match e
    case SettlementConfirmed(_, _) => if s == RowPending || s == RowReorged then Some(RowSettled) else None
    case SettlementReorged(_, _) => if s == RowSettled then Some(RowReorged) else None
    case SettlementFinalized(_, _) => if s == RowSettled then Some(RowFinalized) else None
    case _ => Some(s)
  }

  /** The status that one transaction's events, read in order, lead to; None if they are out of order. */
  function Replay(events: seq<Event>, tx: TxHash): Option<RowStatus> {
    if events == [] then Some(RowPending)
    else
      var s := Replay(events[..|events| - 1], tx);
      var e := events[|events| - 1];
      if s.None? || !About(e, tx) then s else Transition(s.value, e)
  }

  /**
   * The events of each linked transaction lead to its row's status, no event precedes its link, and the audit log
   * agrees.
   */
  ghost predicate EventsInv(db: Db) {
    && db.audit == db.outbox
    && (forall i, j :: 0 <= i < j < |db.rows| ==> db.rows[i].tx != db.rows[j].tx)
    && (forall i :: 0 <= i < |db.rows| ==> Replay(db.outbox, db.rows[i].tx) == Some(db.rows[i].status))
    && (forall tx :: Find(db.rows, tx).None? ==> Replay(db.outbox, tx) == Some(RowPending))
  }

  lemma ReplayAppend(events: seq<Event>, e: Event, tx: TxHash)
    ensures Replay(events + [e], tx) ==
      if Replay(events, tx).None? || !About(e, tx) then Replay(events, tx) else Transition(Replay(events, tx).value, e)
  {
    assert (events + [e])[..|events|] == events;
  }

  /** Publishing the transition that row i makes, and nothing else, keeps events and rows in step. */
  lemma PublishKeeps(db: Db, d: Db, i: nat, e: Event)
    requires EventsInv(db) && i < |db.rows|
    requires d.outbox == db.outbox + [e] && d.audit == db.audit + [e]
    requires |d.rows| == |db.rows| && d.rows[i].tx == db.rows[i].tx && forall k :: 0 <= k < |db.rows| && k != i ==>
        d.rows[k] == db.rows[k]
    requires About(e, db.rows[i].tx) && Transition(db.rows[i].status, e) == Some(d.rows[i].status)
    ensures EventsInv(d)
  {
    forall tx ensures Replay(d.outbox, tx) == if tx == db.rows[i].tx then Some(d.rows[i].status)
        else Replay(db.outbox, tx) {
      ReplayAppend(db.outbox, e, tx);
      assert Replay(db.outbox, db.rows[i].tx) == Some(db.rows[i].status);
    }
    FindSame(db.rows, d.rows);
  }

  lemma QuietKeeps(db: Db, d: Db, e: Event)
    requires EventsInv(db) && d.rows == db.rows && (e.PaymentCreated? || e.PaymentCanceled?)
    requires d.outbox == db.outbox + [e] && d.audit == db.audit + [e]
    ensures EventsInv(d)
  {
    forall tx ensures Replay(d.outbox, tx) == Replay(db.outbox, tx) { ReplayAppend(db.outbox, e, tx); }
  }

  /** Every handled status, whatever it is, publishes exactly the transition its row makes. */
  lemma HandleKeepsEvents(db: Db, st: Status)
    requires EventsInv(db) && Handle(db, st).Some?
    ensures EventsInv(Handle(db, st).value)
  {
    var d := Handle(db, st).value;
    if d.outbox != db.outbox {
      var i := Find(db.rows, st.tx).value;
      var e := d.outbox[|db.outbox|];
      assert d.outbox == db.outbox + [e] && d.audit == db.audit + [e];
      assert About(e, db.rows[i].tx) && Transition(db.rows[i].status, e) == Some(d.rows[i].status);
      PublishKeeps(db, d, i, e);
    } else {
      assert d.rows == db.rows && d.audit == db.audit;
    }
  }

  lemma {:induction false} FindSame(rows: seq<Row>, rows': seq<Row>)
    requires |rows| == |rows'| && forall i :: 0 <= i < |rows| ==> rows[i].tx == rows'[i].tx
    ensures forall tx :: Find(rows, tx) == Find(rows', tx)
  {
    if rows != [] { FindSame(rows[..|rows| - 1], rows'[..|rows| - 1]); }
  }

  lemma LinkKeepsEvents(db: Db, id: PaymentId, tx: TxHash)
    requires EventsInv(db)
    ensures EventsInv(OrElse(Link(db, id, tx), db))
  {
    var rows := db.rows + [Row(tx, id, RowPending, None, None)];
    assert rows[..|db.rows|] == db.rows;
  }

  lemma NextKeepsEvents(db: Db, op: Op)
    requires EventsInv(db)
    ensures EventsInv(Next(db, op))
  {
    match op {
      case Deliver(st, applied) => if applied && Handle(db, st).Some? { HandleKeepsEvents(db, st); }
      case LinkTx(id, tx) => LinkKeepsEvents(db, id, tx);
      case Create(id, p) =>
          if CreatePayment(db, id, p).Some? { QuietKeeps(db, CreatePayment(db, id, p).value, PaymentCreated(id)); }
      case Cancel(id) =>
          if CancelPayment(db, id).Some? { QuietKeeps(db, CancelPayment(db, id).value, PaymentCanceled(id)); }
    }
  }

  /**
   * In every run, with no hypothesis on the deliveries, the events published for a transaction are confirmed and
   * reorged in alternation, then at most one finalized, and they lead to exactly its row's status.
   */
  lemma {:induction false} EventsTellTheStatus(db: Db, ops: seq<Op>)
    requires EventsInv(db)
    ensures EventsInv(Run(db, ops))
  {
    if ops != [] {
      EventsTellTheStatus(db, ops[..|ops| - 1]);
      NextKeepsEvents(Run(db, ops[..|ops| - 1]), ops[|ops| - 1]);
    }
  }
}
