/** The settlement sink: what one delivered status does to the ledger and to the settlement row. */
module Settlement {
  import opened Base
  import opened Ledger
  import opened Store
  import Watcher

  type Status = Watcher.Status

  const SETTLE := "settlement.settle"
  const UNSETTLE := "settlement.reversal"

  /** Debit the destination, credit the house: the provisional credit leaves for the chain. */
  function SettleEntry(id: PaymentId, p: Payment, house: AccountId, block: Option<Hash>): Entry {
    Entry(SETTLE, SettleRef(id, block), p.asset, Transfer(p.dest, house, p.amount))
  }

  /** The mirror of SettleEntry. */
  function UnsettleEntry(id: PaymentId, p: Payment, house: AccountId, block: Option<Hash>): Entry {
    Entry(UNSETTLE, ReverseRef(id, block), p.asset, Transfer(house, p.dest, p.amount))
  }

  // ---------------------------------------------------------------- the handlers on values

  /** The row a status resolves to, with its payment and clearing account. */
  predicate Resolves(db: Db, st: Status) {
    var at := Find(db.rows, st.tx);
    at.Some? && var id := db.rows[at.value].payment; id in db.payments && db.payments[id].asset in db.houses
  }

  /** The row after MarkSettlementSettled. */
  function SettledAt(row: Row, entry: nat, anchor: Anchor): Row {
    row.(status := RowSettled, settleEntry := Some(entry), anchor := Some(anchor))
  }

  function Settle(db: Db, i: nat, house: AccountId, st: Status): Option<Db>
    requires i < |db.rows| && db.rows[i].payment in db.payments
  {
    var row := db.rows[i];
    if row.status == RowSettled then Some(db)
    else
      var d := Post(db, SettleEntry(row.payment, db.payments[row.payment], house, st.block));
      if d.None? then None
      else if row.status == RowFinalized then d  // the guarded update matches no row, and the posting still commits
      else
        var row' := SettledAt(row, |db.journal|, Anchor(st.block, st.number));
        Some(Record(d.value.(rows := d.value.rows[i := row']), SettlementConfirmed(row.tx, row.payment)))
  }

  function Unsettle(db: Db, i: nat, house: AccountId, st: Status): Option<Db>
    requires i < |db.rows| && db.rows[i].payment in db.payments
  {
    var row := db.rows[i];
    if row.status != RowSettled then Some(db)
    else
      var d := Post(db, UnsettleEntry(row.payment, db.payments[row.payment], house, st.block));
      if d.None? then None
      else Some(Record(d.value.(rows := d.value.rows[i := row.(status := RowReorged, anchor := None)]),
                       SettlementReorged(row.tx, row.payment)))
  }

  function Finalize(db: Db, tx: TxHash): Db {
    var at := Find(db.rows, tx);
    if at.None? || db.rows[at.value].status != RowSettled then db
    else
      var row := db.rows[at.value];
      Record(db.(rows := db.rows[at.value := row.(status := RowFinalized)]), SettlementFinalized(tx, row.payment))
  }

  /** The transaction a status runs; None is the error that rolls it back. */
  function Handle(db: Db, st: Status): Option<Db> {
    match st.phase
    case Finalized => Some(Finalize(db, st.tx))
    case Pending => Some(db)
    case Mined => Some(db)
    case _ =>
      if Find(db.rows, st.tx).None? then Some(db)
      else if !Resolves(db, st) then None
      else
        var i := Find(db.rows, st.tx).value;
        var house := db.houses[db.payments[db.rows[i].payment].asset];
        if st.phase == Watcher.Confirmed then Settle(db, i, house, st) else Unsettle(db, i, house, st)
  }

  // ---------------------------------------------------------------- the sink

  /** Where the storage fails: a statement, the commit (rolled back), or only its acknowledgement. */
  datatype Fault = NoFault | AtLookup | AtPost | AtMark | AtEmit | AtAudit | AtCommit | AckLost

  class Sink {
    const db: Database

    constructor (db: Database)
      ensures this.db == db
    {
      this.db := db;
    }

    method MarkSettled(tx: TxHash, entry: nat, anchor: Anchor) returns (found: bool)
      modifies db`rows
      ensures var at := Find(old(db.rows), tx);
        && (found <==>
            at.Some? && (old(db.rows)[at.value].status == RowPending || old(db.rows)[at.value].status == RowReorged))
        && db.rows == if found
                      then old(db.rows)[at.value := SettledAt(old(db.rows)[at.value], entry, anchor)]
                      else old(db.rows)
    {
      var at := Find(db.rows, tx);
      if at.None? || (db.rows[at.value].status != RowPending && db.rows[at.value].status != RowReorged) {
        return false;
      }
      db.rows := db.rows[at.value := SettledAt(db.rows[at.value], entry, anchor)];
      found := true;
    }

    method MarkReorged(tx: TxHash) returns (found: bool)
      modifies db`rows
      ensures var at := Find(old(db.rows), tx);
        && (found <==> at.Some? && old(db.rows)[at.value].status == RowSettled)
        && db.rows == if found
            then old(db.rows)[at.value := old(db.rows)[at.value].(status := RowReorged, anchor := None)]
            else old(db.rows)
    {
      var at := Find(db.rows, tx);
      if at.None? || db.rows[at.value].status != RowSettled { return false; }
      db.rows := db.rows[at.value := db.rows[at.value].(status := RowReorged, anchor := None)];
      found := true;
    }

    method MarkFinalized(tx: TxHash) returns (found: bool, payment: PaymentId)
      modifies db`rows
      ensures var at := Find(old(db.rows), tx);
        && (found <==> at.Some? && old(db.rows)[at.value].status == RowSettled)
        && db.rows ==
            (if found then old(db.rows)[at.value := old(db.rows)[at.value].(status := RowFinalized)] else old(db.rows))
        && (found ==> payment == old(db.rows)[at.value].payment)
    {
      var at := Find(db.rows, tx);
      if at.None? || db.rows[at.value].status != RowSettled { return false, 0; }
      db.rows := db.rows[at.value := db.rows[at.value].(status := RowFinalized)];
      return true, db.rows[at.value].payment;
    }

    /** The outbox row, then the audit row, in the caller's transaction. */
    method Publish(e: Event, fault: Fault) returns (ok: bool)
      modifies db`outbox, db`audit
      ensures ok <==> fault != AtEmit && fault != AtAudit
      ensures ok ==> db.outbox == old(db.outbox) + [e] && db.audit == old(db.audit) + [e]
    {
      if fault == AtEmit { return false; }
      db.outbox := db.outbox + [e];
      if fault == AtAudit { return false; }
      db.audit := db.audit + [e];
      ok := true;
    }

    method SettleRow(i: nat, house: AccountId, st: Status, fault: Fault) returns (ok: bool)
      requires Find(db.rows, st.tx) == Some(i) && db.rows[i].payment in db.payments
      modifies db
      ensures ok ==> Settle(old(db.View()), i, house, st) == Some(db.View())
      ensures !ok && fault in {NoFault, AtLookup, AtCommit, AckLost} ==> Settle(old(db.View()), i, house, st).None?
    {
      var row := db.rows[i];
      if row.status == RowSettled { return true; }
      if fault == AtPost { return false; }
      var entry := |db.journal|;
      var v := db.PostWithin(SettleEntry(row.payment, db.payments[row.payment], house, st.block));
      if v != Posted { return false; }
      assert Post(old(db.View()), SettleEntry(row.payment, db.payments[row.payment], house, st.block)) ==
          Some(db.View());
      if fault == AtMark { return false; }
      var found := MarkSettled(st.tx, entry, Anchor(st.block, st.number));
      if !found { return true; }
      ok := Publish(SettlementConfirmed(st.tx, row.payment), fault);
    }

    method UnsettleRow(i: nat, house: AccountId, st: Status, fault: Fault) returns (ok: bool)
      requires Find(db.rows, st.tx) == Some(i) && db.rows[i].payment in db.payments
      modifies db
      ensures ok ==> Unsettle(old(db.View()), i, house, st) == Some(db.View())
      ensures !ok && fault in {NoFault, AtLookup, AtCommit, AckLost} ==> Unsettle(old(db.View()), i, house, st).None?
    {
      var row := db.rows[i];
      if row.status != RowSettled { return true; }
      if fault == AtPost { return false; }
      var v := db.PostWithin(UnsettleEntry(row.payment, db.payments[row.payment], house, st.block));
      if v != Posted { return false; }
      if fault == AtMark { return false; }
      var found := MarkReorged(st.tx);
      if !found { return true; }
      ok := Publish(SettlementReorged(st.tx, row.payment), fault);
    }

    method FinalizeRow(st: Status, fault: Fault) returns (ok: bool)
      modifies db
      ensures ok ==> db.View() == Finalize(old(db.View()), st.tx)
      ensures !ok ==> fault in {AtMark, AtEmit, AtAudit}
    {
      if fault == AtMark { return false; }
      var found, payment := MarkFinalized(st.tx);
      if !found { return true; }
      ok := Publish(SettlementFinalized(st.tx, payment), fault);
    }

    method Dispatch(st: Status, fault: Fault) returns (ok: bool)
      requires st.phase in {Watcher.Confirmed, Watcher.Reorged, Watcher.Finalized}
      modifies db
      ensures ok ==> Handle(old(db.View()), st) == Some(db.View())
      ensures !ok && fault in {NoFault, AtCommit, AckLost} ==> Handle(old(db.View()), st).None?
    {
      if st.phase == Watcher.Finalized {
        ok := FinalizeRow(st, fault);
        return;
      }
      if fault == AtLookup { return false; }
      var at := Find(db.rows, st.tx);
      if at.None? { return true; }
      var row := db.rows[at.value];
      if row.payment !in db.payments || db.payments[row.payment].asset !in db.houses { return false; }
      var house := db.houses[db.payments[row.payment].asset];
      if st.phase == Watcher.Confirmed {
        ok := SettleRow(at.value, house, st, fault);
      } else {
        ok := UnsettleRow(at.value, house, st, fault);
      }
    }

    /**
     * Applies one status in one transaction: it takes effect as a whole or not at all, it reports success only
     * after it took effect, and without a fault it fails only when the handler itself refuses.
     */
    method OnStatus(st: Status, fault: Fault) returns (ok: bool)
      modifies db
      ensures ok ==> Handle(old(db.View()), st) == Some(db.View())
      ensures !ok && fault != AckLost ==> db.View() == old(db.View())
      ensures !ok && fault == AckLost ==> db.View() == old(db.View()) || Handle(old(db.View()), st) == Some(db.View())
      ensures fault == NoFault ==> (ok <==> Handle(old(db.View()), st).Some?)
    {
      if st.phase == Watcher.Pending || st.phase == Watcher.Mined { return true; }
      var snapshot := db.View();
      ok := Dispatch(st, fault);
      if !ok || fault == AtCommit {
        db.Rollback(snapshot);
        return false;
      }
      ok := fault != AckLost;
    }
  }
}
