/** The database the money services share: its tables, PostWithin, and the payment operations. */
module Store {
  import opened Base
  import opened Ledger

  datatype RowStatus = RowPending | RowSettled | RowReorged | RowFinalized
  datatype Anchor = Anchor(block: Option<Hash>, number: uint64)

  /** A settlement: one on-chain transaction of a payment; `anchor` None is the NULL column pair. */
  datatype Row = Row(tx: TxHash, payment: PaymentId, status: RowStatus, settleEntry: Option<nat>,
                     anchor: Option<Anchor>)

  datatype Payment = Payment(source: AccountId, dest: AccountId, asset: string, amount: int64, canceled: bool)

  datatype Event =
    | PaymentCreated(payment: PaymentId)
    | PaymentCanceled(payment: PaymentId)
    | SettlementConfirmed(tx: TxHash, payment: PaymentId)
    | SettlementReorged(tx: TxHash, payment: PaymentId)
    | SettlementFinalized(tx: TxHash, payment: PaymentId)

  /** `houses` is the unique (name, asset) index restricted to the clearing account's name. */
  datatype Db = Db(accounts: map<AccountId, Account>, houses: map<string, AccountId>, journal: seq<Entry>,
                   payments: map<PaymentId, Payment>, rows: seq<Row>, outbox: seq<Event>, audit: seq<Event>)

  const PAYMENT := "payment"

  function Find(rows: seq<Row>, tx: TxHash): (r: Option<nat>)
    ensures r.Some? ==> r.value < |rows| && rows[r.value].tx == tx
    ensures r.None? ==> forall i :: 0 <= i < |rows| ==> rows[i].tx != tx
  {
    if rows == [] then None
    else if rows[|rows| - 1].tx == tx then Some(|rows| - 1)
    else Find(rows[..|rows| - 1], tx)
  }

  // ---------------------------------------------------------------- the operations on values

  /** PostWithin on the whole database; None is any refusal, which rolls the caller back. */
  function Post(db: Db, e: Entry): Option<Db> {
    if Posting(db.accounts, db.journal, e) == Posted then Some(db.(journal := db.journal + [e])) else None
  }

  function Record(db: Db, e: Event): Db { db.(outbox := db.outbox + [e], audit := db.audit + [e]) }

  function Transfer(from: AccountId, to: AccountId, amount: int64): seq<Line> {
    [Line(from, Debit, amount), Line(to, Credit, amount)]
  }

  function PaymentEntry(id: PaymentId, p: Payment): Entry {
    Entry(PAYMENT, PaymentRef(id), p.asset, Transfer(p.source, p.dest, p.amount))
  }

  function ReversalEntry(id: PaymentId, p: Payment): Entry {
    Entry(REVERSAL, ReversalRef(id), p.asset, Transfer(p.dest, p.source, p.amount))
  }

  function CreatePayment(db: Db, id: PaymentId, p: Payment): Option<Db> {
    if p.canceled || id in db.payments then None
    else
      var d := Post(db, PaymentEntry(id, p));
      if d.None? then None else Some(Record(d.value.(payments := d.value.payments[id := p]), PaymentCreated(id)))
  }

  function CancelPayment(db: Db, id: PaymentId): Option<Db> {
    if id !in db.payments || db.payments[id].canceled then None
    else
      var d := Post(db, ReversalEntry(id, db.payments[id]));
      if d.None? then None
      else Some(Record(d.value.(payments := d.value.payments[id := d.value.payments[id].(canceled := true)]),
                       PaymentCanceled(id)))
  }

  /** Binds a transaction to a payment once; rebinding it to another payment is refused. */
  function Link(db: Db, id: PaymentId, tx: TxHash): Option<Db> {
    if id !in db.payments then None
    else if Find(db.rows, tx).Some? then
      if db.rows[Find(db.rows, tx).value].payment == id then Some(db) else None
    else Some(db.(rows := db.rows + [Row(tx, id, RowPending, None, None)]))
  }

  // ---------------------------------------------------------------- the database in place

  class Database {
    const accounts: map<AccountId, Account>
    const houses: map<string, AccountId>
    var journal: seq<Entry>
    var payments: map<PaymentId, Payment>
    var rows: seq<Row>
    var outbox: seq<Event>
    var audit: seq<Event>

    function View(): Db
      reads this
    {
      Db(accounts, houses, journal, payments, rows, outbox, audit)
    }

    constructor (db: Db)
      ensures View() == db
    {
      accounts, houses := db.accounts, db.houses;
      journal, payments, rows, outbox, audit := db.journal, db.payments, db.rows, db.outbox, db.audit;
    }

    /** Undoes everything the transaction wrote since the snapshot. */
    method Rollback(snapshot: Db)
      requires snapshot.accounts == accounts && snapshot.houses == houses
      modifies this
      ensures View() == snapshot
    {
      journal, payments, rows, outbox, audit := snapshot.journal, snapshot.payments, snapshot.rows, snapshot.outbox,
          snapshot.audit;
    }

    method CheckAccounts(ids: seq<AccountId>, asset: string) returns (ok: bool)
      ensures ok <==>
              forall k :: 0 <= k < |ids| ==>
                ids[k] in accounts && accounts[ids[k]].active && accounts[ids[k]].asset == asset
      ensures ok <==> AccountsOk(accounts, (set id | id in ids), asset)
    {
      for i := 0 to |ids|
        invariant forall k :: 0 <= k < i ==>
            ids[k] in accounts && accounts[ids[k]].active && accounts[ids[k]].asset == asset
      {
        if ids[i] !in accounts || !accounts[ids[i]].active || accounts[ids[i]].asset != asset { return false; }
      }
      ok := true;
    }

    /** Reads each locked account's derived balance; a sum outside bigint is a storage error. */
    method ReadBalances(ids: seq<AccountId>) returns (cur: map<AccountId, int64>, ok: bool)
      ensures ok <==> BalancesFit(journal, set id | id in ids)
      ensures ok ==> cur.Keys == (set id | id in ids) && forall a | a in cur :: cur[a] == Balance(journal, a)
    {
      cur := map[];
      for i := 0 to |ids|
        invariant cur.Keys == set id | id in ids[..i]
        invariant forall a | a in cur :: cur[a] == Balance(journal, a)
      {
        var sum := Balance(journal, ids[i]);
        assert ids[..i + 1] == ids[..i] + [ids[i]];
        if !(-TWO_63 <= sum < TWO_63) { return cur, false; }
        cur := cur[ids[i] := sum];
      }
      assert ids[..|ids|] == ids;
      ok := true;
    }

    /** The journal row first, then one row per line. */
    method InsertEntry(e: Entry)
      modifies this`journal
      ensures journal == old(journal) + [e]
    {
      journal := journal + [e.(lines := [])];
      for i := 0 to |e.lines|
        invariant journal == old(journal) + [e.(lines := e.lines[..i])]
      {
        var last := |journal| - 1;
        journal := journal[last := journal[last].(lines := journal[last].lines + [e.lines[i]])];
        assert e.lines[..i + 1] == e.lines[..i] + [e.lines[i]];
      }
      assert e.lines[..|e.lines|] == e.lines;
    }

    /** Lock, check, read, project, insert the entry and its lines; nothing is written unless every check passes. */
    method PostWithin(e: Entry) returns (v: Verdict)
      modifies this`journal
      ensures v == Posting(accounts, old(journal), e)
      ensures journal == if v == Posted then old(journal) + [e] else old(journal)
    {
      if e.kind == "" || e.asset == "" || e.ref == Text("") { return Invalid; }
      v := Balanced(e.lines);
      if v != Posted { return; }
      var ids := AccountIds(e.lines);
      var ok := CheckAccounts(ids, e.asset);
      if !ok { return Invalid; }
      var cur;
      cur, ok := ReadBalances(ids);
      if !ok { return StorageError; }
      var projected := ApplyToBalances(cur, e.lines);
      ProjectionIsCovered(journal, e.lines, cur, projected);
      if projected.Rejected? { return projected.verdict; }
      if HasKey(journal, e.kind, e.ref) { return Duplicate; }
      InsertEntry(e);
    }

    method Create(id: PaymentId, p: Payment) returns (ok: bool)
      requires !p.canceled
      modifies this
      ensures ok <==> CreatePayment(old(View()), id, p).Some?
      ensures View() == if ok then CreatePayment(old(View()), id, p).value else old(View())
    {
      var snapshot := View();
      var v := PostWithin(PaymentEntry(id, p));
      if v != Posted || id in payments {
        Rollback(snapshot);
        return false;
      }
      payments := payments[id := p];
      outbox := outbox + [PaymentCreated(id)];
      audit := audit + [PaymentCreated(id)];
      ok := true;
    }

    method Cancel(id: PaymentId) returns (ok: bool)
      modifies this
      ensures ok <==> CancelPayment(old(View()), id).Some?
      ensures View() == if ok then CancelPayment(old(View()), id).value else old(View())
    {
      if id !in payments || payments[id].canceled { return false; }
      var v := PostWithin(ReversalEntry(id, payments[id]));
      if v != Posted { return false; }
      payments := payments[id := payments[id].(canceled := true)];
      outbox := outbox + [PaymentCanceled(id)];
      audit := audit + [PaymentCanceled(id)];
      ok := true;
    }

    method LinkTx(id: PaymentId, tx: TxHash) returns (ok: bool)
      modifies this`rows
      ensures ok <==> Link(old(View()), id, tx).Some?
      ensures View() == if ok then Link(old(View()), id, tx).value else old(View())
    {
      if id !in payments { return false; }
      var at := Find(rows, tx);
      if at.None? {
        rows := rows + [Row(tx, id, RowPending, None, None)];
        return true;
      }
      ok := rows[at.value].payment == id;
    }
  }

  lemma ProjectionIsCovered(journal: seq<Entry>, lines: seq<Line>, cur: map<AccountId, int64>, r: Projection)
    requires WellFormed(lines) && cur.Keys == Touched(lines) && forall a | a in cur :: cur[a] == Balance(journal, a)
    requires r == Rejected(Invalid) <==> exists l :: l in lines && l.direction.Unknown?
    requires r.Projected? ==> Projects(cur, lines, r.balances) && forall a | a in r.balances :: r.balances[a] >= 0
    requires r.Rejected? ==> r.verdict in {Invalid, Insufficient}
    requires r == Rejected(Insufficient) ==>
      exists a | a in cur.Keys + Touched(lines) :: Wrap64(Lookup(cur, a) + Net(lines, a)) < 0
    ensures r.Projected? <==> Covered(journal, lines)
    ensures r.Rejected? ==> r.verdict == Insufficient
  {
    if r.Projected? {
      forall a | a in Touched(lines) ensures Wrap64(Balance(journal, a) + Net(lines, a)) >= 0 {
        assert a in r.balances;
      }
    }
  }
}
