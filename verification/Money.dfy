/** What the sink keeps true of the money over every run of deliveries, payments, cancellations and links. */
module Money {
  import opened Base
  import opened Ledger
  import opened Store
  import opened Settlement
  import Watcher

  // ---------------------------------------------------------------- runs

  /** One committed or rolled-back transaction. `applied` says whether a delivered status took effect. */
  datatype Op =
    | Create(id: PaymentId, p: Payment)
    | Cancel(id: PaymentId)
    | LinkTx(id: PaymentId, tx: TxHash)
    | Deliver(st: Status, applied: bool)

  function OrElse(d: Option<Db>, db: Db): Db { if d.Some? then d.value else db }

  function Next(db: Db, op: Op): Db {
    match op
    case Create(id, p) => OrElse(CreatePayment(db, id, p), db)
    case Cancel(id) => OrElse(CancelPayment(db, id), db)
    case LinkTx(id, tx) => OrElse(Link(db, id, tx), db)
    case Deliver(st, applied) => if applied then OrElse(Handle(db, st), db) else db
  }

  function Run(db: Db, ops: seq<Op>): Db {
    if ops == [] then db else Next(Run(db, ops[..|ops| - 1]), ops[|ops| - 1])
  }

  // ---------------------------------------------------------------- counting

  function RowSum(rows: seq<Row>, w: Row -> int): int {
    if rows == [] then 0 else RowSum(rows[..|rows| - 1], w) + w(rows[|rows| - 1])
  }

  /** The row's transfer stands on the chain as far as the ledger knows. */
  predicate Live(r: Row) { r.status == RowSettled || r.status == RowFinalized }

  function CountOf(p: PaymentId): Row -> int { r => if Live(r) && r.payment == p then 1 else 0 }

  function LiveRows(rows: seq<Row>, p: PaymentId): int { RowSum(rows, CountOf(p)) }

  function AmountOf(payments: map<PaymentId, Payment>, asset: string): Row -> int {
    r => if Live(r) && r.payment in payments && payments[r.payment].asset == asset
        then payments[r.payment].amount as int else 0
  }

  /** The value the rows say is on the chain for one asset. */
  function LiveValue(db: Db, asset: string): int { RowSum(db.rows, AmountOf(db.payments, asset)) }

  /** +1 for a settle entry of the payment, -1 for a reversal of one. */
  function Moves(e: Entry, p: PaymentId): int {
    if e.kind == SETTLE && e.ref.SettleRef? && e.ref.payment == p then 1
    else if e.kind == UNSETTLE && e.ref.ReverseRef? && e.ref.payment == p then -1
    else 0
  }

  function NetSettles(journal: seq<Entry>, p: PaymentId): int {
    if journal == [] then 0 else NetSettles(journal[..|journal| - 1], p) + Moves(journal[|journal| - 1], p)
  }

  /** What the settle and reversal entries of one payment do to one account. */
  function Effect(journal: seq<Entry>, p: PaymentId, a: AccountId): int {
    if journal == [] then 0
    else
      var e := journal[|journal| - 1];
      Effect(journal[..|journal| - 1], p, a) + if Moves(e, p) != 0 then Net(e.lines, a) else 0
  }

  // ---------------------------------------------------------------- the invariant

  ghost predicate Linked(db: Db) {
    && (forall i, j :: 0 <= i < j < |db.rows| ==> db.rows[i].tx != db.rows[j].tx)
    && (forall i :: 0 <= i < |db.rows| ==> db.rows[i].payment in db.payments)
    && (forall asset | asset in db.houses ::
          db.houses[asset] in db.accounts && db.accounts[db.houses[asset]].asset == asset)
  }

  ghost predicate FaithfulEntry(db: Db, e: Entry) {
    && (e.kind == SETTLE ==>
          && e.ref.SettleRef? && e.ref.payment in db.payments && db.payments[e.ref.payment].asset in db.houses
          && var p := db.payments[e.ref.payment]; e == SettleEntry(e.ref.payment, p, db.houses[p.asset], e.ref.block))
    && (e.kind == UNSETTLE ==>
          && e.ref.ReverseRef? && e.ref.payment in db.payments && db.payments[e.ref.payment].asset in db.houses
          && var p := db.payments[e.ref.payment]; e == UnsettleEntry(e.ref.payment, p, db.houses[p.asset], e.ref.block))
  }

  /** Every settle or reversal entry moves exactly its payment's amount between its destination and the house. */
  ghost predicate Faithful(db: Db) { forall i :: 0 <= i < |db.journal| ==> FaithfulEntry(db, db.journal[i]) }

  /** Each payment has as many standing settles as it has settled or finalized rows. */
  ghost predicate Matched(db: Db) { forall p: PaymentId :: NetSettles(db.journal, p) == LiveRows(db.rows, p) }

  ghost predicate Inv(db: Db) {
    Linked(db) && Faithful(db) && Matched(db) && Solvent(db.journal) && UniqueKeys(db.journal)
  }

  /** The guard that settle lacks: a Confirmed for a row that is finalized. */
  predicate OverFinalized(db: Db, st: Status) {
    && st.phase == Watcher.Confirmed
    && Find(db.rows, st.tx).Some? && db.rows[Find(db.rows, st.tx).value].status == RowFinalized
  }

  /** The one delivery that breaks it: such a Confirmed, when its posting is accepted. */
  predicate DoubleSettles(db: Db, st: Status) { OverFinalized(db, st) && Handle(db, st).Some? }

  // ---------------------------------------------------------------- helper facts

  lemma {:induction false} RowSumUpdate(rows: seq<Row>, i: nat, r: Row, w: Row -> int)
    requires i < |rows|
    ensures RowSum(rows[i := r], w) == RowSum(rows, w) - w(rows[i]) + w(r)
  {
    if i < |rows| - 1 {
      RowSumUpdate(rows[..|rows| - 1], i, r, w);
      assert rows[i := r][..|rows| - 1] == rows[..|rows| - 1][i := r];
    } else {
      assert rows[i := r][..|rows| - 1] == rows[..|rows| - 1];
    }
  }

  lemma RowSumAppend(rows: seq<Row>, r: Row, w: Row -> int)
    ensures RowSum(rows + [r], w) == RowSum(rows, w) + w(r)
  {
    assert (rows + [r])[..|rows|] == rows;
  }

  lemma {:induction false} RowSumSame(rows: seq<Row>, v: Row -> int, w: Row -> int)
    requires forall i :: 0 <= i < |rows| ==> v(rows[i]) == w(rows[i])
    ensures RowSum(rows, v) == RowSum(rows, w)
  {
    if rows != [] { RowSumSame(rows[..|rows| - 1], v, w); }
  }

  lemma NetSettlesAppend(journal: seq<Entry>, e: Entry, p: PaymentId)
    ensures NetSettles(journal + [e], p) == NetSettles(journal, p) + Moves(e, p)
  {
    assert (journal + [e])[..|journal|] == journal;
  }

  lemma TransferLines(from: AccountId, to: AccountId, amount: int64)
    ensures TotalsFit(Transfer(from, to, amount)) && Touched(Transfer(from, to, amount)) == {from, to}
    ensures forall a: AccountId ::
        Net(Transfer(from, to, amount), a) ==
        (if a == to then amount as int else 0) - (if a == from then amount as int else 0)
  {
    var l0, l1 := Line(from, Debit, amount), Line(to, Credit, amount);
    assert [l0, l1][..1] == [l0] && [l0][..0] == [];
    assert forall d :: Side([l0], d) == Side([], d) + if l0.direction == d then l0.amount else 0;
    assert forall s :: LinesOn([l0], s) == LinesOn([], s) + if from in s then Signed(l0) else 0;
    assert forall s :: LinesOn([l0, l1], s) == LinesOn([l0], s) + if to in s then Signed(l1) else 0;
    assert l0 in [l0, l1] && l1 in [l0, l1];
  }

  /** Posting an entry keeps the ledger's own invariants; what it does to the counts is `Moves`. */
  lemma PostKeeps(db: Db, e: Entry)
    requires Inv(db) && Post(db, e).Some? && TotalsFit(e.lines) && FaithfulEntry(db, e)
    ensures var d := Post(db, e).value;
      && Linked(d) && Faithful(d) && Solvent(d.journal) && UniqueKeys(d.journal)
      && forall p: PaymentId :: NetSettles(d.journal, p) == NetSettles(db.journal, p) + Moves(e, p)
  {
    PostingKeeps(db.accounts, db.journal, e);
    forall p: PaymentId ensures NetSettles(db.journal + [e], p) == NetSettles(db.journal, p) + Moves(e, p) {
      NetSettlesAppend(db.journal, e, p);
    }
  }

  lemma MarkMoves(rows: seq<Row>, i: nat, r: Row, p: PaymentId)
    requires i < |rows| && r.payment == rows[i].payment && r.tx == rows[i].tx
    ensures LiveRows(rows[i := r], p) ==
      LiveRows(rows, p) + if rows[i].payment != p then 0
          else (if Live(r) then 1 else 0) - (if Live(rows[i]) then 1 else 0)
  {
    RowSumUpdate(rows, i, r, CountOf(p));
  }

  // ---------------------------------------------------------------- each operation keeps the invariant

  lemma SettleKeeps(db: Db, i: nat, st: Status)
    requires Inv(db) && i < |db.rows| && db.payments[db.rows[i].payment].asset in db.houses
        && db.rows[i].status != RowFinalized
    requires Settle(db, i, db.houses[db.payments[db.rows[i].payment].asset], st).Some?
    ensures Inv(Settle(db, i, db.houses[db.payments[db.rows[i].payment].asset], st).value)
  {
    var row := db.rows[i];
    var p := db.payments[row.payment];
    var house := db.houses[p.asset];
    if row.status != RowSettled {
      var e := SettleEntry(row.payment, p, house, st.block);
      TransferLines(p.dest, house, p.amount);
      PostKeeps(db, e);
      var d := Settle(db, i, house, st).value;
      forall q: PaymentId ensures NetSettles(d.journal, q) == LiveRows(d.rows, q) {
        MarkMoves(db.rows, i, d.rows[i], q);
      }
    }
  }

  lemma UnsettleKeeps(db: Db, i: nat, st: Status)
    requires Inv(db) && i < |db.rows| && db.payments[db.rows[i].payment].asset in db.houses
    requires Unsettle(db, i, db.houses[db.payments[db.rows[i].payment].asset], st).Some?
    ensures Inv(Unsettle(db, i, db.houses[db.payments[db.rows[i].payment].asset], st).value)
  {
    var row := db.rows[i];
    var p := db.payments[row.payment];
    var house := db.houses[p.asset];
    if row.status == RowSettled {
      var e := UnsettleEntry(row.payment, p, house, st.block);
      TransferLines(house, p.dest, p.amount);
      PostKeeps(db, e);
      var d := Unsettle(db, i, house, st).value;
      forall q: PaymentId ensures NetSettles(d.journal, q) == LiveRows(d.rows, q) {
        MarkMoves(db.rows, i, d.rows[i], q);
      }
    }
  }

  lemma FinalizeKeeps(db: Db, tx: TxHash)
    requires Inv(db)
    ensures Inv(Finalize(db, tx))
  {
    var d := Finalize(db, tx);
    var at := Find(db.rows, tx);
    if at.Some? && db.rows[at.value].status == RowSettled {
      forall q: PaymentId ensures NetSettles(d.journal, q) == LiveRows(d.rows, q) {
        MarkMoves(db.rows, at.value, d.rows[at.value], q);
      }
    }
  }

  /**
   * A handled status keeps the money matched to the rows exactly when it is not a Confirmed posted over a finalized
   * row.
   */
  lemma HandleKeepsIff(db: Db, st: Status)
    requires Inv(db) && Handle(db, st).Some?
    ensures Inv(Handle(db, st).value) <==> !OverFinalized(db, st)
  {
    var at := Find(db.rows, st.tx);
    if OverFinalized(db, st) {
      var row := db.rows[at.value];
      var p := db.payments[row.payment];
      NetSettlesAppend(db.journal, SettleEntry(row.payment, p, db.houses[p.asset], st.block), row.payment);
      assert NetSettles(Handle(db, st).value.journal, row.payment) != LiveRows(db.rows, row.payment);
    } else if st.phase == Watcher.Finalized {
      FinalizeKeeps(db, st.tx);
    } else if at.Some? && st.phase == Watcher.Confirmed {
      SettleKeeps(db, at.value, st);
    } else if at.Some? && st.phase == Watcher.Reorged {
      UnsettleKeeps(db, at.value, st);
    }
  }

  lemma PaymentsKeep(db: Db, op: Op)
    requires Inv(db) && (op.Create? || op.Cancel?)
    ensures Inv(Next(db, op))
  {
    match op {
      case Create(id, p) =>
        if CreatePayment(db, id, p).Some? {
          TransferLines(p.source, p.dest, p.amount);
          PostKeeps(db, PaymentEntry(id, p));
          assert forall e :: FaithfulEntry(Post(db, PaymentEntry(id, p)).value, e) ==> FaithfulEntry(Next(db, op), e);
        }
      case Cancel(id) =>
        if CancelPayment(db, id).Some? {
          var p := db.payments[id];
          TransferLines(p.dest, p.source, p.amount);
          PostKeeps(db, ReversalEntry(id, p));
          assert forall e :: FaithfulEntry(Post(db, ReversalEntry(id, p)).value, e) ==> FaithfulEntry(Next(db, op), e);
        }
    }
  }

  lemma LinkKeeps(db: Db, id: PaymentId, tx: TxHash)
    requires Inv(db)
    ensures Inv(OrElse(Link(db, id, tx), db))
  {
    forall p: PaymentId ensures LiveRows(db.rows + [Row(tx, id, RowPending, None, None)], p) == LiveRows(db.rows, p) {
      RowSumAppend(db.rows, Row(tx, id, RowPending, None, None), CountOf(p));
    }
  }

  /** No applied Confirmed of the run meets a finalized row whose posting is accepted. */
  ghost predicate NeverDoubles(db: Db, ops: seq<Op>) {
    forall i :: 0 <= i < |ops| && ops[i].Deliver? && ops[i].applied ==> !DoubleSettles(Run(db, ops[..i]), ops[i].st)
  }

  lemma NextKeeps(db: Db, op: Op)
    requires Inv(db)
    requires op.Deliver? && op.applied ==> !DoubleSettles(db, op.st)
    ensures Inv(Next(db, op))
  {
    match op {
      case LinkTx(id, tx) => LinkKeeps(db, id, tx);
      case Deliver(st, applied) => if applied && Handle(db, st).Some? { HandleKeepsIff(db, st); }
      case _ => PaymentsKeep(db, op);
    }
  }

  lemma {:induction false} InvAlong(db: Db, ops: seq<Op>)
    requires Inv(db) && NeverDoubles(db, ops)
    ensures Inv(Run(db, ops))
  {
    if ops != [] {
      var n := |ops| - 1;
      assert forall i :: 0 <= i < n ==> ops[..n][i] == ops[i] && ops[..n][..i] == ops[..i];
      InvAlong(db, ops[..n]);
      NextKeeps(Run(db, ops[..n]), ops[n]);
    }
  }

  // ---------------------------------------------------------------- main results

  lemma {:induction false} EffectIsMoves(db: Db, journal: seq<Entry>, p: PaymentId, a: AccountId)
    requires p in db.payments && db.payments[p].asset in db.houses
    requires forall i :: 0 <= i < |journal| ==> FaithfulEntry(db, journal[i])
    ensures var pay := db.payments[p];
      Effect(journal, p, a) == NetSettles(journal, p) * Net(Transfer(pay.dest, db.houses[pay.asset], pay.amount), a)
  {
    if journal != [] {
      var before, e := journal[..|journal| - 1], journal[|journal| - 1];
      var pay := db.payments[p];
      var house := db.houses[pay.asset];
      EffectIsMoves(db, before, p, a);
      TransferLines(pay.dest, house, pay.amount);
      TransferLines(house, pay.dest, pay.amount);
      var one := Net(Transfer(pay.dest, house, pay.amount), a);
      assert FaithfulEntry(db, e);
      assert Effect(journal, p, a) == Effect(before, p, a) + Moves(e, p) * one;
      assert NetSettles(before, p) * one + Moves(e, p) * one == (NetSettles(before, p) + Moves(e, p)) * one;
    }
  }

  /**
   * In every run in which no Confirmed is posted over a finalized row, the settle and reversal entries of a payment
   * together move its amount from destination to house once per settled or finalized row, and nothing otherwise.
   */
  lemma MoneyFollowsRows(db0: Db, ops: seq<Op>, p: PaymentId, a: AccountId)
    requires Inv(db0) && NeverDoubles(db0, ops)
    requires var db := Run(db0, ops); p in db.payments && db.payments[p].asset in db.houses
    ensures var db := Run(db0, ops);
      var pay := db.payments[p];
      Effect(db.journal, p, a) == LiveRows(db.rows, p) * Net(Transfer(pay.dest, db.houses[pay.asset], pay.amount), a)
  {
    InvAlong(db0, ops);
    EffectIsMoves(Run(db0, ops), Run(db0, ops).journal, p, a);
  }

  /**
   * For a payment with a single row: its amount sits in the house while the row is live, and nowhere else but the
   * destination before.
   */
  lemma SingleRowMoney(db: Db, i: nat)
    requires Inv(db) && i < |db.rows| && db.payments[db.rows[i].payment].asset in db.houses
    requires forall j :: 0 <= j < |db.rows| && j != i ==> db.rows[j].payment != db.rows[i].payment
    ensures var p := db.rows[i].payment;
      var pay := db.payments[p];
      var house := db.houses[pay.asset];
      var moved: int := if Live(db.rows[i]) then pay.amount else 0;
      pay.dest != house ==>
        Effect(db.journal, p, house) == moved && Effect(db.journal, p, pay.dest) == -moved
  {
    var p := db.rows[i].payment;
    var pay := db.payments[p];
    var house := db.houses[pay.asset];
    RowSumUpdate(db.rows, i, db.rows[i].(status := RowPending), CountOf(p));
    RowSumSame(db.rows[i := db.rows[i].(status := RowPending)], CountOf(p), r => 0);
    RowSumZero(db.rows[i := db.rows[i].(status := RowPending)]);
    TransferLines(pay.dest, house, pay.amount);
    EffectIsMoves(db, db.journal, p, house);
    EffectIsMoves(db, db.journal, p, pay.dest);
  }

  lemma {:induction false} RowSumZero(rows: seq<Row>)
    ensures RowSum(rows, r => 0) == 0
  {
    if rows != [] { RowSumZero(rows[..|rows| - 1]); }
  }

  // ---------------------------------------------------------------- once per block

  /** What no operation ever takes back: posted keys, and the payment a transaction is bound to. */
  ghost predicate Extends(db: Db, d: Db) {
    && (forall kind, ref :: HasKey(db.journal, kind, ref) ==> HasKey(d.journal, kind, ref))
    && |db.rows| <= |d.rows|
    && (forall i :: 0 <= i < |db.rows| ==> d.rows[i].tx == db.rows[i].tx && d.rows[i].payment == db.rows[i].payment)
  }

  lemma JournalGrows(db: Db, op: Op)
    ensures db.journal <= Next(db, op).journal
  {}

  lemma RowsStayBound(db: Db, op: Op)
    ensures var d := Next(db, op);
      && |db.rows| <= |d.rows|
      && forall i :: 0 <= i < |db.rows| ==> d.rows[i].tx == db.rows[i].tx && d.rows[i].payment == db.rows[i].payment
  {}

  lemma NextExtends(db: Db, op: Op)
    ensures Extends(db, Next(db, op))
  {
    JournalGrows(db, op);
    RowsStayBound(db, op);
    KeysSurvive(db.journal, Next(db, op).journal);
  }

  lemma KeysSurvive(j: seq<Entry>, j': seq<Entry>)
    requires j <= j'
    ensures forall kind, ref :: HasKey(j, kind, ref) ==> HasKey(j', kind, ref)
  {
    forall kind, ref | HasKey(j, kind, ref) ensures HasKey(j', kind, ref) {
      var i :| 0 <= i < |j| && j[i].kind == kind && j[i].ref == ref;
      assert j'[i] == j[i];
    }
  }

  lemma {:induction false} RunExtends(db: Db, ops: seq<Op>)
    ensures Extends(db, Run(db, ops))
  {
    if ops != [] {
      RunExtends(db, ops[..|ops| - 1]);
      NextExtends(Run(db, ops[..|ops| - 1]), ops[|ops| - 1]);
    }
  }

  lemma NextKeepsAccounts(db: Db, op: Op)
    ensures Next(db, op).houses == db.houses && Next(db, op).accounts == db.accounts
    ensures db.payments.Keys <= Next(db, op).payments.Keys
  {}

  /** A new row is a new binding of an existing payment. */
  lemma NewRowIsLink(db: Db, op: Op)
    requires |Next(db, op).rows| > |db.rows|
    ensures op.LinkTx? && op.id in db.payments && Find(db.rows, op.tx).None?
    ensures Next(db, op).rows == db.rows + [Row(op.tx, op.id, RowPending, None, None)]
  {}

  /** No operation, whatever it is, unbinds a transaction or binds it twice. */
  lemma NextKeepsLinked(db: Db, op: Op)
    requires Linked(db)
    ensures Linked(Next(db, op))
  {
    NextKeepsAccounts(db, op);
    RowsStayBound(db, op);
    if |Next(db, op).rows| > |db.rows| { NewRowIsLink(db, op); }
  }

  lemma {:induction false} LinkedAlong(db: Db, ops: seq<Op>)
    requires Linked(db)
    ensures Linked(Run(db, ops))
  {
    if ops != [] {
      LinkedAlong(db, ops[..|ops| - 1]);
      NextKeepsLinked(Run(db, ops[..|ops| - 1]), ops[|ops| - 1]);
    }
  }

  /**
   * A block settles a payment once: however the run goes on, a later Confirmed at that block finds the row settled
   * already or is refused, so a row that was reorged out of a block never settles there again.
   */
  lemma BlockSettlesOnce(db: Db, ops: seq<Op>, i: nat, st: Status)
    requires i < |db.rows| && db.rows[i].tx == st.tx && st.phase == Watcher.Confirmed
    requires HasKey(db.journal, SETTLE, SettleRef(db.rows[i].payment, st.block))
    requires Linked(db)
    ensures var d := Run(db, ops);
      Handle(d, st).None? || (i < |d.rows| && d.rows[i].status == RowSettled && Handle(d, st) == Some(d))
  {
    RunExtends(db, ops);
    LinkedAlong(db, ops);
    assert HasKey(Run(db, ops).journal, SETTLE, SettleRef(db.rows[i].payment, st.block));
    RepeatIsRefused(Run(db, ops), i, st);
  }

  lemma RepeatIsRefused(db: Db, i: nat, st: Status)
    requires Linked(db) && i < |db.rows| && db.rows[i].tx == st.tx && st.phase == Watcher.Confirmed
    requires HasKey(db.journal, SETTLE, SettleRef(db.rows[i].payment, st.block))
    ensures Handle(db, st).None? || (db.rows[i].status == RowSettled && Handle(db, st) == Some(db))
  {
    assert Find(db.rows, st.tx) == Some(i);
  }
}
