/**
 * Watcher, sink and rescan together: polls, dispatches, failed deliveries, re-seeding and crashes over one database.
 */
module Pipeline {
  import opened Base
  import Ledger
  import opened Store
  import opened Settlement
  import opened Money
  import opened Language
  import W = Watcher

  /**
   * `todo` holds the keys the current pass has yet to visit, `pending` the statuses it has emitted but not delivered,
   * `listed` the rows rescan has read and seeds from. `stale` remembers the keys evicted since that list was read, or
   * evicted before it with their Finalized still undelivered then.
   */
  datatype Sys = Sys(cfg: W.Config, db: Db, watcher: map<TxHash, W.Tracked>, todo: set<TxHash>, pending: seq<Status>,
                     listed: seq<Row>, stale: set<TxHash>)

  /** How a delivery ends: committed and acknowledged, rolled back, or committed with the acknowledgement lost. */
  datatype Outcome = Lands | RollsBack | Unacknowledged

  datatype Step =
    | StartPass
    | Visit(tx: TxHash, head: uint64, receipt: W.ReceiptReply, header: W.HeaderReply)
    | Hand(outcome: Outcome)
    | List
    | Seed(i: nat)
    | Crash
    | Other(op: Op)

  // ---------------------------------------------------------------- steps

  predicate Awaits(pending: seq<Status>, tx: TxHash) { exists k :: 0 <= k < |pending| && pending[k].tx == tx }

  /** The registration seed chooses for a listed row; None when the hash or the anchor is refused. */
  function Registration(cfg: W.Config, row: Row): Option<W.Tracked> {
    if !W.IsHexTxHash(row.tx) then None
    else if row.status == RowSettled && row.anchor.Some? then
      if row.anchor.value.block.Some? then Some(W.Resumed(cfg, row.anchor.value.block.value, row.anchor.value.number))
          else None
    else Some(W.Fresh())
  }

  /** The rows the watcher is to follow: all but the finalized ones. */
  function Feed(rows: seq<Row>): (feed: seq<Row>)
    ensures forall r :: r in feed <==> r in rows && r.status != RowFinalized
  {
    if rows == [] then []
    else
      var r := rows[|rows| - 1];
      Feed(rows[..|rows| - 1]) + if r.status != RowFinalized then [r] else []
  }

  /** The keys whose Finalized is not delivered yet. */
  function Finalizing(pending: seq<Status>): set<TxHash> { set st | st in pending && st.phase == W.Finalized :: st.tx }

  /** A pass runs to its end before its statuses are handed over. Rescan reads and seeds at any moment. */
  predicate Enabled(s: Sys, step: Step) {
    match step
    case StartPass => s.todo == {} && s.pending == []
    case Visit(tx, _, _, _) => tx in s.todo && tx in s.watcher
    case Hand(_) => s.todo == {} && s.pending != []
    case List => true
    case Seed(i) => i < |s.listed|
    case Crash => true
    case Other(op) => !op.Deliver?
  }

  predicate Applied(s: Sys, outcome: Outcome)
    requires s.pending != []
  {
    Handle(s.db, s.pending[0]).Some? && outcome != RollsBack
  }

  /**
   * The delivery of the first pending status: the database moves or not, and a failed Confirmed rolls its entry back.
   */
  function Handed(s: Sys, outcome: Outcome): Sys
    requires s.pending != []
  {
    var st := s.pending[0];
    var db := if Applied(s, outcome) then Handle(s.db, st).value else s.db;
    var failed := !(Applied(s, outcome) && outcome == Lands);
    var watcher := if failed && st.phase == W.Confirmed && st.tx in s.watcher
                   then s.watcher[st.tx := W.RolledBack(s.watcher[st.tx])] else s.watcher;
    s.(db := db, watcher := watcher, pending := s.pending[1..])
  }

  function Visited(s: Sys, tx: TxHash, o: W.Observation): Sys {
    s.(watcher := W.After(s.watcher, tx, o), todo := s.todo - {tx}, pending := s.pending + W.Listed(o),
       stale := if o.entry.None? then s.stale + {tx} else s.stale)
  }

  /** Registers a row as it was listed, whatever became of it since. */
  function Seeded(s: Sys, row: Row): Sys {
    var t := Registration(s.cfg, row);
    if t.Some? && row.tx !in s.watcher then s.(watcher := s.watcher[row.tx := t.value]) else s
  }

  function Do(s: Sys, step: Step): Sys
    requires Enabled(s, step)
  {
    match step
    case StartPass => s.(todo := s.watcher.Keys)
    case Visit(tx, head, receipt, header) => Visited(s, tx, W.Observe(s.cfg, tx, s.watcher[tx], head, receipt, header))
    case Hand(outcome) => Handed(s, outcome)
    case List => s.(listed := Feed(s.db.rows), stale := Finalizing(s.pending))
    case Seed(i) => Seeded(s, s.listed[i])
    case Crash => s.(watcher := map[], todo := {}, pending := [], listed := [], stale := {})
    case Other(op) => s.(db := Next(s.db, op))
  }

  // ---------------------------------------------------------------- rows by transaction

  function RowAt(rows: seq<Row>, tx: TxHash): Option<Row> {
    if Find(rows, tx).None? then None else Some(rows[Find(rows, tx).value])
  }

  ghost predicate OneRowEach(rows: seq<Row>) { forall i, j :: 0 <= i < j < |rows| ==> rows[i].tx != rows[j].tx }

  lemma RowIsAt(rows: seq<Row>, i: nat)
    requires OneRowEach(rows) && i < |rows|
    ensures Find(rows, rows[i].tx) == Some(i) && RowAt(rows, rows[i].tx) == Some(rows[i])
  {}

  lemma UpdateRowAt(rows: seq<Row>, i: nat, r: Row, tx: TxHash)
    requires OneRowEach(rows) && i < |rows| && r.tx == rows[i].tx
    ensures RowAt(rows[i := r], tx) == if tx == r.tx then Some(r) else RowAt(rows, tx)
  {
    var rows' := rows[i := r];
    assert OneRowEach(rows');
    if tx == r.tx {
      RowIsAt(rows', i);
    } else if Find(rows, tx).Some? {
      assert rows'[Find(rows, tx).value].tx == tx;
      RowIsAt(rows', Find(rows, tx).value);
    }
  }

  lemma AppendRowAt(rows: seq<Row>, r: Row, tx: TxHash)
    ensures RowAt(rows + [r], tx) == if tx == r.tx then Some(r) else RowAt(rows, tx)
  {
    assert (rows + [r])[..|rows|] == rows;
  }

  /** The rows differ at most in the row of `tx`. */
  ghost predicate OnlyMoves(rows: seq<Row>, rows': seq<Row>, tx: TxHash) {
    forall u :: u != tx ==> RowAt(rows', u) == RowAt(rows, u)
  }

  /** What a handled status does to its own row when that row is not finalized; all other rows stay. */
  lemma HandleMovesRow(db: Db, st: Status)
    requires Linked(db) && Handle(db, st).Some? && RowAt(db.rows, st.tx).Some?
    ensures var d := Handle(db, st).value;
      var row := RowAt(db.rows, st.tx).value;
      && OnlyMoves(db.rows, d.rows, st.tx)
      && RowAt(d.rows, st.tx) == Some(
           match st.phase
           case Confirmed =>
             if row.status == RowSettled || row.status == RowFinalized then row
             else row.(status := RowSettled, settleEntry := Some(|db.journal|),
                       anchor := Some(Anchor(st.block, st.number)))
           case Reorged => if row.status == RowSettled then row.(status := RowReorged, anchor := None) else row
           case Finalized => if row.status == RowSettled then row.(status := RowFinalized) else row
           case _ => row)
  {
    var d := Handle(db, st).value;
    var i := Find(db.rows, st.tx).value;
    assert d.rows == db.rows[i := d.rows[i]] && d.rows[i].tx == st.tx;
    forall u ensures RowAt(d.rows, u) == if u == st.tx then Some(d.rows[i]) else RowAt(db.rows, u) {
      UpdateRowAt(db.rows, i, d.rows[i], u);
    }
  }

  // ---------------------------------------------------------------- the safety invariant

  /** A tracked transaction has a row that is not finalized; outside a hand-over, Confirmed means settled. */
  predicate EntrySafe(rows: seq<Row>, t: W.Tracked, tx: TxHash, awaits: bool) {
    && EntryOk(t)
    && RowAt(rows, tx).Some? && RowAt(rows, tx).value.status != RowFinalized
    && (t.phase == W.Confirmed && !awaits ==> RowAt(rows, tx).value.status == RowSettled)
  }

  /** A pending status still describes its entry: nothing moved it between the pass and the hand-over. */
  predicate StatusSafe(rows: seq<Row>, watcher: map<TxHash, W.Tracked>, st: Status) {
    && RowAt(rows, st.tx).Some? && RowAt(rows, st.tx).value.status != RowFinalized
    && match st.phase
       case Mined => st.tx in watcher && watcher[st.tx].phase == W.Mined
       case Confirmed => st.tx in watcher && watcher[st.tx].phase == W.Confirmed
       case Reorged => st.tx in watcher && watcher[st.tx].phase == W.Pending
       case Finalized => st.tx !in watcher && RowAt(rows, st.tx).value.status == RowSettled
       case Pending => false
  }

  ghost predicate Distinct(pending: seq<Status>, todo: set<TxHash>) {
    && (forall j, k :: 0 <= j < k < |pending| ==> pending[j].tx != pending[k].tx)
    && (forall k :: 0 <= k < |pending| ==> pending[k].tx !in todo)
  }

  ghost predicate Safe(rows: seq<Row>, watcher: map<TxHash, W.Tracked>, todo: set<TxHash>, pending: seq<Status>) {
    && Distinct(pending, todo)
    && (forall tx | tx in watcher :: EntrySafe(rows, watcher[tx], tx, Awaits(pending, tx)))
    && (forall k :: 0 <= k < |pending| ==> StatusSafe(rows, watcher, pending[k]))
  }

  /**
   * What a listed row still says once its key is not tracked: all of it, unless it is stale, and then the row is
   * settled or finalized by now.
   */
  predicate ListedOk(now: Option<Row>, tracked: bool, awaits: bool, stale: bool, r: Row) {
    && now.Some? && r.status != RowFinalized
    && (!tracked ==>
        if stale then now.value.status == RowSettled || now.value.status == RowFinalized else now.value == r && !awaits)
  }

  ghost predicate Lists(rows: seq<Row>, watcher: map<TxHash, W.Tracked>, pending: seq<Status>, listed: seq<Row>,
                        stale: set<TxHash>) {
    forall r | r in listed :: ListedOk(RowAt(rows, r.tx), r.tx in watcher, Awaits(pending, r.tx), r.tx in stale, r)
  }

  ghost predicate SafeInv(s: Sys) {
    && s.cfg.Valid() && Inv(s.db) && Safe(s.db.rows, s.watcher, s.todo, s.pending)
    && Lists(s.db.rows, s.watcher, s.pending, s.listed, s.stale)
  }

  lemma AwaitsAppend(pending: seq<Status>, more: seq<Status>, tx: TxHash)
    ensures Awaits(pending + more, tx) == (Awaits(pending, tx) || Awaits(more, tx))
  {
    if Awaits(pending, tx) {
      var k :| 0 <= k < |pending| && pending[k].tx == tx;
      assert (pending + more)[k].tx == tx;
    }
    if Awaits(more, tx) {
      var k :| 0 <= k < |more| && more[k].tx == tx;
      assert (pending + more)[|pending| + k].tx == tx;
    }
  }

  lemma AwaitsRest(pending: seq<Status>, tx: TxHash)
    requires pending != [] && Distinct(pending, {})
    ensures Awaits(pending[1..], tx) == (Awaits(pending, tx) && tx != pending[0].tx)
  {
    assert pending == pending[..1] + pending[1..];
    AwaitsAppend(pending[..1], pending[1..], tx);
    assert Awaits(pending[..1], tx) <==> pending[..1][0].tx == tx;
  }

  lemma VisitKeepsSafe(s: Sys, tx: TxHash, head: uint64, receipt: W.ReceiptReply, header: W.HeaderReply)
    requires SafeInv(s) && tx in s.todo && tx in s.watcher
    ensures SafeInv(Visited(s, tx, W.Observe(s.cfg, tx, s.watcher[tx], head, receipt, header)))
  {
    var o := W.Observe(s.cfg, tx, s.watcher[tx], head, receipt, header);
    NothingSwallowed(s.cfg, tx, s.watcher[tx], head, receipt, header);
    VisitSafe(s.db.rows, s.watcher, s.todo, s.pending, tx, o);
    VisitLists(s, tx, o);
  }

  /** An eviction makes the key stale, over a settled row; other visits leave the key tracked. */
  lemma VisitLists(s: Sys, tx: TxHash, o: W.Observation)
    requires SafeInv(s) && tx in s.todo && tx in s.watcher && Surfaces(s.watcher[tx], o, tx)
    ensures var s' := Visited(s, tx, o); Lists(s'.db.rows, s'.watcher, s'.pending, s'.listed, s'.stale)
  {
    var s' := Visited(s, tx, o);
    assert !Awaits(s.pending, tx) && EntrySafe(s.db.rows, s.watcher[tx], tx, false);
    forall r | r in s'.listed
      ensures ListedOk(RowAt(s'.db.rows, r.tx), r.tx in s'.watcher, Awaits(s'.pending, r.tx), r.tx in s'.stale, r)
    {
      AwaitsAppend(s.pending, W.Listed(o), r.tx);
      assert o.status.Some? ==> W.Listed(o)[0].tx == tx;
    }
  }

  lemma VisitSafe(rows: seq<Row>, watcher: map<TxHash, W.Tracked>, todo: set<TxHash>, pending: seq<Status>, tx: TxHash,
                  o: W.Observation)
    requires Safe(rows, watcher, todo, pending) && tx in todo && tx in watcher && Surfaces(watcher[tx], o, tx)
    ensures Safe(rows, W.After(watcher, tx, o), todo - {tx}, pending + W.Listed(o))
  {
    var watcher', pending' := W.After(watcher, tx, o), pending + W.Listed(o);
    forall u ensures Awaits(pending', u) == (Awaits(pending, u) || (o.status.Some? && u == tx)) {
      AwaitsAppend(pending, W.Listed(o), u);
      assert o.status.Some? ==> W.Listed(o)[0].tx == tx;
    }
    assert !Awaits(pending, tx);
    forall k | 0 <= k < |pending'| ensures StatusSafe(rows, watcher', pending'[k]) {
      assert k < |pending| ==> pending'[k] == pending[k];
      assert EntrySafe(rows, watcher[tx], tx, false);
    }
  }

  lemma HandSafe(rows: seq<Row>, rows': seq<Row>, watcher: map<TxHash, W.Tracked>, pending: seq<Status>, failed: bool)
    requires Safe(rows, watcher, {}, pending) && pending != []
    requires var st := pending[0];
      && OnlyMoves(rows, rows', st.tx) && RowAt(rows', st.tx).Some?
      && (st.phase != W.Finalized ==> RowAt(rows', st.tx).value.status != RowFinalized)
      && (st.phase == W.Confirmed && !failed ==> RowAt(rows', st.tx).value.status == RowSettled)
    ensures var st := pending[0];
      var watcher' := if failed && st.phase == W.Confirmed && st.tx in watcher
          then watcher[st.tx := W.RolledBack(watcher[st.tx])] else watcher;
      Safe(rows', watcher', {}, pending[1..])
  {
    var st := pending[0];
    var watcher' := if failed && st.phase == W.Confirmed && st.tx in watcher
        then watcher[st.tx := W.RolledBack(watcher[st.tx])] else watcher;
    assert StatusSafe(rows, watcher, st);
    forall u | u in watcher' ensures EntrySafe(rows', watcher'[u], u, Awaits(pending[1..], u)) {
      AwaitsRest(pending, u);
      assert EntrySafe(rows, watcher[u], u, Awaits(pending, u));
    }
    forall k | 0 <= k < |pending[1..]| ensures StatusSafe(rows', watcher', pending[1..][k]) {
      assert pending[1..][k] == pending[k + 1] && StatusSafe(rows, watcher, pending[k + 1]);
      assert pending[0].tx != pending[k + 1].tx;
    }
  }

  lemma HandKeepsEntries(s: Sys, outcome: Outcome)
    requires SafeInv(s) && Enabled(s, Hand(outcome))
    ensures var s' := Handed(s, outcome); Inv(s'.db) && Safe(s'.db.rows, s'.watcher, s'.todo, s'.pending)
    ensures !OverFinalized(s.db, s.pending[0])
  {
    var st := s.pending[0];
    assert StatusSafe(s.db.rows, s.watcher, st);
    if Applied(s, outcome) {
      HandleMovesRow(s.db, st);
      HandleKeepsIff(s.db, st);
    }
    HandSafe(s.db.rows, Handed(s, outcome).db.rows, s.watcher, s.pending, !(Applied(s, outcome) && outcome == Lands));
  }

  lemma HandKeepsSafe(s: Sys, outcome: Outcome)
    requires SafeInv(s) && Enabled(s, Hand(outcome))
    ensures SafeInv(Handed(s, outcome))
    ensures !OverFinalized(s.db, s.pending[0])
  {
    HandKeepsEntries(s, outcome);
    HandMoves(s, outcome);
    HandLists(s, Handed(s, outcome));
  }

  /** Only a Finalized moves the row of a key that is not tracked, and that key is stale. */
  lemma HandLists(s: Sys, s': Sys)
    requires SafeInv(s) && s.todo == {} && s.pending != [] && s'.pending == s.pending[1..]
    requires s'.watcher.Keys == s.watcher.Keys && s'.listed == s.listed && s'.stale == s.stale
    requires OnlyMoves(s.db.rows, s'.db.rows, s.pending[0].tx) && RowAt(s'.db.rows, s.pending[0].tx).Some?
    requires s.pending[0].phase == W.Finalized ==>
        RowAt(s'.db.rows, s.pending[0].tx).value.status in {RowSettled, RowFinalized}
    ensures Lists(s'.db.rows, s'.watcher, s'.pending, s'.listed, s'.stale)
  {
    var st := s.pending[0];
    assert StatusSafe(s.db.rows, s.watcher, st) && Awaits(s.pending, st.tx);
    forall r | r in s'.listed
      ensures ListedOk(RowAt(s'.db.rows, r.tx), r.tx in s'.watcher, Awaits(s'.pending, r.tx), r.tx in s'.stale, r)
    {
      AwaitsRest(s.pending, r.tx);
      assert ListedOk(RowAt(s.db.rows, r.tx), r.tx in s.watcher, Awaits(s.pending, r.tx), r.tx in s.stale, r);
    }
  }

  // ---------------------------------------------------------------- rescan

  lemma ListKeepsSafe(s: Sys)
    requires SafeInv(s)
    ensures SafeInv(Do(s, List))
  {
    var s' := Do(s, List);
    forall r | r in s'.listed
      ensures ListedOk(RowAt(s'.db.rows, r.tx), r.tx in s'.watcher, Awaits(s'.pending, r.tx), r.tx in s'.stale, r)
    {
      var i :| 0 <= i < |s.db.rows| && s.db.rows[i] == r;
      RowIsAt(s.db.rows, i);
      if Awaits(s.pending, r.tx) {
        var k :| 0 <= k < |s.pending| && s.pending[k].tx == r.tx;
        assert StatusSafe(s.db.rows, s.watcher, s.pending[k]);
        assert s.pending[k] in s.pending;
      }
      if r.tx in s'.stale {
        var st :| st in s.pending && st.phase == W.Finalized && st.tx == r.tx;
        var k :| 0 <= k < |s.pending| && s.pending[k] == st;
        assert StatusSafe(s.db.rows, s.watcher, s.pending[k]);
      }
    }
  }

  /**
   * The seed registers its key anew although the row is finalized by now, or its Finalized is still to be delivered.
   */
  predicate Resurrects(s: Sys, step: Step) {
    step.Seed? && step.i < |s.listed| && var r := s.listed[step.i];
      && r.tx !in s.watcher && Registration(s.cfg, r).Some?
      && (Awaits(s.pending, r.tx)
          || (RowAt(s.db.rows, r.tx).Some? && RowAt(s.db.rows, r.tx).value.status == RowFinalized))
  }

  /**
   * A seed, from however old a list, keeps entries and rows in agreement exactly when it does not resurrect its key.
   */
  lemma SeedKeepsIff(s: Sys, i: nat)
    requires SafeInv(s) && Enabled(s, Seed(i))
    ensures SafeInv(Do(s, Seed(i))) <==> !Resurrects(s, Seed(i))
  {
    var r := s.listed[i];
    assert ListedOk(RowAt(s.db.rows, r.tx), r.tx in s.watcher, Awaits(s.pending, r.tx), r.tx in s.stale, r);
    if Resurrects(s, Seed(i)) {
      ResurrectionBreaks(s, r);
    } else {
      SeedSafe(s.db.rows, s.watcher, s.todo, s.pending, r, Registration(s.cfg, r));
    }
  }

  lemma ResurrectionBreaks(s: Sys, r: Row)
    requires SafeInv(s) && r.tx !in s.watcher && Registration(s.cfg, r).Some? && RowAt(s.db.rows, r.tx).Some?
    requires Awaits(s.pending, r.tx) || RowAt(s.db.rows, r.tx).value.status == RowFinalized
    ensures !SafeInv(Seeded(s, r))
  {
    var s' := Seeded(s, r);
    if Awaits(s.pending, r.tx) {
      var k :| 0 <= k < |s.pending| && s.pending[k].tx == r.tx;
      assert StatusSafe(s.db.rows, s.watcher, s.pending[k]);
      assert !StatusSafe(s'.db.rows, s'.watcher, s'.pending[k]);
    } else {
      assert !EntrySafe(s'.db.rows, s'.watcher[r.tx], r.tx, Awaits(s'.pending, r.tx));
    }
  }

  lemma SeedSafe(rows: seq<Row>, watcher: map<TxHash, W.Tracked>, todo: set<TxHash>, pending: seq<Status>, r: Row,
                 t: Option<W.Tracked>)
    requires Safe(rows, watcher, todo, pending) && RowAt(rows, r.tx).Some?
    requires r.tx !in watcher && t.Some? ==> RowAt(rows, r.tx).value.status != RowFinalized && !Awaits(pending, r.tx)
    requires r.tx !in watcher && t.Some? ==>
      EntryOk(t.value) && (t.value.phase == W.Confirmed ==> RowAt(rows, r.tx).value.status == RowSettled)
    ensures t.Some? && r.tx !in watcher ==> Safe(rows, watcher[r.tx := t.value], todo, pending)
  {
    if t.Some? && r.tx !in watcher {
      var watcher' := watcher[r.tx := t.value];
      forall k | 0 <= k < |pending| ensures StatusSafe(rows, watcher', pending[k]) {
        assert StatusSafe(rows, watcher, pending[k]);
      }
    }
  }

  /**
   * The discipline rescan would have to follow: no key is seeded from a list that its eviction or its Finalized has
   * overtaken.
   */
  predicate Timely(s: Sys, step: Step) { step.Seed? && step.i < |s.listed| ==> s.listed[step.i].tx !in s.stale }

  /** A timely seed finds the row as it was listed, so it resurrects nothing. */
  lemma TimelySeedIsCurrent(s: Sys, i: nat)
    requires SafeInv(s) && Enabled(s, Seed(i)) && Timely(s, Seed(i))
    ensures !Resurrects(s, Seed(i))
    ensures s.listed[i].tx !in s.watcher ==>
        RowAt(s.db.rows, s.listed[i].tx) == Some(s.listed[i]) && !Awaits(s.pending, s.listed[i].tx)
  {
    var r := s.listed[i];
    assert ListedOk(RowAt(s.db.rows, r.tx), r.tx in s.watcher, Awaits(s.pending, r.tx), r.tx in s.stale, r);
  }

  /** The rows only gain bindings. */
  lemma OtherRows(db: Db, op: Op)
    requires !op.Deliver?
    ensures forall tx :: RowAt(db.rows, tx).Some? ==> RowAt(Next(db, op).rows, tx) == RowAt(db.rows, tx)
  {
    var rows' := Next(db, op).rows;
    if rows' != db.rows {
      assert rows' == db.rows + [Row(op.tx, op.id, RowPending, None, None)];
      forall tx ensures RowAt(rows', tx) == if tx == op.tx then Some(rows'[|db.rows|]) else RowAt(db.rows, tx) {
        AppendRowAt(db.rows, rows'[|db.rows|], tx);
      }
    }
  }

  lemma SafeGrows(rows: seq<Row>, rows': seq<Row>, watcher: map<TxHash, W.Tracked>, todo: set<TxHash>,
                  pending: seq<Status>)
    requires Safe(rows, watcher, todo, pending)
    requires forall tx :: RowAt(rows, tx).Some? ==> RowAt(rows', tx) == RowAt(rows, tx)
    ensures Safe(rows', watcher, todo, pending)
  {
    forall u | u in watcher ensures EntrySafe(rows', watcher[u], u, Awaits(pending, u)) {
      assert EntrySafe(rows, watcher[u], u, Awaits(pending, u));
    }
    forall k | 0 <= k < |pending| ensures StatusSafe(rows', watcher, pending[k]) {
      assert StatusSafe(rows, watcher, pending[k]);
    }
  }

  lemma StepKeepsSafe(s: Sys, step: Step)
    requires SafeInv(s) && Enabled(s, step) && !Resurrects(s, step)
    ensures SafeInv(Do(s, step))
  {
    match step {
      case Visit(tx, head, receipt, header) => VisitKeepsSafe(s, tx, head, receipt, header);
      case Hand(outcome) => HandKeepsSafe(s, outcome);
      case List => ListKeepsSafe(s);
      case Seed(i) => SeedKeepsIff(s, i);
      case Other(op) =>
        NextKeeps(s.db, op);
        OtherRows(s.db, op);
        SafeGrows(s.db.rows, Next(s.db, op).rows, s.watcher, s.todo, s.pending);
      case Crash =>
      case StartPass =>
    }
  }

  // ---------------------------------------------------------------- runs

  /** The process holds nothing: freshly started, or just crashed. */
  predicate Down(s: Sys) { s.watcher == map[] && s.todo == {} && s.pending == [] && s.listed == [] && s.stale == {} }

  ghost predicate Booted(s: Sys) { s.cfg.Valid() && Inv(s.db) && Down(s) }

  ghost predicate Advances(s: Sys, s': Sys) {
    exists step :: Enabled(s, step) && !Resurrects(s, step) && s' == Do(s, step)
  }

  ghost predicate AdvancesTimely(s: Sys, s': Sys) {
    exists step :: Enabled(s, step) && Timely(s, step) && s' == Do(s, step)
  }

  ghost predicate Behavior(run: seq<Sys>) {
    && run != [] && Booted(run[0])
    && forall i :: 0 <= i < |run| - 1 ==> Advances(run[i], run[i + 1])
  }

  lemma {:induction false} SafeAlong(run: seq<Sys>)
    requires Behavior(run)
    ensures SafeInv(run[|run| - 1])
  {
    if |run| > 1 {
      var before := run[..|run| - 1];
      SafeAlong(before);
      var s, s' := before[|before| - 1], run[|run| - 1];
      assert Advances(run[|run| - 2], run[|run| - 1]);
      var step :| Enabled(s, step) && !Resurrects(s, step) && s' == Do(s, step);
      StepKeepsSafe(s, step);
    }
  }

  lemma TimelyStep(s: Sys, s': Sys)
    requires SafeInv(s) && AdvancesTimely(s, s')
    ensures SafeInv(s') && Advances(s, s')
  {
    var step :| Enabled(s, step) && Timely(s, step) && s' == Do(s, step);
    if step.Seed? { TimelySeedIsCurrent(s, step.i); }
    StepKeepsSafe(s, step);
  }

  lemma {:induction false} TimelyAlong(run: seq<Sys>, i: nat)
    requires i < |run| && Booted(run[0])
    requires forall k :: 0 <= k < |run| - 1 ==> AdvancesTimely(run[k], run[k + 1])
    ensures SafeInv(run[i])
  {
    if i > 0 {
      TimelyAlong(run, i - 1);
      assert AdvancesTimely(run[i - 1], run[i - 1 + 1]);
      TimelyStep(run[i - 1], run[i]);
    }
  }

  /** Runs in which every seed is timely resurrect nothing, so everything below holds of them. */
  lemma TimelyRunsResurrectNothing(run: seq<Sys>)
    requires run != [] && Booted(run[0])
    requires forall i :: 0 <= i < |run| - 1 ==> AdvancesTimely(run[i], run[i + 1])
    ensures Behavior(run)
  {
    forall i | 0 <= i < |run| - 1 ensures Advances(run[i], run[i + 1]) {
      TimelyAlong(run, i);
      TimelyStep(run[i], run[i + 1]);
    }
  }

  /**
   * With one watcher whose rescan, however old its list, resurrects no key, over all faults, failed deliveries and
   * crashes: a tracked transaction's row is never finalized, Confirmed means settled once the hand-over is done, the
   * money matches the rows, and the next delivery cannot settle twice.
   */
  lemma WatcherAgreesWithRows(run: seq<Sys>)
    requires Behavior(run)
    ensures var s := run[|run| - 1];
      && Inv(s.db)
      && (forall tx | tx in s.watcher ::
            && RowAt(s.db.rows, tx).Some? && RowAt(s.db.rows, tx).value.status != RowFinalized
            && (s.watcher[tx].phase == W.Confirmed && !Awaits(s.pending, tx) ==>
                RowAt(s.db.rows, tx).value.status == RowSettled))
      && (s.pending != [] && s.todo == {} ==> !OverFinalized(s.db, s.pending[0]))
  {
    SafeAlong(run);
    var s := run[|run| - 1];
    forall tx | tx in s.watcher
      ensures RowAt(s.db.rows, tx).Some? && RowAt(s.db.rows, tx).value.status != RowFinalized
      ensures s.watcher[tx].phase == W.Confirmed && !Awaits(s.pending, tx) ==>
          RowAt(s.db.rows, tx).value.status == RowSettled
    {
      assert EntrySafe(s.db.rows, s.watcher[tx], tx, Awaits(s.pending, tx));
    }
    if s.pending != [] && s.todo == {} { HandKeepsSafe(s, Lands); }
  }

  /**
   * So in every such run a payment's settle and reversal entries move its amount to the house once per settled or
   * finalized row, and no more.
   */
  lemma MoneyInEveryRun(run: seq<Sys>, p: PaymentId, a: AccountId)
    requires Behavior(run)
    requires var db := run[|run| - 1].db; p in db.payments && db.payments[p].asset in db.houses
    ensures var db := run[|run| - 1].db;
      var pay := db.payments[p];
      Effect(db.journal, p, a) ==
          LiveRows(db.rows, p) * Ledger.Net(Transfer(pay.dest, db.houses[pay.asset], pay.amount), a)
  {
    SafeAlong(run);
    EffectIsMoves(run[|run| - 1].db, run[|run| - 1].db.journal, p, a);
  }

  // ---------------------------------------------------------------- exact correspondence

  predicate AnchoredRow(r: Row) {
    r.status == RowSettled ==> r.anchor.Some? && r.anchor.value.block.Some? && r.anchor.value.number != 0
  }

  /** Every settled row names its block, and so does every entry that has one; block zero carries no transaction. */
  ghost predicate Anchors(rows: seq<Row>, watcher: map<TxHash, W.Tracked>, pending: seq<Status>, listed: seq<Row>) {
    && (forall tx :: RowAt(rows, tx).Some? ==> AnchoredRow(RowAt(rows, tx).value))
    && (forall r | r in listed :: AnchoredRow(r))
    && (forall tx | tx in watcher :: watcher[tx].phase != W.Pending ==> watcher[tx].number != 0)
    && (forall k :: 0 <= k < |pending| && pending[k].phase == W.Confirmed ==>
        pending[k].block.Some? && pending[k].number != 0)
  }

  /** Confirmed exactly when settled, at the same block. */
  predicate EntryExact(row: Row, t: W.Tracked) {
    && (t.phase == W.Confirmed <==> row.status == RowSettled)
    && (t.phase == W.Confirmed ==> row.anchor == Some(Anchor(Some(t.hash), t.number)))
  }

  predicate StatusExact(row: Row, t: W.Tracked, st: Status) {
    && (st.phase == W.Mined || st.phase == W.Confirmed ==> row.status != RowSettled)
    && (st.phase == W.Confirmed ==> st.block == Some(t.hash) && st.number == t.number)
  }

  ghost predicate Exact(rows: seq<Row>, watcher: map<TxHash, W.Tracked>, pending: seq<Status>) {
    && (forall tx | tx in watcher ::
          RowAt(rows, tx).Some? && (!Awaits(pending, tx) ==> EntryExact(RowAt(rows, tx).value, watcher[tx])))
    && (forall k :: 0 <= k < |pending| && pending[k].tx in watcher ==>
        StatusExact(RowAt(rows, pending[k].tx).value, watcher[pending[k].tx], pending[k]))
  }

  ghost predicate AnchorInv(s: Sys) { Anchors(s.db.rows, s.watcher, s.pending, s.listed) }

  ghost predicate ExactInv(s: Sys) { Exact(s.db.rows, s.watcher, s.pending) }

  /** The visit of a pending entry whose receipt names block zero. */
  predicate AtGenesis(s: Sys, step: Step) {
    && step.Visit? && step.tx in s.watcher && s.watcher[step.tx].phase == W.Pending
    && step.receipt.Receipt? && step.receipt.number == 0
  }

  /**
   * The two deliveries that part entry and row: a Reorged left unapplied while its row is settled, and a Confirmed
   * applied without acknowledgement.
   */
  predicate Unsettles(s: Sys, outcome: Outcome)
    requires s.pending != []
  {
    var st := s.pending[0];
    || (st.phase == W.Reorged && !Applied(s, outcome) && RowAt(s.db.rows, st.tx).Some?
        && RowAt(s.db.rows, st.tx).value.status == RowSettled)
    || (st.phase == W.Confirmed && Applied(s, outcome) && outcome != Lands)
  }

  /**
   * The seed that parts them: it registers a key anew, with nothing of it undelivered, from a listed row that differs
   * from the row of now on being settled, or on the block it is settled at.
   */
  predicate Misleads(s: Sys, i: nat)
    requires i < |s.listed|
  {
    var r := s.listed[i];
    && r.tx !in s.watcher && Registration(s.cfg, r).Some? && !Awaits(s.pending, r.tx)
    && RowAt(s.db.rows, r.tx).Some? && !Agrees(r, RowAt(s.db.rows, r.tx).value)
  }

  predicate Agrees(r: Row, now: Row) {
    (r.status == RowSettled <==> now.status == RowSettled) && (r.status == RowSettled ==> r.anchor == now.anchor)
  }

  /** The steps that part entry and row. */
  predicate Parts(s: Sys, step: Step) {
    || (step.Hand? && s.pending != [] && Unsettles(s, step.outcome))
    || (step.Seed? && step.i < |s.listed| && Misleads(s, step.i))
  }

  /** What an observation does to the anchor. */
  predicate KeepsAnchor(t: W.Tracked, o: W.Observation) {
    && (o.entry.Some? && o.entry.value.phase == t.phase ==>
        o.entry.value.hash == t.hash && o.entry.value.number == t.number)
    && (o.entry.Some? && o.entry.value.phase != W.Pending ==> o.entry.value.number != 0)
    && (o.status.Some? && o.status.value.phase == W.Confirmed ==>
          && o.entry.Some? && o.entry.value.phase == W.Confirmed
          && o.status.value.block == Some(o.entry.value.hash) && o.status.value.number == o.entry.value.number)
    && (o.status.Some? && (o.status.value.phase == W.Mined || o.status.value.phase == W.Confirmed) ==>
        t.phase != W.Confirmed)
  }

  /** The anchor a status shows is the entry's, and only a reorg or a fresh receipt changes it. */
  lemma ObserveAnchors(cfg: W.Config, tx: TxHash, t: W.Tracked, head: uint64, receipt: W.ReceiptReply,
                       header: W.HeaderReply)
    requires cfg.Valid() && EntryOk(t)
    requires t.phase != W.Pending ==> t.number != 0
    requires t.phase == W.Pending && receipt.Receipt? ==> receipt.number != 0
    ensures KeepsAnchor(t, W.Observe(cfg, tx, t, head, receipt, header))
  {}

  lemma VisitExact(rows: seq<Row>, watcher: map<TxHash, W.Tracked>, pending: seq<Status>, tx: TxHash, o: W.Observation)
    requires tx in watcher && Surfaces(watcher[tx], o, tx) && KeepsAnchor(watcher[tx], o) && !Awaits(pending, tx)
        && Exact(rows, watcher, pending)
    ensures Exact(rows, W.After(watcher, tx, o), pending + W.Listed(o))
  {
    var watcher', pending' := W.After(watcher, tx, o), pending + W.Listed(o);
    forall u | u in watcher'
      ensures RowAt(rows, u).Some? && (!Awaits(pending', u) ==> EntryExact(RowAt(rows, u).value, watcher'[u]))
    {
      AwaitsAppend(pending, W.Listed(o), u);
      assert o.status.Some? ==> W.Listed(o)[0].tx == tx;
    }
    forall k | 0 <= k < |pending'| && pending'[k].tx in watcher'
      ensures StatusExact(RowAt(rows, pending'[k].tx).value, watcher'[pending'[k].tx], pending'[k])
    {
      if k < |pending| { assert pending'[k] == pending[k] && pending[k].tx != tx; }
    }
  }

  lemma VisitAnchors(rows: seq<Row>, watcher: map<TxHash, W.Tracked>, pending: seq<Status>, listed: seq<Row>,
                     tx: TxHash, o: W.Observation)
    requires tx in watcher && KeepsAnchor(watcher[tx], o) && Anchors(rows, watcher, pending, listed)
    ensures Anchors(rows, W.After(watcher, tx, o), pending + W.Listed(o), listed)
  {
    var pending' := pending + W.Listed(o);
    assert forall k :: 0 <= k < |pending| ==> pending'[k] == pending[k];
    assert o.status.Some? ==> pending'[|pending|] == o.status.value;
  }

  lemma VisitKeepsExact(s: Sys, step: Step)
    requires SafeInv(s) && AnchorInv(s) && step.Visit? && Enabled(s, step) && !AtGenesis(s, step)
    ensures AnchorInv(Do(s, step)) && (ExactInv(s) ==> ExactInv(Do(s, step)))
  {
    var tx := step.tx;
    var t := s.watcher[tx];
    var o := W.Observe(s.cfg, tx, t, step.head, step.receipt, step.header);
    assert EntrySafe(s.db.rows, t, tx, Awaits(s.pending, tx));
    NothingSwallowed(s.cfg, tx, t, step.head, step.receipt, step.header);
    ObserveAnchors(s.cfg, tx, t, step.head, step.receipt, step.header);
    VisitAnchors(s.db.rows, s.watcher, s.pending, s.listed, tx, o);
    assert !Awaits(s.pending, tx);
    if ExactInv(s) { VisitExact(s.db.rows, s.watcher, s.pending, tx, o); }
  }

  /** A visit keeps every entry anchored if and only if it does not place a pending one in block zero. */
  lemma VisitKeepsAnchorsIff(s: Sys, step: Step)
    requires SafeInv(s) && AnchorInv(s) && step.Visit? && Enabled(s, step)
    ensures AnchorInv(Do(s, step)) <==> !AtGenesis(s, step)
  {
    if AtGenesis(s, step) {
      var s' := Do(s, step);
      assert step.tx in s'.watcher && s'.watcher[step.tx].phase != W.Pending && s'.watcher[step.tx].number == 0;
    } else {
      VisitKeepsExact(s, step);
    }
  }

  /** Handing a status over moves only its own row. */
  lemma HandMoves(s: Sys, outcome: Outcome)
    requires SafeInv(s) && Enabled(s, Hand(outcome))
    ensures var s' := Handed(s, outcome);
      var st := s.pending[0];
      && OnlyMoves(s.db.rows, s'.db.rows, st.tx) && RowAt(s.db.rows, st.tx).Some? && RowAt(s'.db.rows, st.tx).Some?
      && (var row, row' := RowAt(s.db.rows, st.tx).value, RowAt(s'.db.rows, st.tx).value;
          && (!Applied(s, outcome) || st.phase == W.Mined ==> row' == row)
          && (Applied(s, outcome) && st.phase == W.Confirmed ==>
                if row.status == RowSettled then row' == row
                    else row'.status == RowSettled && row'.anchor == Some(Anchor(st.block, st.number)))
          && (Applied(s, outcome) && st.phase == W.Reorged ==> row'.status != RowSettled)
          && (st.phase == W.Finalized ==> row'.status == if Applied(s, outcome) then RowFinalized else RowSettled))
  {
    assert StatusSafe(s.db.rows, s.watcher, s.pending[0]);
    if Applied(s, outcome) { HandleMovesRow(s.db, s.pending[0]); }
  }

  lemma HandKeepsAnchors(s: Sys, outcome: Outcome)
    requires SafeInv(s) && AnchorInv(s) && Enabled(s, Hand(outcome))
    ensures AnchorInv(Handed(s, outcome))
  {
    HandMoves(s, outcome);
    var s' := Handed(s, outcome);
    assert forall k :: 0 <= k < |s'.pending| ==> s'.pending[k] == s.pending[k + 1];
    forall tx | RowAt(s'.db.rows, tx).Some? ensures AnchoredRow(RowAt(s'.db.rows, tx).value) {
      assert tx != s.pending[0].tx ==> RowAt(s'.db.rows, tx) == RowAt(s.db.rows, tx);
      assert AnchoredRow(RowAt(s.db.rows, s.pending[0].tx).value);
    }
  }

  /**
   * A delivery keeps entries and rows in exact correspondence if and only if it is not one of the two that part them.
   */
  lemma HandKeepsExactIff(s: Sys, outcome: Outcome)
    requires SafeInv(s) && AnchorInv(s) && ExactInv(s) && Enabled(s, Hand(outcome))
    ensures ExactInv(Handed(s, outcome)) <==> !Unsettles(s, outcome)
  {
    if Unsettles(s, outcome) { PartingBreaks(s, outcome); } else { OthersKeepExact(s, outcome); }
  }

  lemma PartingBreaks(s: Sys, outcome: Outcome)
    requires SafeInv(s) && ExactInv(s) && Enabled(s, Hand(outcome)) && Unsettles(s, outcome)
    ensures !ExactInv(Handed(s, outcome))
  {
    HandMoves(s, outcome);
    var s', st := Handed(s, outcome), s.pending[0];
    assert StatusSafe(s.db.rows, s.watcher, st);
    AwaitsRest(s.pending, st.tx);
    assert StatusExact(RowAt(s.db.rows, st.tx).value, s.watcher[st.tx], st);
    assert !EntryExact(RowAt(s'.db.rows, st.tx).value, s'.watcher[st.tx]);
  }

  lemma OthersKeepExact(s: Sys, outcome: Outcome)
    requires SafeInv(s) && ExactInv(s) && Enabled(s, Hand(outcome)) && !Unsettles(s, outcome)
    ensures ExactInv(Handed(s, outcome))
  {
    HandMoves(s, outcome);
    var s', st := Handed(s, outcome), s.pending[0];
    assert StatusSafe(s.db.rows, s.watcher, st);
    forall u | u in s'.watcher
      ensures RowAt(s'.db.rows, u).Some?
          && (!Awaits(s'.pending, u) ==> EntryExact(RowAt(s'.db.rows, u).value, s'.watcher[u]))
    {
      AwaitsRest(s.pending, u);
      assert RowAt(s.db.rows, u).Some?;
    }
    forall k | 0 <= k < |s'.pending| && s'.pending[k].tx in s'.watcher
      ensures StatusExact(RowAt(s'.db.rows, s'.pending[k].tx).value, s'.watcher[s'.pending[k].tx], s'.pending[k])
    {
      assert s'.pending[k] == s.pending[k + 1] && s.pending[k + 1].tx != st.tx;
    }
  }

  lemma ListKeepsAnchors(s: Sys)
    requires SafeInv(s) && AnchorInv(s)
    ensures AnchorInv(Do(s, List)) && (ExactInv(s) ==> ExactInv(Do(s, List)))
  {
    forall r | r in Feed(s.db.rows) ensures AnchoredRow(r) {
      var i :| 0 <= i < |s.db.rows| && s.db.rows[i] == r;
      RowIsAt(s.db.rows, i);
    }
  }

  lemma SeedKeepsAnchors(s: Sys, i: nat)
    requires AnchorInv(s) && Enabled(s, Seed(i))
    ensures AnchorInv(Do(s, Seed(i)))
  {
    assert AnchoredRow(s.listed[i]);
  }

  /**
   * A seed, from however old a list, keeps entries and rows in exact correspondence if and only if it does not mislead.
   */
  lemma SeedKeepsExactIff(s: Sys, i: nat)
    requires SafeInv(s) && AnchorInv(s) && ExactInv(s) && Enabled(s, Seed(i))
    ensures ExactInv(Do(s, Seed(i))) <==> !Misleads(s, i)
  {
    if Misleads(s, i) { MisleadingBreaks(s, i); } else { OtherSeedsKeepExact(s, i); }
  }

  lemma MisleadingBreaks(s: Sys, i: nat)
    requires AnchorInv(s) && Enabled(s, Seed(i)) && Misleads(s, i)
    ensures !ExactInv(Do(s, Seed(i)))
  {
    var r, s' := s.listed[i], Do(s, Seed(i));
    assert AnchoredRow(r) && AnchoredRow(RowAt(s.db.rows, r.tx).value);
    assert !EntryExact(RowAt(s'.db.rows, r.tx).value, s'.watcher[r.tx]);
  }

  lemma OtherSeedsKeepExact(s: Sys, i: nat)
    requires SafeInv(s) && AnchorInv(s) && ExactInv(s) && Enabled(s, Seed(i)) && !Misleads(s, i)
    ensures ExactInv(Do(s, Seed(i)))
  {
    var r := s.listed[i];
    assert ListedOk(RowAt(s.db.rows, r.tx), r.tx in s.watcher, Awaits(s.pending, r.tx), r.tx in s.stale, r);
    assert AnchoredRow(r) && AnchoredRow(RowAt(s.db.rows, r.tx).value);
    forall k | 0 <= k < |s.pending| && s.pending[k].tx == r.tx && r.tx !in s.watcher
      ensures s.pending[k].phase == W.Finalized
    {
      assert StatusSafe(s.db.rows, s.watcher, s.pending[k]);
    }
  }

  /** A timely seed finds the row as it was listed, so it does not mislead. */
  lemma TimelySeedDoesNotMislead(s: Sys, i: nat)
    requires SafeInv(s) && Enabled(s, Seed(i)) && Timely(s, Seed(i))
    ensures !Misleads(s, i)
  {
    TimelySeedIsCurrent(s, i);
  }

  lemma OtherKeepsExact(s: Sys, op: Op)
    requires SafeInv(s) && AnchorInv(s) && !op.Deliver?
    ensures AnchorInv(s.(db := Next(s.db, op))) && (ExactInv(s) ==> ExactInv(s.(db := Next(s.db, op))))
  {
    OtherRows(s.db, op);
    NewRows(s.db, op);
    forall k | 0 <= k < |s.pending| ensures RowAt(s.db.rows, s.pending[k].tx).Some? {
      assert StatusSafe(s.db.rows, s.watcher, s.pending[k]);
    }
  }

  lemma NewRows(db: Db, op: Op)
    requires !op.Deliver?
    ensures forall tx :: RowAt(db.rows, tx).None? && RowAt(Next(db, op).rows, tx).Some? ==>
        RowAt(Next(db, op).rows, tx).value.status == RowPending
  {
    var rows' := Next(db, op).rows;
    if rows' != db.rows {
      assert rows' == db.rows + [Row(op.tx, op.id, RowPending, None, None)];
      forall tx ensures RowAt(rows', tx) == if tx == op.tx then Some(rows'[|db.rows|]) else RowAt(db.rows, tx) {
        AppendRowAt(db.rows, rows'[|db.rows|], tx);
      }
    }
  }

  /** Of all the steps of the system, only a visit that meets block zero loses an anchor. */
  lemma StepKeepsAnchorsIff(s: Sys, step: Step)
    requires SafeInv(s) && AnchorInv(s) && Enabled(s, step)
    ensures AnchorInv(Do(s, step)) <==> !AtGenesis(s, step)
  {
    match step {
      case Visit(_, _, _, _) => VisitKeepsAnchorsIff(s, step);
      case Hand(outcome) => HandKeepsAnchors(s, outcome);
      case List => ListKeepsAnchors(s);
      case Seed(i) => SeedKeepsAnchors(s, i);
      case Other(op) => OtherKeepsExact(s, op);
      case Crash =>
      case StartPass =>
    }
  }

  /** Of all the steps of the system, exactly those of Parts part an entry from its row. */
  lemma StepKeepsExactIff(s: Sys, step: Step)
    requires SafeInv(s) && AnchorInv(s) && ExactInv(s) && Enabled(s, step) && !AtGenesis(s, step)
    ensures ExactInv(Do(s, step)) <==> !Parts(s, step)
  {
    match step {
      case Visit(_, _, _, _) => VisitKeepsExact(s, step);
      case Hand(outcome) => HandKeepsExactIff(s, outcome);
      case List => ListKeepsAnchors(s);
      case Seed(i) => SeedKeepsExactIff(s, i);
      case Other(op) => OtherKeepsExact(s, op);
      case Crash =>
      case StartPass =>
    }
  }

  // ---------------------------------------------------------------- runs, step by step

  /** Any run of the system, with the steps it takes. */
  ghost predicate Takes(run: seq<Sys>, steps: seq<Step>) {
    && |run| == |steps| + 1 && Booted(run[0])
    && forall i :: 0 <= i < |steps| ==> Goes(run, steps, i)
  }

  ghost predicate Goes(run: seq<Sys>, steps: seq<Step>, i: nat)
    requires i < |steps| && |run| == |steps| + 1
  {
    Enabled(run[i], steps[i]) && run[i + 1] == Do(run[i], steps[i])
  }

  lemma StepKeepsSafeIff(s: Sys, step: Step)
    requires SafeInv(s) && Enabled(s, step)
    ensures SafeInv(Do(s, step)) <==> !Resurrects(s, step)
  {
    if step.Seed? { SeedKeepsIff(s, step.i); } else { StepKeepsSafe(s, step); }
  }

  lemma {:induction false} SafeUpTo(run: seq<Sys>, steps: seq<Step>, n: nat)
    requires Takes(run, steps) && n < |run|
    requires forall i :: 0 <= i < n ==> !Resurrects(run[i], steps[i])
    ensures SafeInv(run[n])
  {
    if n > 0 {
      SafeUpTo(run, steps, n - 1);
      assert Goes(run, steps, n - 1);
      StepKeepsSafeIff(run[n - 1], steps[n - 1]);
    }
  }

  /** Entries, undelivered statuses and rows agree throughout a run if and only if no seed of it resurrects its key. */
  lemma SafeThroughoutIff(run: seq<Sys>, steps: seq<Step>)
    requires Takes(run, steps)
    ensures (forall i :: 0 <= i < |run| ==> SafeInv(run[i])) <==>
            (forall i :: 0 <= i < |steps| ==> !Resurrects(run[i], steps[i]))
  {
    if forall i :: 0 <= i < |run| ==> SafeInv(run[i]) {
      forall i | 0 <= i < |steps| ensures !Resurrects(run[i], steps[i]) {
        assert Goes(run, steps, i);
        StepKeepsSafeIff(run[i], steps[i]);
      }
    }
    if forall i :: 0 <= i < |steps| ==> !Resurrects(run[i], steps[i]) {
      forall i | 0 <= i < |run| ensures SafeInv(run[i]) { SafeUpTo(run, steps, i); }
    }
  }

  /** A run that starts with every settled row anchored and resurrects nothing. */
  ghost predicate Calm(run: seq<Sys>, steps: seq<Step>) {
    && Takes(run, steps) && AnchorInv(run[0])
    && forall i :: 0 <= i < |steps| ==> !Resurrects(run[i], steps[i])
  }

  lemma AnchoredStepIff(run: seq<Sys>, steps: seq<Step>, i: nat)
    requires Calm(run, steps) && i < |steps| && AnchorInv(run[i])
    ensures AnchorInv(run[i + 1]) <==> !AtGenesis(run[i], steps[i])
  {
    SafeUpTo(run, steps, i);
    assert Goes(run, steps, i);
    StepKeepsAnchorsIff(run[i], steps[i]);
  }

  lemma {:induction false} AnchoredUpTo(run: seq<Sys>, steps: seq<Step>, n: nat)
    requires Calm(run, steps) && n < |run|
    requires forall i :: 0 <= i < n ==> !AtGenesis(run[i], steps[i])
    ensures AnchorInv(run[n])
  {
    if n > 0 {
      AnchoredUpTo(run, steps, n - 1);
      AnchoredStepIff(run, steps, n - 1);
    }
  }

  /**
   * In a run that resurrects nothing, every settled row names its block throughout, so that seed can always resume it,
   * if and only if no pending entry is ever found in block zero.
   */
  lemma AnchorsThroughoutIff(run: seq<Sys>, steps: seq<Step>)
    requires Calm(run, steps)
    ensures (forall i :: 0 <= i < |run| ==> AnchorInv(run[i])) <==>
            (forall i :: 0 <= i < |steps| ==> !AtGenesis(run[i], steps[i]))
  {
    if forall i :: 0 <= i < |run| ==> AnchorInv(run[i]) {
      forall i | 0 <= i < |steps| ensures !AtGenesis(run[i], steps[i]) { AnchoredStepIff(run, steps, i); }
    }
    if forall i :: 0 <= i < |steps| ==> !AtGenesis(run[i], steps[i]) {
      forall i | 0 <= i < |run| ensures AnchorInv(run[i]) { AnchoredUpTo(run, steps, i); }
    }
  }

  /** Such a run that also meets no block zero. */
  ghost predicate Orderly(run: seq<Sys>, steps: seq<Step>) {
    Calm(run, steps) && forall i :: 0 <= i < |steps| ==> !AtGenesis(run[i], steps[i])
  }

  lemma ExactStepIff(run: seq<Sys>, steps: seq<Step>, i: nat)
    requires Orderly(run, steps) && i < |steps| && ExactInv(run[i])
    ensures ExactInv(run[i + 1]) <==> !Parts(run[i], steps[i])
  {
    SafeUpTo(run, steps, i);
    AnchoredUpTo(run, steps, i);
    assert Goes(run, steps, i);
    StepKeepsExactIff(run[i], steps[i]);
  }

  lemma {:induction false} ExactUpTo(run: seq<Sys>, steps: seq<Step>, m: nat, n: nat)
    requires Orderly(run, steps) && m <= n < |run| && Down(run[m])
    requires forall i :: m <= i < n ==> !Parts(run[i], steps[i])
    ensures ExactInv(run[n])
  {
    if m < n {
      ExactUpTo(run, steps, m, n - 1);
      ExactStepIff(run, steps, n - 1);
    }
  }

  /**
   * From any restart on, whatever happened before it, an entry outside a hand-over is Confirmed exactly when its row is
   * settled, at the row's block, for as long as no step parts them, and no longer: the correspondence holds throughout
   * if and only if no delivery unsettles it and no seed misleads.
   */
  lemma ExactSinceRestartIff(run: seq<Sys>, steps: seq<Step>, m: nat)
    requires Orderly(run, steps) && m < |run| && Down(run[m])
    ensures (forall i :: m <= i < |run| ==> ExactInv(run[i])) <==>
            (forall i :: m <= i < |steps| ==> !Parts(run[i], steps[i]))
  {
    if forall i :: m <= i < |run| ==> ExactInv(run[i]) {
      forall i | m <= i < |steps| ensures !Parts(run[i], steps[i]) { ExactStepIff(run, steps, i); }
    }
    if forall i :: m <= i < |steps| ==> !Parts(run[i], steps[i]) {
      forall i | m <= i < |run| ensures ExactInv(run[i]) { ExactUpTo(run, steps, m, i); }
    }
  }
}
