/** Concrete runs that show what each hypothesis on the system is for. */
module Race {
  import opened Base
  import opened Ledger
  import opened Store
  import opened Settlement
  import opened Money
  import opened Pipeline
  import W = Watcher

  const ASSET := "USDC"
  const CFG := W.Config(1, 2)
  const PAY := Payment(3, 1, ASSET, 1, false)
  const SEED := Entry("seed", Text("seed"), ASSET, [Line(1, Credit, 3)])

  /** Account 1 is the destination, account 2 the clearing account. */
  const ACCOUNTS: map<AccountId, Account> :=
    map[1 := Account("dest", "user", ASSET, true),
        2 := Account("onchain_settlement", "onchain_settlement", ASSET, true)]

  function Of(journal: seq<Entry>, row: Row): Db {
    Db(ACCOUNTS, map[ASSET := 2], journal, map[7 := PAY], [row], [], [])
  }

  function SettledRow(tx: TxHash): Row { Row(tx, 7, RowSettled, Some(1), Some(Anchor(Some(100), 5))) }

  /** Payment 7 is settled at block 100, height 5. */
  function Settled(tx: TxHash): Db { Of([SEED, SettleEntry(7, PAY, 2, Some(100))], SettledRow(tx)) }

  function LinkedRow(tx: TxHash): Row { Row(tx, 7, RowPending, None, None) }

  /** Payment 7 is linked to its transaction and not settled. */
  function Unsettled(tx: TxHash): Db { Of([SEED], LinkedRow(tx)) }

  lemma SeedBalance(a: AccountId)
    ensures Balance([SEED], a) == if a == 1 then 3 else 0
  {
    assert [SEED] == [] + [SEED];
    AppendBalance([], SEED, a);
    NetAppend([], Line(1, Credit, 3), a);
    assert SEED.lines == [] + [Line(1, Credit, 3)];
    assert Net([], a) == 0 && Balance([], a) == 0;
  }

  lemma Balances(tx: TxHash, a: AccountId)
    ensures Balance(Settled(tx).journal, a) == if a == 1 then 2 else if a == 2 then 1 else 0
  {
    var settle := SettleEntry(7, PAY, 2, Some(100));
    TransferLines(1, 2, 1);
    SeedBalance(a);
    assert Settled(tx).journal == [SEED] + [settle];
    AppendBalance([SEED], settle, a);
  }

  lemma SeedCounts(row: Row, p: PaymentId)
    requires row.payment == 7
    ensures NetSettles([SEED], p) == 0 && LiveRows([row], p) == if p == 7 && Live(row) then 1 else 0
  {
    assert [SEED] == [] + [SEED] && [row] == [] + [row];
    NetSettlesAppend([], SEED, p);
    RowSumAppend([], row, CountOf(p));
    assert RowSum([], CountOf(p)) == 0;
  }

  lemma Counts(tx: TxHash, p: PaymentId)
    ensures NetSettles(Settled(tx).journal, p) == (if p == 7 then 1 else 0) == LiveRows(Settled(tx).rows, p)
  {
    SeedCounts(SettledRow(tx), p);
    assert Settled(tx).journal == [SEED] + [SettleEntry(7, PAY, 2, Some(100))];
    NetSettlesAppend([SEED], SettleEntry(7, PAY, 2, Some(100)), p);
  }

  lemma SettledIsSound(tx: TxHash)
    ensures Inv(Settled(tx))
  {
    forall a: AccountId ensures 0 <= Balance(Settled(tx).journal, a) < TWO_63 { Balances(tx, a); }
    forall p: PaymentId ensures NetSettles(Settled(tx).journal, p) == LiveRows(Settled(tx).rows, p) { Counts(tx, p); }
  }

  lemma UnsettledIsSound(tx: TxHash)
    ensures Inv(Unsettled(tx))
  {
    forall a: AccountId ensures 0 <= Balance(Unsettled(tx).journal, a) < TWO_63 { SeedBalance(a); }
    forall p: PaymentId ensures NetSettles(Unsettled(tx).journal, p) == LiveRows(Unsettled(tx).rows, p) {
      SeedCounts(LinkedRow(tx), p);
    }
  }

  /** While the destination still holds the amount, the ledger accepts a settle at a block that has none yet. */
  lemma SettlePosts(journal: seq<Entry>, block: Option<Hash>)
    requires 1 <= Balance(journal, 1) <= 3 && 0 <= Balance(journal, 2) <= 3
    requires !HasKey(journal, SETTLE, SettleRef(7, block))
    ensures Posting(ACCOUNTS, journal, SettleEntry(7, PAY, 2, block)) == Posted
  {
    var e := SettleEntry(7, PAY, 2, block);
    TransferLines(1, 2, 1);
    assert WellFormed(e.lines) && BalanceVerdict(e.lines) == Posted by {
      var l0, l1 := e.lines[0], e.lines[1];
      assert e.lines[..1] == [l0] && [l0][..0] == [];
      assert Side([l0], Debit) == 1 && Side([l0], Credit) == 0;
    }
  }

  // ---------------------------------------------------------------- the second settle

  /** The database after the finalization, and the Confirmed at a second block that reaches it. */
  function AfterFinal(tx: TxHash): Db { Finalize(Settled(tx), tx) }

  function Again(tx: TxHash): Status { W.Status(tx, W.Confirmed, Some(200), 8, 1) }

  /** The finalized row does not stop the second settle: its posting is accepted and commits. */
  lemma SecondSettleIsPosted(tx: TxHash)
    ensures AfterFinal(tx).rows == [SettledRow(tx).(status := RowFinalized)]
    ensures Handle(AfterFinal(tx), Again(tx)) ==
            Some(AfterFinal(tx).(journal := AfterFinal(tx).journal + [SettleEntry(7, PAY, 2, Some(200))]))
    ensures DoubleSettles(AfterFinal(tx), Again(tx))
  {
    Balances(tx, 1);
    Balances(tx, 2);
    SettlePosts(Settled(tx).journal, Some(200));
  }

  lemma NowDoubled(tx: TxHash)
    ensures Handle(AfterFinal(tx), Again(tx)).Some? && !Matched(Handle(AfterFinal(tx), Again(tx)).value)
  {
    SecondSettleIsPosted(tx);
    var db1, d := AfterFinal(tx), Handle(AfterFinal(tx), Again(tx)).value;
    Counts(tx, 7);
    NetSettlesAppend(db1.journal, SettleEntry(7, PAY, 2, Some(200)), 7);
    SeedCounts(db1.rows[0], 7);
    assert NetSettles(d.journal, 7) == 2 && LiveRows(d.rows, 7) == 1;
  }

  // ---------------------------------------------------------------- one step at a time

  /** A system that knows this one transaction. */
  function Mk(tx: TxHash, db: Db, t: Option<W.Tracked>, visiting: bool, pending: seq<Status>, listed: seq<Row>,
              stale: set<TxHash>): Sys {
    Sys(CFG, db, if t.Some? then map[tx := t.value] else map[], if visiting then {tx} else {}, pending, listed, stale)
  }

  lemma PassStarts(tx: TxHash, db: Db, t: W.Tracked, listed: seq<Row>, stale: set<TxHash>)
    ensures Do(Mk(tx, db, Some(t), false, [], listed, stale), StartPass) == Mk(tx, db, Some(t), true, [], listed, stale)
    ensures Advances(Mk(tx, db, Some(t), false, [], listed, stale), Mk(tx, db, Some(t), true, [], listed, stale))
  {
    assert Enabled(Mk(tx, db, Some(t), false, [], listed, stale), StartPass);
  }

  lemma KeyVisited(tx: TxHash, db: Db, t: W.Tracked, listed: seq<Row>, stale: set<TxHash>, step: Step)
    requires step.Visit? && step.tx == tx
    ensures var o := W.Observe(CFG, tx, t, step.head, step.receipt, step.header);
      var s, s' := Mk(tx, db, Some(t), true, [], listed, stale),
                   Mk(tx, db, o.entry, false, W.Listed(o), listed, if o.entry.None? then stale + {tx} else stale);
      Enabled(s, step) && Do(s, step) == s' && Advances(s, s')
  {
    var s := Mk(tx, db, Some(t), true, [], listed, stale);
    assert Enabled(s, step) && !Resurrects(s, step);
  }

  lemma StatusHanded(tx: TxHash, db: Db, t: Option<W.Tracked>, st: Status, listed: seq<Row>, stale: set<TxHash>)
    requires Handle(db, st).Some?
    ensures Advances(Mk(tx, db, t, false, [st], listed, stale),
                     Mk(tx, Handle(db, st).value, t, false, [], listed, stale))
  {
    var s := Mk(tx, db, t, false, [st], listed, stale);
    assert [st][1..] == [];
    assert Enabled(s, Hand(Lands)) && !Resurrects(s, Hand(Lands));
    assert Do(s, Hand(Lands)) == Mk(tx, Handle(db, st).value, t, false, [], listed, stale);
  }

  /** Rescan reads the one row there is. */
  lemma RowListed(tx: TxHash, journal: seq<Entry>, row: Row)
    requires row.status != RowFinalized
    ensures Do(Mk(tx, Of(journal, row), None, false, [], [], {}), List) ==
        Mk(tx, Of(journal, row), None, false, [], [row], {})
    ensures Advances(Mk(tx, Of(journal, row), None, false, [], [], {}),
                     Mk(tx, Of(journal, row), None, false, [], [row], {}))
  {
    var s := Mk(tx, Of(journal, row), None, false, [], [], {});
    assert [row][..0] == [] && Feed([row]) == [] + [row];
    assert Finalizing([]) == {};
    assert Enabled(s, List) && !Resurrects(s, List);
  }

  /** Rescan registers the row it has listed, whatever became of it. */
  lemma RowSeeded(tx: TxHash, db: Db, pending: seq<Status>, row: Row, t: W.Tracked, stale: set<TxHash>)
    requires row.tx == tx && Registration(CFG, row) == Some(t)
    ensures var s, s' := Mk(tx, db, None, false, pending, [row], stale),
        Mk(tx, db, Some(t), false, pending, [row], stale);
      Enabled(s, Seed(0)) && Do(s, Seed(0)) == s'
  {}

  /** The first registration, from a list just read. */
  lemma FirstSeed(tx: TxHash, journal: seq<Entry>, row: Row, t: W.Tracked)
    requires row.tx == tx && Registration(CFG, row) == Some(t) && row.status != RowFinalized
    ensures Advances(Mk(tx, Of(journal, row), None, false, [], [row], {}),
                     Mk(tx, Of(journal, row), Some(t), false, [], [row], {}))
  {
    var s := Mk(tx, Of(journal, row), None, false, [], [row], {});
    RowSeeded(tx, Of(journal, row), [], row, t, {});
    assert RowAt([row], tx) == Some(row);
    assert !Resurrects(s, Seed(0));
  }

  // ---------------------------------------------------------------- rescan overtaken by a finalization

  const RESUMED := W.Resumed(CFG, 100, 5)
  const RESET := W.Tracked(W.Pending, 0, 0, W.Reorged, 0)
  const AGAIN := W.Tracked(W.Confirmed, 200, 8, W.Confirmed, 1)

  function Final(tx: TxHash): Status { W.Status(tx, W.Finalized, Some(100), 5, 2) }

  function Gone(tx: TxHash): Status { W.Status(tx, W.Reorged, Some(100), 5, 0) }

  ghost predicate Advancing(run: seq<Sys>) { forall i :: 0 <= i < |run| - 1 ==> Advances(run[i], run[i + 1]) }

  lemma Then(a: seq<Sys>, b: seq<Sys>)
    requires |a| > 0 && |b| > 0 && a[|a| - 1] == b[0] && Advancing(a) && Advancing(b)
    ensures Advancing(a + b[1..])
  {
    var run, n := a + b[1..], |a| - 1;
    forall i | 0 <= i < |run| - 1 ensures Advances(run[i], run[i + 1]) {
      if i >= n { assert run[i] == b[i - n] && run[i + 1] == b[i - n + 1]; }
    }
  }

  /** The row is listed and seeded. */
  lemma Registered(tx: TxHash, journal: seq<Entry>, row: Row, t: W.Tracked) returns (run: seq<Sys>)
    requires row.tx == tx && Registration(CFG, row) == Some(t) && row.status != RowFinalized
    ensures |run| == 3 && run[0] == Mk(tx, Of(journal, row), None, false, [], [], {}) && Advancing(run)
    ensures run[2] == Mk(tx, Of(journal, row), Some(t), false, [], [row], {})
  {
    var db := Of(journal, row);
    RowListed(tx, journal, row);
    FirstSeed(tx, journal, row, t);
    run := [Mk(tx, db, None, false, [], [], {}), Mk(tx, db, None, false, [], [row], {}),
            Mk(tx, db, Some(t), false, [], [row], {})];
  }

  /** A pass over the one key, with what it observes. */
  lemma Passed(tx: TxHash, db: Db, t: W.Tracked, listed: seq<Row>, stale: set<TxHash>, step: Step, o: W.Observation)
      returns (run: seq<Sys>)
    requires step.Visit? && step.tx == tx && W.Observe(CFG, tx, t, step.head, step.receipt, step.header) == o
    ensures |run| == 3 && run[0] == Mk(tx, db, Some(t), false, [], listed, stale) && Advancing(run)
    ensures run[2] == Mk(tx, db, o.entry, false, W.Listed(o), listed, if o.entry.None? then stale + {tx} else stale)
  {
    PassStarts(tx, db, t, listed, stale);
    KeyVisited(tx, db, t, listed, stale, step);
    run := [Mk(tx, db, Some(t), false, [], listed, stale), Mk(tx, db, Some(t), true, [], listed, stale),
            Mk(tx, db, o.entry, false, W.Listed(o), listed, if o.entry.None? then stale + {tx} else stale)];
  }

  /** The row is listed, seeded, and found final: it is evicted, and its Finalized is about to be delivered. */
  lemma Evicted(tx: TxHash) returns (run: seq<Sys>)
    requires W.IsHexTxHash(tx)
    ensures |run| == 5 && run[0] == Mk(tx, Settled(tx), None, false, [], [], {}) && Advancing(run)
    ensures run[4] == Mk(tx, Settled(tx), None, false, [Final(tx)], [SettledRow(tx)], {tx})
  {
    var db, row := Settled(tx), SettledRow(tx);
    var a := Registered(tx, db.journal, row, RESUMED);
    var b := Passed(tx, db, RESUMED, [row], {}, Visit(tx, 6, W.Receipt(100, 5), W.Header(100)),
                    W.Observation(None, Some(Final(tx))));
    Then(a, b);
    run := a + b[1..];
  }

  /** From a Confirmed entry over the finalized row: a reorg. */
  lemma ReorgedUnnoticed(tx: TxHash) returns (run: seq<Sys>)
    ensures |run| == 4 && run[0] == Mk(tx, AfterFinal(tx), Some(RESUMED), false, [], [SettledRow(tx)], {tx})
        && Advancing(run)
    ensures run[3] == Mk(tx, AfterFinal(tx), Some(RESET), false, [], [SettledRow(tx)], {tx})
  {
    var db, l := AfterFinal(tx), [SettledRow(tx)];
    SecondSettleIsPosted(tx);
    var a := Passed(tx, db, RESUMED, l, {tx}, Visit(tx, 6, W.NotFound, W.NoHeader),
                    W.Observation(Some(RESET), Some(Gone(tx))));
    assert Handle(db, Gone(tx)) == Some(db);
    StatusHanded(tx, db, Some(RESET), Gone(tx), l, {tx});
    run := a + [Mk(tx, db, Some(RESET), false, [], l, {tx})];
  }

  /** Then a Confirmed at a second block. */
  lemma SettledAgain(tx: TxHash) returns (run: seq<Sys>)
    ensures |run| == 7 && run[0] == Mk(tx, AfterFinal(tx), Some(RESUMED), false, [], [SettledRow(tx)], {tx})
        && Advancing(run)
    ensures Handle(AfterFinal(tx), Again(tx)).Some? && run[6].db == Handle(AfterFinal(tx), Again(tx)).value
  {
    var db, l := AfterFinal(tx), [SettledRow(tx)];
    SecondSettleIsPosted(tx);
    var a := ReorgedUnnoticed(tx);
    var b := Passed(tx, db, RESET, l, {tx}, Visit(tx, 8, W.Receipt(200, 8), W.NoHeader),
                    W.Observation(Some(AGAIN), Some(Again(tx))));
    StatusHanded(tx, db, Some(AGAIN), Again(tx), l, {tx});
    var c := b + [Mk(tx, Handle(db, Again(tx)).value, Some(AGAIN), false, [], l, {tx})];
    Then(a, c);
    run := a + c[1..];
  }

  /** The one step that breaks the discipline. */
  predicate Lapse(s: Sys, s': Sys) {
    Enabled(s, Seed(0)) && Resurrects(s, Seed(0)) && s' == Do(s, Seed(0))
  }

  /** A run of the system in which only step j breaks it. */
  ghost predicate OneLapse(run: seq<Sys>, j: nat) { j + 1 < |run| && Booted(run[0]) && LapsesAt(run, j) }

  ghost predicate LapsesAt(run: seq<Sys>, j: nat)
    requires j + 1 < |run|
  {
    && Lapse(run[j], run[j + 1])
    && forall i :: 0 <= i < |run| - 1 && i != j ==> Advances(run[i], run[i + 1])
  }

  lemma Joined(a: seq<Sys>, c: seq<Sys>)
    requires |a| > 0 && |c| > 0 && Advancing(a) && Advancing(c) && Lapse(a[|a| - 1], c[0])
    ensures LapsesAt(a + c, |a| - 1)
  {
    var run, n := a + c, |a|;
    forall i | 0 <= i < |run| - 1 && i != n - 1 ensures Advances(run[i], run[i + 1]) {
      if i >= n { assert run[i] == c[i - n] && run[i + 1] == c[i - n + 1]; }
    }
  }

  /**
   * Rescan may seed a row while its Finalized awaits delivery. The row then finalizes under a live entry, a later reorg
   * sends the entry back to pending, and its next Confirmed settles the payment a second time.
   */
  lemma RescanRaceDoubleSettles(tx: TxHash) returns (run: seq<Sys>, j: nat)
    requires W.IsHexTxHash(tx)
    ensures OneLapse(run, j) && Awaits(run[j].pending, tx)
    ensures !Matched(run[|run| - 1].db)
  {
    SettledIsSound(tx);
    NowDoubled(tx);
    var a := Evicted(tx);
    var c := SettledAgain(tx);
    var row := SettledRow(tx);
    var x := Mk(tx, Settled(tx), Some(RESUMED), false, [Final(tx)], [row], {tx});
    RowSeeded(tx, Settled(tx), [Final(tx)], row, RESUMED, {tx});
    assert a[4].pending[0].tx == tx && Resurrects(a[4], Seed(0));
    StatusHanded(tx, Settled(tx), Some(RESUMED), Final(tx), [row], {tx});
    Then([x, c[0]], c);
    var d := [x, c[0]] + c[1..];
    Joined(a, d);
    run, j := a + d, 4;
    assert run[4] == a[4] && run[|run| - 1] == c[6];
  }

  /**
   * It may also seed after that delivery, from a list it read before: nothing is undelivered and no pass is running,
   * but the list still shows the row settled. The payment is settled a second time just the same.
   */
  lemma StaleListDoubleSettles(tx: TxHash) returns (run: seq<Sys>, j: nat)
    requires W.IsHexTxHash(tx)
    ensures OneLapse(run, j) && run[j].pending == [] && run[j].todo == {}
    ensures !Matched(run[|run| - 1].db)
  {
    SettledIsSound(tx);
    NowDoubled(tx);
    SecondSettleIsPosted(tx);
    var a := Evicted(tx);
    var c := SettledAgain(tx);
    var row := SettledRow(tx);
    var x := Mk(tx, AfterFinal(tx), None, false, [], [row], {tx});
    StatusHanded(tx, Settled(tx), None, Final(tx), [row], {tx});
    RowSeeded(tx, AfterFinal(tx), [], row, RESUMED, {tx});
    assert RowAt(AfterFinal(tx).rows, tx) == Some(row.(status := RowFinalized));
    assert Resurrects(x, Seed(0));
    Then(a, [a[4], x]);
    var b := a + [a[4], x][1..];
    Joined(b, c);
    run, j := b + c, 5;
    assert run[5] == x && run[|run| - 1] == c[6];
  }

  // ---------------------------------------------------------------- a failed Reorged, an old list, and block zero

  lemma OneRow(tx: TxHash, row: Row)
    requires row.tx == tx
    ensures row.status != RowFinalized ==> Feed([row]) == [row]
    ensures Finalizing([]) == {}
    ensures forall u :: RowAt([row], u) == if u == tx then Some(row) else None
  {
    assert [row][..0] == [] && (row.status != RowFinalized ==> Feed([row]) == [] + [row]);
  }

  lemma Anchored(tx: TxHash, journal: seq<Entry>, row: Row)
    requires row.tx == tx && AnchoredRow(row)
    ensures AnchorInv(Mk(tx, Of(journal, row), None, false, [], [], {}))
  {
    OneRow(tx, row);
  }

  /** The entry is pending, the row is settled, and nothing is under way. */
  function Parted(tx: TxHash): Sys { Mk(tx, Settled(tx), Some(RESET), false, [], [SettledRow(tx)], {}) }

  /** Entry and row disagree, and rescan, which reads the row again, cannot repair it: the key is tracked. */
  lemma PartedForGood(tx: TxHash)
    ensures !ExactInv(Parted(tx)) && Do(Parted(tx), List) == Parted(tx)
    ensures Enabled(Parted(tx), Seed(0)) && Do(Parted(tx), Seed(0)) == Parted(tx)
  {
    var s := Parted(tx);
    OneRow(tx, SettledRow(tx));
    assert s.watcher[tx] == RESET && !Awaits(s.pending, tx);
    assert !EntryExact(RowAt(s.db.rows, tx).value, s.watcher[tx]);
  }

  /** A rolled-back delivery of anything but a Confirmed is simply lost. */
  lemma StatusLost(tx: TxHash, db: Db, t: Option<W.Tracked>, st: Status, listed: seq<Row>, stale: set<TxHash>)
    requires st.phase != W.Confirmed
    ensures Advances(Mk(tx, db, t, false, [st], listed, stale), Mk(tx, db, t, false, [], listed, stale))
  {
    var s := Mk(tx, db, t, false, [st], listed, stale);
    assert [st][1..] == [];
    assert Enabled(s, Hand(RollsBack)) && !Resurrects(s, Hand(RollsBack));
    assert Do(s, Hand(RollsBack)) == Mk(tx, db, t, false, [], listed, stale);
  }

  /** A Reorged that is rolled back while its row is settled ends there. */
  lemma FailedReorgParts(tx: TxHash) returns (run: seq<Sys>)
    requires W.IsHexTxHash(tx)
    ensures |run| > 1 && Booted(run[0]) && AnchorInv(run[0]) && Advancing(run)
    ensures run[|run| - 1] == Parted(tx) && !ExactInv(Parted(tx))
  {
    var db, row := Settled(tx), SettledRow(tx);
    SettledIsSound(tx);
    Anchored(tx, db.journal, row);
    PartedForGood(tx);
    var a := Registered(tx, db.journal, row, RESUMED);
    var b := Passed(tx, db, RESUMED, [row], {}, Visit(tx, 6, W.NotFound, W.NoHeader),
                    W.Observation(Some(RESET), Some(Gone(tx))));
    StatusLost(tx, db, Some(RESET), Gone(tx), [row], {});
    Then(a, b + [Parted(tx)]);
    run := a + (b + [Parted(tx)])[1..];
  }

  const ATFIVE := W.Tracked(W.Confirmed, 100, 5, W.Confirmed, 1)

  function AtFive(tx: TxHash): Status { W.Status(tx, W.Confirmed, Some(100), 5, 1) }

  /** The database once that status is delivered. */
  function Confirmed(tx: TxHash): Db {
    var d := Handle(Unsettled(tx), AtFive(tx));
    if d.Some? then d.value else Unsettled(tx)
  }

  lemma FiveSettles(tx: TxHash)
    ensures Handle(Unsettled(tx), AtFive(tx)) == Some(Confirmed(tx)) && Confirmed(tx).rows == [SettledRow(tx)]
  {
    SeedBalance(1);
    SeedBalance(2);
    SettlePosts([SEED], Some(100));
  }

  /** The linked row is listed and seeded, and its transaction is confirmed and settled. */
  lemma SettledFromList(tx: TxHash) returns (run: seq<Sys>)
    requires W.IsHexTxHash(tx)
    ensures |run| == 6 && run[0] == Mk(tx, Unsettled(tx), None, false, [], [], {}) && Advancing(run)
    ensures run[5] == Mk(tx, Confirmed(tx), Some(ATFIVE), false, [], [LinkedRow(tx)], {})
  {
    var db, row := Unsettled(tx), LinkedRow(tx);
    var a := Registered(tx, db.journal, row, W.Fresh());
    var b := Passed(tx, db, W.Fresh(), [row], {}, Visit(tx, 5, W.Receipt(100, 5), W.NoHeader),
                    W.Observation(Some(ATFIVE), Some(AtFive(tx))));
    FiveSettles(tx);
    StatusHanded(tx, db, Some(ATFIVE), AtFive(tx), [row], {});
    var c := b + [Mk(tx, Confirmed(tx), Some(ATFIVE), false, [], [row], {})];
    Then(a, c);
    run := a + c[1..];
  }

  /** Then it is evicted at finality, and its Finalized is rolled back. */
  lemma FinalizedLost(tx: TxHash) returns (run: seq<Sys>)
    ensures |run| == 4 && run[0] == Mk(tx, Confirmed(tx), Some(ATFIVE), false, [], [LinkedRow(tx)], {})
    ensures Advancing(run) && run[3] == Mk(tx, Confirmed(tx), None, false, [], [LinkedRow(tx)], {tx})
  {
    var db, l := Confirmed(tx), [LinkedRow(tx)];
    var a := Passed(tx, db, ATFIVE, l, {}, Visit(tx, 6, W.Receipt(100, 5), W.Header(100)),
                    W.Observation(None, Some(Final(tx))));
    StatusLost(tx, db, None, Final(tx), l, {tx});
    assert {} + {tx} == {tx};
    var end := [a[2], Mk(tx, db, None, false, [], l, {tx})];
    Then(a, end);
    run := a + end[1..];
  }

  /** Entry pending over a settled row, by way of an old list. */
  function Misled(tx: TxHash): Sys { Mk(tx, Confirmed(tx), Some(W.Fresh()), false, [], [LinkedRow(tx)], {tx}) }

  lemma OldSeed(tx: TxHash)
    requires W.IsHexTxHash(tx)
    ensures var s := Mk(tx, Confirmed(tx), None, false, [], [LinkedRow(tx)], {tx});
      Advances(s, Misled(tx)) && Misleads(s, 0) && ExactInv(s) && !ExactInv(Misled(tx))
  {
    var s, s' := Mk(tx, Confirmed(tx), None, false, [], [LinkedRow(tx)], {tx}), Misled(tx);
    FiveSettles(tx);
    OneRow(tx, SettledRow(tx));
    RowSeeded(tx, Confirmed(tx), [], LinkedRow(tx), W.Fresh(), {tx});
    assert !Resurrects(s, Seed(0));
    assert s'.watcher[tx] == W.Fresh() && !Awaits(s'.pending, tx);
    assert !EntryExact(RowAt(s'.db.rows, tx).value, s'.watcher[tx]);
  }

  /**
   * A seed can part them without resurrecting anything. Rescan has listed the row while it was pending; the row
   * settles and is evicted at finality, the Finalized is rolled back, and the old list then registers the settled row
   * as pending.
   */
  lemma OldListMisleads(tx: TxHash) returns (run: seq<Sys>)
    requires W.IsHexTxHash(tx)
    ensures |run| > 1 && Booted(run[0]) && AnchorInv(run[0]) && Advancing(run)
    ensures run[|run| - 1] == Misled(tx) && ExactInv(run[|run| - 2]) && !ExactInv(Misled(tx))
  {
    UnsettledIsSound(tx);
    Anchored(tx, Unsettled(tx).journal, LinkedRow(tx));
    var a := SettledFromList(tx);
    var b := FinalizedLost(tx);
    OldSeed(tx);
    Then(a, b);
    var c := a + b[1..];
    Then(c, [b[3], Misled(tx)]);
    run := c + [b[3], Misled(tx)][1..];
    assert run[|run| - 2] == b[3];
  }

  const ATZERO := W.Tracked(W.Confirmed, 100, 0, W.Confirmed, 1)

  function AtZero(tx: TxHash): Status { W.Status(tx, W.Confirmed, None, 0, 1) }

  function ZeroRow(tx: TxHash): Row {
    LinkedRow(tx).(status := RowSettled, settleEntry := Some(1), anchor := Some(Anchor(None, 0)))
  }

  lemma ZeroSettles(tx: TxHash)
    ensures Handle(Unsettled(tx), AtZero(tx)).Some? && Handle(Unsettled(tx), AtZero(tx)).value.rows == [ZeroRow(tx)]
  {
    SeedBalance(1);
    SeedBalance(2);
    SettlePosts([SEED], None);
  }

  /** A transaction confirmed in block number zero settles without a block hash, and no restart can resume its row. */
  lemma BlockZeroLosesTheAnchor(tx: TxHash) returns (run: seq<Sys>)
    requires W.IsHexTxHash(tx)
    ensures |run| > 1 && Booted(run[0]) && AnchorInv(run[0]) && Advancing(run)
    ensures run[|run| - 1].db.rows == [ZeroRow(tx)] && !AnchorInv(run[|run| - 1])
    ensures ZeroRow(tx).status == RowSettled && Registration(CFG, ZeroRow(tx)).None?
  {
    var db, row := Unsettled(tx), LinkedRow(tx);
    UnsettledIsSound(tx);
    Anchored(tx, db.journal, row);
    var a := Registered(tx, db.journal, row, W.Fresh());
    var o := W.Observation(Some(ATZERO), Some(AtZero(tx)));
    var b := Passed(tx, db, W.Fresh(), [row], {}, Visit(tx, 0, W.Receipt(100, 0), W.NoHeader), o);
    ZeroSettles(tx);
    StatusHanded(tx, db, Some(ATZERO), AtZero(tx), [row], {});
    var end := Mk(tx, Handle(db, AtZero(tx)).value, Some(ATZERO), false, [], [row], {});
    Unanchored(tx, end);
    Then(a, b + [end]);
    run := a + (b + [end])[1..];
  }

  lemma Unanchored(tx: TxHash, s: Sys)
    requires s.db.rows == [ZeroRow(tx)]
    ensures !AnchorInv(s)
  {
    OneRow(tx, ZeroRow(tx));
    assert !AnchoredRow(RowAt(s.db.rows, tx).value);
  }
}
