/**
 * What rescan brings back: one list of the pending settlements followed by all its seeds, after a crash or at any other
 * moment, and how long a key that was seeded stays tracked.
 */
module Recovery {
  import opened Base
  import opened Store
  import opened Settlement
  import opened Money
  import opened Language
  import opened Pipeline
  import W = Watcher

  // ---------------------------------------------------------------- the list

  lemma {:induction false} FeedOneEach(rows: seq<Row>)
    requires OneRowEach(rows)
    ensures OneRowEach(Feed(rows))
  {
    if rows != [] {
      var before, r := rows[..|rows| - 1], rows[|rows| - 1];
      FeedOneEach(before);
      forall i | 0 <= i < |Feed(before)| ensures Feed(before)[i].tx != r.tx {
        assert Feed(before)[i] in Feed(before);
      }
    }
  }

  /** Of each transaction the feed holds the row of now, unless that is finalized. */
  lemma FeedExactly(rows: seq<Row>, tx: TxHash)
    requires OneRowEach(rows)
    ensures RowAt(Feed(rows), tx) ==
        if RowAt(rows, tx).Some? && RowAt(rows, tx).value.status != RowFinalized then RowAt(rows, tx) else None
  {
    var feed := Feed(rows);
    FeedOneEach(rows);
    if RowAt(feed, tx).Some? {
      var r := feed[Find(feed, tx).value];
      assert r in feed;
      var k :| 0 <= k < |rows| && rows[k] == r;
      RowIsAt(rows, k);
    } else if RowAt(rows, tx).Some? {
      var r := rows[Find(rows, tx).value];
      assert r in rows && r.tx == tx;
      assert forall k :: 0 <= k < |feed| ==> feed[k] != r;
    }
  }

  lemma {:induction false} FeedIsOldestFirst(rows: seq<Row>, i: nat, j: nat)
    requires OneRowEach(rows) && i < j < |Feed(rows)|
    ensures exists k, l :: 0 <= k < l < |rows| && rows[k] == Feed(rows)[i] && rows[l] == Feed(rows)[j]
  {
    var before, feed := rows[..|rows| - 1], Feed(rows[..|rows| - 1]);
    if j < |feed| {
      FeedIsOldestFirst(before, i, j);
      var k, l :| 0 <= k < l < |before| && before[k] == feed[i] && before[l] == feed[j];
      assert rows[k] == Feed(rows)[i] && rows[l] == Feed(rows)[j];
    } else {
      assert feed[i] in before;
      var k :| 0 <= k < |before| && before[k] == feed[i];
      assert rows[k] == Feed(rows)[i] && rows[|rows| - 1] == Feed(rows)[j];
    }
  }

  // ---------------------------------------------------------------- one rescan

  /** The entries after the first `n` seeds of the list, in order. */
  function Entries(cfg: W.Config, listed: seq<Row>, watcher: map<TxHash, W.Tracked>, n: nat): map<TxHash, W.Tracked>
    requires n <= |listed|
  {
    if n == 0 then watcher
    else
      var w, t := Entries(cfg, listed, watcher, n - 1), Registration(cfg, listed[n - 1]);
      if t.Some? && listed[n - 1].tx !in w then w[listed[n - 1].tx := t.value] else w
  }

  function SeededUpTo(s: Sys, n: nat): Sys
    requires n <= |s.listed|
  {
    s.(watcher := Entries(s.cfg, s.listed, s.watcher, n))
  }

  function Rescanned(s: Sys): Sys { SeededUpTo(Do(s, List), |Do(s, List).listed|) }

  /** One more seed is one more step of the machine. */
  lemma OneMoreSeed(s: Sys, n: nat)
    requires n < |s.listed|
    ensures SeededUpTo(s, n + 1) == Do(SeededUpTo(s, n), Seed(n))
  {}

  predicate Entered(t: Option<W.Tracked>, was: Option<W.Tracked>, now: Option<W.Tracked>) {
    now == if was.Some? then was else t
  }

  function EntryOf(w: map<TxHash, W.Tracked>, tx: TxHash): Option<W.Tracked> { if tx in w then Some(w[tx]) else None }

  function RegistrationOf(cfg: W.Config, r: Option<Row>): Option<W.Tracked> {
    if r.Some? then Registration(cfg, r.value) else None
  }

  lemma {:induction false} SeedsRegister(cfg: W.Config, listed: seq<Row>, w: map<TxHash, W.Tracked>, n: nat, tx: TxHash)
    requires n <= |listed| && OneRowEach(listed)
    ensures var t := RegistrationOf(cfg, RowAt(listed[..n], tx));
      Entered(t, EntryOf(w, tx), EntryOf(Entries(cfg, listed, w, n), tx))
  {
    if n > 0 {
      var r := listed[n - 1];
      SeedsRegister(cfg, listed, w, n - 1, tx);
      assert listed[..n] == listed[..n - 1] + [r];
      AppendRowAt(listed[..n - 1], r, tx);
      if r.tx == tx { assert RowAt(listed[..n - 1], tx).None?; }
    }
  }

  /** The rows a rescan can register: a well-formed hash, not finalized, and no anchor without a block hash. */
  predicate Watchable(row: Row) {
    && W.IsHexTxHash(row.tx) && row.status != RowFinalized
    && !(row.status == RowSettled && row.anchor.Some? && row.anchor.value.block.None?)
  }

  /** What a rescan makes of a row: a settled one with an anchor is Confirmed there, any other starts from scratch. */
  predicate Restored(cfg: W.Config, row: Row, t: W.Tracked) {
    if row.status == RowSettled && row.anchor.Some? then
      row.anchor.value.block == Some(t.hash)
      && t == W.Tracked(W.Confirmed, t.hash, row.anchor.value.number, W.Confirmed, cfg.depth)
    else t == W.Tracked(W.Pending, 0, 0, W.Pending, 0)
  }

  lemma RegistrationExactly(cfg: W.Config, row: Row)
    requires row.status != RowFinalized
    ensures Registration(cfg, row).Some? <==> Watchable(row)
    ensures Watchable(row) ==> Restored(cfg, row, Registration(cfg, row).value)
  {}

  lemma SeedsExactly(cfg: W.Config, rows: seq<Row>, w: map<TxHash, W.Tracked>, tx: TxHash)
    requires OneRowEach(rows)
    ensures var r, t := RowAt(rows, tx), EntryOf(Entries(cfg, Feed(rows), w, |Feed(rows)|), tx);
      if tx in w then t == Some(w[tx])
      else if r.Some? && Watchable(r.value) then t.Some? && Restored(cfg, r.value, t.value)
      else t == None
  {
    var feed := Feed(rows);
    FeedOneEach(rows);
    FeedExactly(rows, tx);
    SeedsRegister(cfg, feed, w, |feed|, tx);
    assert feed[..|feed|] == feed;
    var r := RowAt(feed, tx);
    if r.Some? { RegistrationExactly(cfg, r.value); }
  }

  /**
   * One rescan, at any moment: a tracked key keeps its entry, and of the others exactly those with a watchable row
   * become tracked, as the row says.
   */
  lemma RescanExactly(s: Sys, tx: TxHash)
    requires OneRowEach(s.db.rows)
    ensures var r, w := RowAt(s.db.rows, tx), Rescanned(s).watcher;
      && (tx in s.watcher ==> tx in w && w[tx] == s.watcher[tx])
      && (tx !in s.watcher ==> (tx in w <==> r.Some? && Watchable(r.value)))
      && (tx !in s.watcher && tx in w ==> Restored(s.cfg, r.value, w[tx]))
    ensures Rescanned(s).db == s.db && Rescanned(s).todo == s.todo && Rescanned(s).pending == s.pending
  {
    SeedsExactly(s.cfg, s.db.rows, s.watcher, tx);
  }

  // ---------------------------------------------------------------- after a restart

  /** The steps from `m` on are one list and its `n` seeds. */
  ghost predicate Rescans(steps: seq<Step>, m: nat, n: nat) {
    && m + n < |steps| && steps[m] == List
    && forall j :: 0 <= j < n ==> steps[m + 1 + j] == Seed(j)
  }

  lemma {:induction false} RescanInRun(run: seq<Sys>, steps: seq<Step>, m: nat, n: nat)
    requires Takes(run, steps) && Rescans(steps, m, n) && n <= |Feed(run[m].db.rows)|
    ensures run[m + n + 1] == SeededUpTo(Do(run[m], List), n)
  {
    if n == 0 {
      assert Goes(run, steps, m);
    } else {
      RescanInRun(run, steps, m, n - 1);
      OneMoreSeed(Do(run[m], List), n - 1);
      assert steps[m + 1 + (n - 1)] == Seed(n - 1);
      assert Goes(run, steps, m + n);
    }
  }

  /**
   * Recovery. In a run that resurrects nothing and meets no block zero, once the process is down, by a crash at any
   * point or at its first start, one list and its seeds restore the watcher: it tracks a transaction if and only if its
   * hash is well formed and it has a row that is not finalized, and holds it Confirmed, at the row's own block, if and
   * only if that row is settled.
   */
  lemma RecoveryRestoresWatcher(run: seq<Sys>, steps: seq<Step>, m: nat, tx: TxHash)
    requires Orderly(run, steps) && m < |run| && Down(run[m]) && Rescans(steps, m, |Feed(run[m].db.rows)|)
    ensures var s, r := run[m + |Feed(run[m].db.rows)| + 1], RowAt(run[m].db.rows, tx);
      && s.db == run[m].db
      && (tx in s.watcher <==> W.IsHexTxHash(tx) && r.Some? && r.value.status != RowFinalized)
      && (tx in s.watcher ==>
            && (s.watcher[tx].phase == W.Confirmed <==> r.value.status == RowSettled)
            && (r.value.status == RowSettled ==>
                  r.value.anchor == Some(Anchor(Some(s.watcher[tx].hash), s.watcher[tx].number)))
            && (r.value.status != RowSettled ==> s.watcher[tx] == W.Fresh()))
  {
    SafeUpTo(run, steps, m);
    AnchoredUpTo(run, steps, m);
    RescanInRun(run, steps, m, |Feed(run[m].db.rows)|);
    RescanExactly(run[m], tx);
    var r := RowAt(run[m].db.rows, tx);
    if r.Some? { assert AnchoredRow(r.value) && r.value.tx == tx; }
  }

  // ---------------------------------------------------------------- how long a key stays tracked

  /** The visit that evicts the key: it leaves a Finalized of it to be delivered. */
  predicate Evicts(s: Sys, step: Step, tx: TxHash) {
    && step.Visit? && step.tx == tx && tx in s.watcher
    && var o := W.Observe(s.cfg, tx, s.watcher[tx], step.head, step.receipt, step.header);
       o.entry.None? && o.status.Some? && o.status.value.phase == W.Finalized && o.status.value.tx == tx
  }

  /** A tracked key leaves the watcher by a crash or by its own eviction, and by nothing else. */
  lemma StepKeepsTracked(s: Sys, step: Step, tx: TxHash)
    requires SafeInv(s) && Enabled(s, step) && tx in s.watcher
    ensures tx in Do(s, step).watcher <==> !step.Crash? && !Evicts(s, step, tx)
  {
    if step.Visit? {
      assert EntrySafe(s.db.rows, s.watcher[step.tx], step.tx, Awaits(s.pending, step.tx));
      NothingSwallowed(s.cfg, step.tx, s.watcher[step.tx], step.head, step.receipt, step.header);
    }
  }

  /**
   * Between restarts, however polls, deliveries and other rescans interleave: the seed of a watchable row leaves its
   * key tracked, and from then on it stays tracked until the visit that reports it Finalized.
   */
  lemma {:induction false} SeededStaysTracked(run: seq<Sys>, steps: seq<Step>, m: nat, n: nat)
    requires Calm(run, steps) && m < n < |run| && steps[m].Seed? && steps[m].i < |run[m].listed|
    requires Watchable(run[m].listed[steps[m].i])
    requires var tx := run[m].listed[steps[m].i].tx;
      forall k :: m < k < n ==> !steps[k].Crash? && !Evicts(run[k], steps[k], tx)
    ensures run[m].listed[steps[m].i].tx in run[n].watcher
  {
    var tx := run[m].listed[steps[m].i].tx;
    if n == m + 1 {
      assert Goes(run, steps, m);
    } else {
      SeededStaysTracked(run, steps, m, n - 1);
      SafeUpTo(run, steps, n - 1);
      assert Goes(run, steps, n - 1);
      StepKeepsTracked(run[n - 1], steps[n - 1], tx);
    }
  }
}
