/** The confirmation watcher: one polling pass, registration, and the rollback of a failed delivery. */
module Watcher {
  import opened Base

  datatype Phase = Pending | Mined | Confirmed | Reorged | Finalized

  datatype Status = Status(tx: TxHash, phase: Phase, block: Option<Hash>, number: uint64, depth: uint64)

  /** Per-transaction state: the anchor block and the last status surfaced. */
  datatype Tracked = Tracked(phase: Phase, hash: Hash, number: uint64, lastPhase: Phase, lastDepth: uint64)

  datatype ReceiptReply = NotFound | Transient | NoReceipt | Receipt(hash: Hash, number: uint64)
  datatype HeaderReply = HeaderError | NoHeader | Header(hash: Hash)

  datatype Config = Config(depth: uint64, finality: uint64) {
    predicate Valid() { 0 < depth < finality }
  }

  predicate IsHexTxHash(s: string) {
    && |s| == 66 && s[0] == '0' && (s[1] == 'x' || s[1] == 'X')
    && forall i :: 2 <= i < 66 ==> '0' <= s[i] <= '9' || 'a' <= s[i] <= 'f' || 'A' <= s[i] <= 'F'
  }

  function HexDigit(n: int): char
    requires 0 <= n < 16
  {
    if n < 10 then '0' + n as char else 'a' + (n - 10) as char
  }

  /** Bytes written in hexadecimal, two digits for each. */
  function Hex(bytes: seq<int>): (s: string)
    requires forall i :: 0 <= i < |bytes| ==> 0 <= bytes[i] < 256
    ensures |s| == 2 * |bytes|
    ensures forall i :: 0 <= i < |s| ==> '0' <= s[i] <= '9' || 'a' <= s[i] <= 'f'
  {
    if bytes == [] then [] else [HexDigit(bytes[0] / 16), HexDigit(bytes[0] % 16)] + Hex(bytes[1..])
  }

  lemma DigitsAreWellFormed(h: string)
    requires forall i :: 0 <= i < |h| ==> '0' <= h[i] <= '9' || 'a' <= h[i] <= 'f'
    ensures IsHexTxHash(['0', 'x'] + h) <==> |h| == 64
  {
    var s := ['0', 'x'] + h;
    assert s[0] == '0' && s[1] == 'x' && forall i :: 2 <= i < |s| ==> s[i] == h[i - 2];
  }

  /** Every 32-byte hash is well formed when written in hexadecimal, and no shorter or longer one is. */
  lemma HashTextIsWellFormed(bytes: seq<int>)
    requires forall i :: 0 <= i < |bytes| ==> 0 <= bytes[i] < 256
    ensures IsHexTxHash(['0', 'x'] + Hex(bytes)) <==> |bytes| == 32
  {
    DigitsAreWellFormed(Hex(bytes));
  }

  /** Depth of a block under the head, counting itself; uint64 subtraction, 0 when the head lags. */
  function Confirmations(head: uint64, mined: uint64): uint64 {
    if head < mined || head - mined == TWO_64 - 1 then 0 else head - mined + 1
  }

  function Fresh(): Tracked { Tracked(Pending, 0, 0, Pending, 0) }

  function Resumed(cfg: Config, hash: Hash, number: uint64): Tracked {
    Tracked(Confirmed, hash, number, Confirmed, cfg.depth)
  }

  /** The block as a status shows it: empty text for block number zero. */
  function Shown(hash: Hash, number: uint64): Option<Hash> { if number != 0 then Some(hash) else None }

  // ---------------------------------------------------------------- one observation

  datatype Observation = Observation(entry: Option<Tracked>, status: Option<Status>)

  /** Surfaces a status unless it repeats the last one at no greater depth. */
  function Emit(tx: TxHash, t: Tracked, phase: Phase, hash: Hash, number: uint64, depth: uint64): Observation {
    if phase == t.lastPhase && depth <= t.lastDepth then Observation(Some(t), None)
    else Observation(Some(t.(lastPhase := phase, lastDepth := depth)),
                     Some(Status(tx, phase, Shown(hash, number), number, depth)))
  }

  /** A reorg: Reorged against the old anchor, then back to pending. */
  function Reverse(tx: TxHash, t: Tracked): Observation {
    var o := Emit(tx, t, Reorged, t.hash, t.number, 0);
    Observation(Some(o.entry.value.(phase := Pending, hash := 0, number := 0)), o.status)
  }

  /** What one polling pass does with one tracked transaction. */
  function Observe(cfg: Config, tx: TxHash, t: Tracked, head: uint64, receipt: ReceiptReply,
                   header: HeaderReply): Observation {
    match t.phase
    case Pending =>
      if !receipt.Receipt? then Observation(Some(t), None)
      else
        var depth := if Confirmations(head, receipt.number) == 0 then 1 else Confirmations(head, receipt.number);
        var phase := if depth >= cfg.depth then Confirmed else Mined;
        Emit(tx, t.(phase := phase, hash := receipt.hash, number := receipt.number),
             phase, receipt.hash, receipt.number, depth)
    case Mined =>
      if receipt.NotFound? then Reverse(tx, t)
      else if !receipt.Receipt? || !header.Header? then Observation(Some(t), None)
      else if header.hash != t.hash then Reverse(tx, t)
      else if head < t.number then Observation(Some(t), None)
      else
        var depth := Confirmations(head, t.number);
        if depth >= cfg.depth then Emit(tx, t.(phase := Confirmed), Confirmed, t.hash, t.number, depth)
        else Emit(tx, t, Mined, t.hash, t.number, depth)
    case Confirmed =>
      if receipt.NotFound? then Reverse(tx, t)
      else if !receipt.Receipt? || !header.Header? then Observation(Some(t), None)
      else if header.hash != t.hash then Reverse(tx, t)
      else if head >= t.number && Confirmations(head, t.number) >= cfg.finality then
        Observation(None, Emit(tx, t, Finalized, t.hash, t.number, Confirmations(head, t.number)).status)
      else Observation(Some(t), None)
    case Reorged => Observation(Some(t), None)
    case Finalized => Observation(Some(t), None)
  }

  /** What Run does to the entry when the delivery of a Confirmed status fails. */
  function RolledBack(t: Tracked): Tracked {
    if t.phase == Confirmed then t.(phase := Mined, lastPhase := Pending, lastDepth := 0) else t
  }

  // ---------------------------------------------------------------- one pass

  datatype Reader = Reader(receipts: TxHash -> ReceiptReply, headers: TxHash -> HeaderReply)

  function ObserveIn(cfg: Config, tracked: map<TxHash, Tracked>, tx: TxHash, head: uint64, r: Reader): Observation
    requires tx in tracked
  {
    Observe(cfg, tx, tracked[tx], head, r.receipts(tx), r.headers(tx))
  }

  /** The statuses of a pass that visits the keys in the given order. */
  function Emissions(cfg: Config, tracked: map<TxHash, Tracked>, order: seq<TxHash>, head: uint64,
                     r: Reader): seq<Status>
    requires forall tx | tx in order :: tx in tracked
  {
    if order == [] then []
    else
      var rest := order[..|order| - 1];
      var o := ObserveIn(cfg, tracked, order[|order| - 1], head, r);
      Emissions(cfg, tracked, rest, head, r) + Listed(o)
  }

  /** `after` is `before` with exactly the keys of `done` replaced by, or evicted as, their observation. */
  ghost predicate Observed(cfg: Config, before: map<TxHash, Tracked>, after: map<TxHash, Tracked>, done: set<TxHash>,
                           head: uint64, r: Reader)
    requires done <= before.Keys
  {
    && after.Keys <= before.Keys
    && forall tx | tx in before ::
         var was := if tx in done then ObserveIn(cfg, before, tx, head, r).entry else Some(before[tx]);
         && (tx in after <==> was.Some?)
         && (tx in after ==> after[tx] == was.value)
  }

  /** The map after one key was observed: its entry replaced, or evicted. */
  function After(tracked: map<TxHash, Tracked>, tx: TxHash, o: Observation): map<TxHash, Tracked> {
    if o.entry.Some? then tracked[tx := o.entry.value] else tracked - {tx}
  }

  function Listed(o: Observation): seq<Status> { if o.status.Some? then [o.status.value] else [] }

  lemma ObserveOneMore(cfg: Config, before: map<TxHash, Tracked>, after: map<TxHash, Tracked>, done: set<TxHash>,
                       tx: TxHash,
                       head: uint64, r: Reader)
    requires done <= before.Keys && tx in before && tx !in done
    requires Observed(cfg, before, after, done, head, r)
    ensures Observed(cfg, before, After(after, tx, ObserveIn(cfg, before, tx, head, r)), done + {tx}, head, r)
  {}

  class Watcher {
    const cfg: Config
    var tracked: map<TxHash, Tracked>

    constructor (cfg: Config)
      requires cfg.Valid()
      ensures this.cfg == cfg && tracked == map[]
    {
      this.cfg := cfg;
      tracked := map[];
    }

    /** The knobs are checked once: a positive depth, a finality beyond it, a positive interval. */
    static method New(depth: uint64, finality: uint64, interval: int) returns (w: Watcher?)
      ensures w == null <==> depth == 0 || finality <= depth || interval <= 0
      ensures w != null ==> fresh(w) && w.cfg == Config(depth, finality) && w.cfg.Valid() && w.tracked == map[]
    {
      if depth == 0 || finality <= depth || interval <= 0 { return null; }
      w := new Watcher(Config(depth, finality));
    }

    /** Registers a well-formed hash once; a live entry is never reset. */
    method Track(tx: TxHash) returns (ok: bool)
      modifies this
      ensures ok <==> IsHexTxHash(tx)
      ensures tracked == if ok && tx !in old(tracked) then old(tracked)[tx := Fresh()] else old(tracked)
    {
      if !IsHexTxHash(tx) { return false; }
      if tx !in tracked { tracked := tracked[tx := Fresh()]; }
      ok := true;
    }

    /** Registers a settled row at its anchor; an empty block hash is refused. */
    method Resume(tx: TxHash, block: Option<Hash>, number: uint64) returns (ok: bool)
      modifies this
      ensures ok <==> IsHexTxHash(tx) && block.Some?
      ensures tracked == if ok && tx !in old(tracked) then old(tracked)[tx := Resumed(cfg, block.value, number)]
          else old(tracked)
    {
      if !IsHexTxHash(tx) || block.None? { return false; }
      if tx !in tracked { tracked := tracked[tx := Resumed(cfg, block.value, number)]; }
      ok := true;
    }

    method EmitStatus(tx: TxHash, phase: Phase, hash: Hash, number: uint64, depth: uint64) returns (out: seq<Status>)
      requires tx in tracked
      modifies this
      ensures var o := Emit(tx, old(tracked[tx]), phase, hash, number, depth);
        tracked == After(old(tracked), tx, o) && out == Listed(o)
    {
      var t := tracked[tx];
      if phase == t.lastPhase && depth <= t.lastDepth { return []; }
      tracked := tracked[tx := t.(lastPhase := phase, lastDepth := depth)];
      var block := None;
      if number != 0 { block := Some(hash); }
      out := [Status(tx, phase, block, number, depth)];
    }

    method ReverseEntry(tx: TxHash) returns (out: seq<Status>)
      requires tx in tracked
      modifies this
      ensures var o := Reverse(tx, old(tracked[tx]));
        tracked == After(old(tracked), tx, o) && out == Listed(o)
    {
      out := EmitStatus(tx, Reorged, tracked[tx].hash, tracked[tx].number, 0);
      tracked := tracked[tx := tracked[tx].(phase := Pending, hash := 0, number := 0)];
    }

    method PollPending(tx: TxHash, head: uint64, r: Reader) returns (out: seq<Status>)
      requires tx in tracked && tracked[tx].phase == Pending
      modifies this
      ensures var o := ObserveIn(cfg, old(tracked), tx, head, r);
        tracked == After(old(tracked), tx, o) && out == Listed(o)
    {
      var t, receipt := tracked[tx], r.receipts(tx);
      if !receipt.Receipt? { return []; }
      var depth := Confirmations(head, receipt.number);
      if depth == 0 { depth := 1; }
      t := t.(hash := receipt.hash, number := receipt.number);
      if depth >= cfg.depth {
        tracked := tracked[tx := t.(phase := Confirmed)];
        out := EmitStatus(tx, Confirmed, receipt.hash, receipt.number, depth);
      } else {
        tracked := tracked[tx := t.(phase := Mined)];
        out := EmitStatus(tx, Mined, receipt.hash, receipt.number, depth);
      }
    }

    method PollMined(tx: TxHash, head: uint64, r: Reader) returns (out: seq<Status>)
      requires tx in tracked && tracked[tx].phase == Mined
      modifies this
      ensures var o := ObserveIn(cfg, old(tracked), tx, head, r);
        tracked == After(old(tracked), tx, o) && out == Listed(o)
    {
      out := [];
      var t, receipt, header := tracked[tx], r.receipts(tx), r.headers(tx);
      if receipt.NotFound? {
        out := ReverseEntry(tx);
      } else if receipt.Receipt? && header.Header? {
        if header.hash != t.hash {
          out := ReverseEntry(tx);
        } else if head >= t.number {
          var depth := Confirmations(head, t.number);
          if depth >= cfg.depth {
            tracked := tracked[tx := t.(phase := Confirmed)];
            out := EmitStatus(tx, Confirmed, t.hash, t.number, depth);
          } else {
            out := EmitStatus(tx, Mined, t.hash, t.number, depth);
          }
        }
      }
    }

    method PollConfirmed(tx: TxHash, head: uint64, r: Reader) returns (out: seq<Status>)
      requires tx in tracked && tracked[tx].phase == Confirmed
      modifies this
      ensures var o := ObserveIn(cfg, old(tracked), tx, head, r);
        tracked == After(old(tracked), tx, o) && out == Listed(o)
    {
      out := [];
      var t, receipt, header := tracked[tx], r.receipts(tx), r.headers(tx);
      if receipt.NotFound? {
        out := ReverseEntry(tx);
      } else if receipt.Receipt? && header.Header? {
        if header.hash != t.hash {
          out := ReverseEntry(tx);
        } else if head >= t.number && Confirmations(head, t.number) >= cfg.finality {
          out := EmitStatus(tx, Finalized, t.hash, t.number, Confirmations(head, t.number));
          tracked := tracked - {tx};
        }
      }
    }

    /** The body of the pass for one key: at most one receipt and one header are read, at most one status is emitted. */
    method PollKey(tx: TxHash, head: uint64, r: Reader) returns (out: seq<Status>)
      requires tx in tracked
      modifies this
      ensures var o := ObserveIn(cfg, old(tracked), tx, head, r);
        tracked == After(old(tracked), tx, o) && out == Listed(o)
    {
      match tracked[tx].phase {
        case Pending => out := PollPending(tx, head, r);
        case Mined => out := PollMined(tx, head, r);
        case Confirmed => out := PollConfirmed(tx, head, r);
        case Reorged => out := [];
        case Finalized => out := [];
      }
    }

    /**
     * One synchronous pass. The keys are visited once each, in whatever order the map yields them;
     * without a head nothing is touched.
     */
    method Poll(head: Option<uint64>, r: Reader) returns (emitted: seq<Status>, ghost order: seq<TxHash>)
      modifies this
      ensures head.None? ==> tracked == old(tracked) && emitted == []
      ensures head.Some? ==>
        && (forall i, j :: 0 <= i < j < |order| ==> order[i] != order[j])
        && (forall tx :: tx in order <==> tx in old(tracked))
        && emitted == Emissions(cfg, old(tracked), order, head.value, r)
        && Observed(cfg, old(tracked), tracked, old(tracked).Keys, head.value, r)
    {
      emitted, order := [], [];
      if head.None? { return; }
      var keys := tracked.Keys;
      ghost var done: set<TxHash> := {};
      while keys != {}
        invariant done + keys == old(tracked).Keys && done !! keys
        invariant forall tx :: tx in order <==> tx in done
        invariant forall i, j :: 0 <= i < j < |order| ==> order[i] != order[j]
        invariant emitted == Emissions(cfg, old(tracked), order, head.value, r)
        invariant Observed(cfg, old(tracked), tracked, done, head.value, r)
        decreases keys
      {
        var tx :| tx in keys;
        ObserveOneMore(cfg, old(tracked), tracked, done, tx, head.value, r);
        assert tx in tracked && tracked[tx] == old(tracked)[tx];
        var out := PollKey(tx, head.value, r);
        assert (order + [tx])[..|order|] == order;
        emitted := emitted + out;
        keys, done, order := keys - {tx}, done + {tx}, order + [tx];
      }
      assert done == old(tracked).Keys;
    }

    /** Run's reaction to the sink's answer for one status. */
    method Delivered(s: Status, failed: bool)
      modifies this
      ensures tracked ==
        if failed && s.phase == Confirmed && s.tx in old(tracked)
        then old(tracked)[s.tx := RolledBack(old(tracked)[s.tx])] else old(tracked)
    {
      if failed && s.phase == Confirmed && s.tx in tracked && tracked[s.tx].phase == Confirmed {
        tracked := tracked[s.tx := tracked[s.tx].(phase := Mined, lastPhase := Pending, lastDepth := 0)];
      }
    }
  }
}
