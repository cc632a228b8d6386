/** The order in which statuses can leave the watcher for one registration, over every run of polls and deliveries. */
module Language {
  import opened Base
  import opened Watcher

  // ---------------------------------------------------------------- the entry invariant

  /** The dedupe memory always matches the phase, so it can never hide a phase change. */
  predicate EntryOk(t: Tracked) {
    match t.phase
    case Pending => (t.lastPhase == Pending || t.lastPhase == Reorged) && t.lastDepth == 0
    case Mined => t.lastPhase == Mined || (t.lastPhase == Pending && t.lastDepth == 0)
    case Confirmed => t.lastPhase == Confirmed
    case Reorged => false
    case Finalized => false
  }

  /**
   * The status that a move from `t` to phase `p` must surface: a return to pending shows as Reorged, against the old
   * anchor.
   */
  function PhaseShown(p: Phase): Phase { if p == Pending then Reorged else p }

  /** What an observation of `t` surfaces. */
  predicate Surfaces(t: Tracked, o: Observation, tx: TxHash) {
    && (o.entry.Some? ==> EntryOk(o.entry.value))
    && (o.entry.None? ==>
          && t.phase == Confirmed && o.status.Some? && o.status.value.phase == Finalized
          && o.status.value.number == t.number && o.status.value.block == Shown(t.hash, t.number))
    && (o.entry.Some? && o.entry.value.phase != t.phase ==>
          o.status.Some? && o.status.value.phase == PhaseShown(o.entry.value.phase))
    && (o.entry.Some? && o.entry.value.phase == t.phase ==>
          || o.status.None?
          || (t.phase == Mined && o.status.value.phase == Mined
              && (t.lastPhase == Mined ==> o.status.value.depth > t.lastDepth)))
    && (o.status.Some? ==> o.status.value.tx == tx)
  }

  /**
   * Every phase change and every eviction surfaces exactly its own status, an unchanged phase surfaces at most
   * a deeper Mined, and the entry invariant is kept.
   */
  lemma NothingSwallowed(cfg: Config, tx: TxHash, t: Tracked, head: uint64, receipt: ReceiptReply, header: HeaderReply)
    requires cfg.Valid() && EntryOk(t)
    ensures Surfaces(t, Observe(cfg, tx, t, head, receipt, header), tx)
  {}

  // ---------------------------------------------------------------- when each status appears

  /** The tick shows that the anchored block is no longer on the chain. */
  predicate ShowsReorg(t: Tracked, receipt: ReceiptReply, header: HeaderReply) {
    receipt == NotFound || (receipt.Receipt? && header.Header? && header.hash != t.hash)
  }

  /** The tick shows that it is, under a head that has reached it. */
  predicate ShowsAnchor(t: Tracked, head: uint64, receipt: ReceiptReply, header: HeaderReply) {
    receipt.Receipt? && header == Header(t.hash) && head >= t.number
  }

  /** head - number + 1 in uint64 arithmetic. */
  function DepthOver(head: uint64, number: uint64): uint64
    requires head >= number
  {
    if head - number == TWO_64 - 1 then 0 else head - number + 1
  }

  ghost predicate Emits(o: Observation, phase: Phase) { o.status.Some? && o.status.value.phase == phase }

  /** A pending entry moves exactly when a receipt answers: to its block, Confirmed if deep enough and Mined if not. */
  lemma PendingExactly(cfg: Config, tx: TxHash, t: Tracked, head: uint64, receipt: ReceiptReply, header: HeaderReply)
    requires cfg.Valid() && EntryOk(t) && t.phase == Pending
    ensures var o := Observe(cfg, tx, t, head, receipt, header);
      && (!receipt.Receipt? ==> o == Observation(Some(t), None))
      && (receipt.Receipt? ==>
            var depth := if head < receipt.number || DepthOver(head, receipt.number) == 0 then 1
                         else DepthOver(head, receipt.number);
            var phase := if depth >= cfg.depth then Confirmed else Mined;
            var block := if receipt.number == 0 then None else Some(receipt.hash);
            && o.entry == Some(Tracked(phase, receipt.hash, receipt.number, phase, depth))
            && o.status == Some(Status(tx, phase, block, receipt.number, depth)))
  {}

  /**
   * An anchored entry is reported reorged if and only if the tick shows its block gone, and then it starts over. It is
   * confirmed, and finalized, if and only if the tick shows its block under enough others; a mined one surfaces again
   * if and only if it is deeper than last time. Anything else leaves it alone.
   */
  lemma AnchoredExactly(cfg: Config, tx: TxHash, t: Tracked, head: uint64, receipt: ReceiptReply, header: HeaderReply)
    requires cfg.Valid() && EntryOk(t) && (t.phase == Mined || t.phase == Confirmed)
    ensures var o := Observe(cfg, tx, t, head, receipt, header);
      var deep := ShowsAnchor(t, head, receipt, header);
      && (Emits(o, Reorged) <==> ShowsReorg(t, receipt, header))
      && (Emits(o, Reorged) ==> o.entry == Some(Tracked(Pending, 0, 0, Reorged, 0)) && o.status.value.depth == 0)
      && (Emits(o, Confirmed) <==> t.phase == Mined && deep && DepthOver(head, t.number) >= cfg.depth)
      && (Emits(o, Confirmed) ==>
            o.entry == Some(Tracked(Confirmed, t.hash, t.number, Confirmed, DepthOver(head, t.number))))
      && (Emits(o, Finalized) <==> t.phase == Confirmed && deep && DepthOver(head, t.number) >= cfg.finality)
      && (o.entry.None? <==> Emits(o, Finalized))
      && (Emits(o, Mined) <==>
            && t.phase == Mined && deep && DepthOver(head, t.number) < cfg.depth
            && (t.lastPhase == Mined ==> DepthOver(head, t.number) > t.lastDepth))
      && (o.status.None? ==> o.entry == Some(t))
      && (o.status.Some? ==>
            && o.status.value.tx == tx && o.status.value.number == t.number
            && o.status.value.block == (if t.number == 0 then None else Some(t.hash))
            && (o.status.value.phase != Reorged ==> o.status.value.depth == DepthOver(head, t.number)))
  {}

  // ---------------------------------------------------------------- runs of one registration

  /** One tick: the replies of a pass, and whether the delivery of the status it emits (if any) fails. */
  datatype Tick = Tick(head: Option<uint64>, receipt: ReceiptReply, header: HeaderReply, failed: bool)

  /** A delivered status. */
  datatype Letter = Letter(status: Status, failed: bool)

  function Look(cfg: Config, tx: TxHash, t: Tracked, k: Tick): Observation {
    if k.head.None? then Observation(Some(t), None) else Observe(cfg, tx, t, k.head.value, k.receipt, k.header)
  }

  /** The entry after the tick and its delivery. */
  function Settle(o: Observation, failed: bool): Option<Tracked> {
    if o.entry.Some? && o.status.Some? && o.status.value.phase == Confirmed && failed
    then Some(RolledBack(o.entry.value)) else o.entry
  }

  /** Everything one registration emits, in order; the registration ends when the entry is evicted. */
  function History(cfg: Config, tx: TxHash, t: Tracked, ticks: seq<Tick>): seq<Letter>
    decreases |ticks|
  {
    if ticks == [] then []
    else
      var o := Look(cfg, tx, t, ticks[0]);
      var first := if o.status.Some? then [Letter(o.status.value, ticks[0].failed)] else [];
      var t' := Settle(o, ticks[0].failed);
      first + if t'.None? then [] else History(cfg, tx, t'.value, ticks[1..])
  }

  /** The entry a registration is left with; None once it was evicted. */
  function Remains(cfg: Config, tx: TxHash, t: Tracked, ticks: seq<Tick>): Option<Tracked>
    decreases |ticks|
  {
    if ticks == [] then Some(t)
    else
      var t' := Settle(Look(cfg, tx, t, ticks[0]), ticks[0].failed);
      if t'.None? then None else Remains(cfg, tx, t'.value, ticks[1..])
  }

  function Letters(o: Observation, failed: bool): seq<Letter> {
    if o.status.Some? then [Letter(o.status.value, failed)] else []
  }

  /** One more tick adds what it shows of the entry that is left, and nothing once that was evicted. */
  lemma {:induction false} OneMoreTick(cfg: Config, tx: TxHash, t: Tracked, ticks: seq<Tick>, k: Tick)
    ensures var a := Remains(cfg, tx, t, ticks);
      && History(cfg, tx, t, ticks + [k]) ==
           History(cfg, tx, t, ticks) + (if a.Some? then Letters(Look(cfg, tx, a.value, k), k.failed) else [])
      && Remains(cfg, tx, t, ticks + [k]) == (if a.Some? then Settle(Look(cfg, tx, a.value, k), k.failed) else None)
    decreases |ticks|
  {
    if ticks == [] {
      assert (ticks + [k])[1..] == [];
    } else {
      assert (ticks + [k])[1..] == ticks[1..] + [k];
      var t' := Settle(Look(cfg, tx, t, ticks[0]), ticks[0].failed);
      if t'.Some? { OneMoreTick(cfg, tx, t'.value, ticks[1..], k); }
    }
  }

  // ---------------------------------------------------------------- the language

  datatype Auto =
    | Start
    | AtMined(block: Option<Hash>, number: uint64, depth: uint64)
    | Unconfirmed(block: Option<Hash>, number: uint64)
    | AtConfirmed(block: Option<Hash>, number: uint64)
    | Done

  /** The automaton that defines the language: None rejects. */
  function Delta(cfg: Config, q: Auto, w: Letter): Option<Auto> {
    var s := w.status;
    match s.phase
    case Mined =>
      if s.depth < cfg.depth
          && (q == Start || (q.Unconfirmed? && Same(q, s)) || (q.AtMined? && Same(q, s) && s.depth > q.depth))
      then Some(AtMined(s.block, s.number, s.depth)) else None
    case Confirmed =>
      if s.depth >= cfg.depth && (q == Start || ((q.Unconfirmed? || q.AtMined?) && Same(q, s)))
      then Some(if w.failed then Unconfirmed(s.block, s.number) else AtConfirmed(s.block, s.number)) else None
    case Reorged =>
      if s.depth == 0 && (q.AtMined? || q.Unconfirmed? || q.AtConfirmed?) && Same(q, s) then Some(Start) else None
    case Finalized =>
      if s.depth >= cfg.finality && q.AtConfirmed? && Same(q, s) then Some(Done) else None
    case Pending => None
  }

  predicate Same(q: Auto, s: Status)
    requires q.AtMined? || q.Unconfirmed? || q.AtConfirmed?
  {
    q.block == s.block && q.number == s.number
  }

  function After(cfg: Config, q: Auto, w: seq<Letter>): Option<Auto>
    decreases |w|
  {
    if w == [] then Some(q)
    else if Delta(cfg, q, w[0]).None? then None
    else After(cfg, Delta(cfg, q, w[0]).value, w[1..])
  }

  /** The automaton state an entry stands for. */
  function StateOf(t: Tracked): Auto {
    var block := Shown(t.hash, t.number);
    match t.phase
    case Mined => if t.lastPhase == Mined then AtMined(block, t.number, t.lastDepth) else Unconfirmed(block, t.number)
    case Confirmed => AtConfirmed(block, t.number)
    case _ => Start
  }

  /** One tick is one transition of the automaton, or none when nothing is emitted. */
  lemma OneTick(cfg: Config, tx: TxHash, t: Tracked, k: Tick)
    requires cfg.Valid() && EntryOk(t)
    ensures var o := Look(cfg, tx, t, k);
      var t' := Settle(o, k.failed);
      && (t'.Some? ==> EntryOk(t'.value))
      && (o.status.None? ==> t'.Some? && StateOf(t'.value) == StateOf(t))
      && (o.status.Some? ==>
            Delta(cfg, StateOf(t), Letter(o.status.value, k.failed)) ==
                Some(if t'.Some? then StateOf(t'.value) else Done))
  {
    if k.head.Some? { NothingSwallowed(cfg, tx, t, k.head.value, k.receipt, k.header); }
  }

  /**
   * Whatever the chain answers and whichever deliveries fail, the statuses of a registration form a word of the
   * language.
   */
  lemma {:induction false} HistoryInLanguage(cfg: Config, tx: TxHash, t: Tracked, ticks: seq<Tick>)
    requires cfg.Valid() && EntryOk(t)
    ensures After(cfg, StateOf(t), History(cfg, tx, t, ticks)).Some?
    decreases |ticks|
  {
    if ticks != [] {
      OneTick(cfg, tx, t, ticks[0]);
      var o := Look(cfg, tx, t, ticks[0]);
      var t' := Settle(o, ticks[0].failed);
      if t'.Some? {
        HistoryInLanguage(cfg, tx, t'.value, ticks[1..]);
        var rest := History(cfg, tx, t'.value, ticks[1..]);
        if o.status.Some? {
          var w := [Letter(o.status.value, ticks[0].failed)] + rest;
          assert w[1..] == rest && History(cfg, tx, t, ticks) == w;
        } else {
          assert History(cfg, tx, t, ticks) == [] + rest == rest;
        }
      } else {
        var w := [Letter(o.status.value, ticks[0].failed)];
        assert w[1..] == [] && History(cfg, tx, t, ticks) == w + [] == w;
      }
    }
  }

  // ---------------------------------------------------------------- what the language says

  /** The state reached just before position i of an accepted word. */
  lemma {:induction false} StateAt(cfg: Config, q: Auto, w: seq<Letter>, i: nat) returns (p: Auto)
    requires i <= |w| && After(cfg, q, w).Some?
    ensures After(cfg, q, w[..i]) == Some(p) && After(cfg, p, w[i..]).Some?
    decreases i
  {
    if i == 0 {
      p := q;
      assert w[0..] == w;
    } else {
      p := StateAt(cfg, Delta(cfg, q, w[0]).value, w[1..], i - 1);
      assert w[1..][..i - 1] == w[..i][1..] && w[1..][i - 1..] == w[i..];
    }
  }

  /** The letter at position i and the states on its two sides. */
  lemma Around(cfg: Config, q: Auto, w: seq<Letter>, i: nat) returns (p: Auto, p': Auto)
    requires i < |w| && After(cfg, q, w).Some?
    ensures After(cfg, q, w[..i]) == Some(p) && Delta(cfg, p, w[i]) == Some(p') && After(cfg, p', w[i + 1..]).Some?
  {
    p := StateAt(cfg, q, w, i);
    assert w[i..][0] == w[i] && w[i..][1..] == w[i + 1..];
    p' := Delta(cfg, p, w[i]).value;
  }

  /**
   * Finalized is the last letter. The letter before it is a delivered Confirmed at the same block; if it is the only
   * letter, the word started from a confirmed anchor at that block.
   */
  lemma FinalizedIsLast(cfg: Config, q: Auto, w: seq<Letter>, i: nat)
    requires i < |w| && After(cfg, q, w).Some? && w[i].status.phase == Finalized
    ensures i == |w| - 1
    ensures i == 0 ==> q == AtConfirmed(w[i].status.block, w[i].status.number)
    ensures i > 0 ==>
      && w[i - 1].status.phase == Confirmed && !w[i - 1].failed
      && w[i - 1].status.block == w[i].status.block && w[i - 1].status.number == w[i].status.number
  {
    var p, p' := Around(cfg, q, w, i);
    if i + 1 < |w| { var _, _ := Around(cfg, Done, w[i + 1..], 0); }
    if i > 0 {
      var r, r' := Around(cfg, q, w, i - 1);
      AppendLetter(cfg, q, w[..i - 1], w[i - 1]);
      assert w[..i - 1] + [w[i - 1]] == w[..i];
    }
  }

  lemma {:induction false} AppendLetter(cfg: Config, q: Auto, w: seq<Letter>, l: Letter)
    requires After(cfg, q, w).Some?
    ensures After(cfg, q, w + [l]) == Delta(cfg, After(cfg, q, w).value, l)
    decreases |w|
  {
    if w == [] {
      assert (w + [l])[1..] == [];
    } else {
      AppendLetter(cfg, Delta(cfg, q, w[0]).value, w[1..], l);
      assert (w + [l])[1..] == w[1..] + [l];
    }
  }

  /** Two Confirmed are always separated: the first delivery failed, or a Reorged lies between them. */
  lemma ConfirmedSeparated(cfg: Config, q: Auto, w: seq<Letter>, i: nat, j: nat)
    requires i < j < |w| && After(cfg, q, w).Some?
    requires w[i].status.phase == Confirmed && w[j].status.phase == Confirmed
    ensures w[i].failed || exists k :: i < k < j && w[k].status.phase == Reorged
  {
    var p, p' := Around(cfg, q, w, i);
    if !w[i].failed {
      var _, next := Around(cfg, p', w[i + 1..], 0);
      assert w[i + 1..][0] == w[i + 1];
      if w[i + 1].status.phase == Finalized {
        var _, _ := Around(cfg, Done, w[i + 2..], 0);
      }
    }
  }

  /** Consecutive Mined letters name the same block at strictly growing depth. */
  lemma MinedDeepens(cfg: Config, q: Auto, w: seq<Letter>, i: nat)
    requires i + 1 < |w| && After(cfg, q, w).Some?
    requires w[i].status.phase == Mined && w[i + 1].status.phase == Mined
    ensures w[i].status.depth < w[i + 1].status.depth
    ensures w[i].status.block == w[i + 1].status.block && w[i].status.number == w[i + 1].status.number
  {
    var p, p' := Around(cfg, q, w, i);
    assert w[i + 1..][0] == w[i + 1];
  }

  /** The i-th letter, a Finalized, ends the word and settles the question of the block that was confirmed. */
  predicate EndsAt(t: Tracked, w: seq<Letter>, i: nat)
    requires i < |w|
  {
    && i == |w| - 1
    && if i == 0
        then t.phase == Confirmed && w[i].status.block == Shown(t.hash, t.number) && w[i].status.number == t.number
       else w[i - 1].status.phase == Confirmed && !w[i - 1].failed
            && w[i - 1].status.block == w[i].status.block && w[i - 1].status.number == w[i].status.number
  }

  ghost predicate SeparatedAt(w: seq<Letter>, i: nat, j: nat)
    requires i < j < |w|
  {
    w[i].failed || exists k :: i < k < j && w[k].status.phase == Reorged
  }

  predicate DeepensAt(w: seq<Letter>, i: nat)
    requires i + 1 < |w|
  {
    && w[i].status.depth < w[i + 1].status.depth
    && w[i].status.block == w[i + 1].status.block && w[i].status.number == w[i + 1].status.number
  }

  predicate Is(w: seq<Letter>, i: nat, phase: Phase) { i < |w| && w[i].status.phase == phase }

  /**
   * The facts of the language, said of every history of every registration: Finalized comes last and only after a
   * delivered Confirmed at its block, or from a resumed anchor there; two Confirmed are separated by a Reorged or a
   * failed delivery; consecutive Mined name one block at strictly growing depth.
   */
  lemma HistoriesAreOrdered(cfg: Config, tx: TxHash, t: Tracked, ticks: seq<Tick>)
    requires cfg.Valid() && EntryOk(t)
    ensures var w := History(cfg, tx, t, ticks);
      && (forall i: nat :: Is(w, i, Finalized) ==> EndsAt(t, w, i))
      && (forall i: nat, j: nat :: i < j && Is(w, i, Confirmed) && Is(w, j, Confirmed) ==> SeparatedAt(w, i, j))
      && (forall i: nat, j: nat :: j == i + 1 && Is(w, i, Mined) && Is(w, j, Mined) ==> DeepensAt(w, i))
  {
    HistoryInLanguage(cfg, tx, t, ticks);
    WordsAreOrdered(cfg, t, History(cfg, tx, t, ticks));
  }

  lemma WordsAreOrdered(cfg: Config, t: Tracked, w: seq<Letter>)
    requires EntryOk(t) && After(cfg, StateOf(t), w).Some?
    ensures forall i: nat :: Is(w, i, Finalized) ==> EndsAt(t, w, i)
    ensures forall i: nat, j: nat :: i < j && Is(w, i, Confirmed) && Is(w, j, Confirmed) ==> SeparatedAt(w, i, j)
    ensures forall i: nat, j: nat :: j == i + 1 && Is(w, i, Mined) && Is(w, j, Mined) ==> DeepensAt(w, i)
  {
    forall i: nat | Is(w, i, Finalized) ensures EndsAt(t, w, i) { FinalizedIsLast(cfg, StateOf(t), w, i); }
    forall i: nat, j: nat | i < j && Is(w, i, Confirmed) && Is(w, j, Confirmed) ensures SeparatedAt(w, i, j) {
      ConfirmedSeparated(cfg, StateOf(t), w, i, j);
    }
    forall i: nat, j: nat | j == i + 1 && Is(w, i, Mined) && Is(w, j, Mined) ensures DeepensAt(w, i) {
      MinedDeepens(cfg, StateOf(t), w, i);
    }
  }

  lemma {:induction false} RemainsOk(cfg: Config, tx: TxHash, t: Tracked, ticks: seq<Tick>)
    requires cfg.Valid() && EntryOk(t)
    ensures var a := Remains(cfg, tx, t, ticks); a.Some? ==> EntryOk(a.value)
    decreases |ticks|
  {
    if ticks != [] {
      OneTick(cfg, tx, t, ticks[0]);
      var t' := Settle(Look(cfg, tx, t, ticks[0]), ticks[0].failed);
      if t'.Some? { RemainsOk(cfg, tx, t'.value, ticks[1..]); }
    }
  }

  /** A reorg that a tick shows is reported by that tick, against the anchor that was lost. */
  lemma ReorgIsReported(cfg: Config, tx: TxHash, t: Tracked, ticks: seq<Tick>, k: Tick)
    requires cfg.Valid() && EntryOk(t) && k.head.Some?
    requires var a := Remains(cfg, tx, t, ticks);
      a.Some? && (a.value.phase == Mined || a.value.phase == Confirmed) && ShowsReorg(a.value, k.receipt, k.header)
    ensures var a := Remains(cfg, tx, t, ticks).value;
      var block := if a.number == 0 then None else Some(a.hash);
      History(cfg, tx, t, ticks + [k]) ==
        History(cfg, tx, t, ticks) + [Letter(Status(tx, Reorged, block, a.number, 0), k.failed)]
  {
    var a := Remains(cfg, tx, t, ticks).value;
    RemainsOk(cfg, tx, t, ticks);
    OneMoreTick(cfg, tx, t, ticks, k);
    AnchoredExactly(cfg, tx, a, k.head.value, k.receipt, k.header);
  }

  /** What a tick must have shown of the entry it found for it to emit the letter. */
  ghost predicate Reason(cfg: Config, a: Tracked, k: Tick, l: Letter) {
    && k.head.Some? && l.failed == k.failed
    && match l.status.phase
       case Finalized =>
         && a.phase == Confirmed && ShowsAnchor(a, k.head.value, k.receipt, k.header)
         && DepthOver(k.head.value, a.number) >= cfg.finality
         && l.status.number == a.number && l.status.block == Shown(a.hash, a.number)
       case Reorged =>
         && (a.phase == Mined || a.phase == Confirmed) && ShowsReorg(a, k.receipt, k.header)
         && l.status.number == a.number && l.status.block == Shown(a.hash, a.number)
       case Pending => false
       case _ =>
         || (a.phase == Pending && k.receipt.Receipt? && l.status.number == k.receipt.number
             && l.status.block == Shown(k.receipt.hash, k.receipt.number))
         || (a.phase == Mined && ShowsAnchor(a, k.head.value, k.receipt, k.header)
             && l.status.number == a.number && l.status.block == Shown(a.hash, a.number)
             && (l.status.phase == Confirmed <==> DepthOver(k.head.value, a.number) >= cfg.depth))
  }

  lemma TickHasReason(cfg: Config, tx: TxHash, a: Tracked, k: Tick)
    requires cfg.Valid() && EntryOk(a) && Look(cfg, tx, a, k).status.Some?
    ensures Reason(cfg, a, k, Letter(Look(cfg, tx, a, k).status.value, k.failed))
  {
    if a.phase == Pending {
      PendingExactly(cfg, tx, a, k.head.value, k.receipt, k.header);
    } else {
      AnchoredExactly(cfg, tx, a, k.head.value, k.receipt, k.header);
    }
  }

  /**
   * Every letter of every history was emitted at one of its ticks, by the entry that was left then, and for its reason.
   * In particular nothing is finalized but by a tick whose header names the anchor, finality deep.
   */
  lemma {:induction false} EveryLetterHasItsReason(cfg: Config, tx: TxHash, t: Tracked, ticks: seq<Tick>, i: nat)
      returns (k: nat)
    requires cfg.Valid() && EntryOk(t) && i < |History(cfg, tx, t, ticks)|
    ensures k < |ticks| && Remains(cfg, tx, t, ticks[..k]).Some?
    ensures Reason(cfg, Remains(cfg, tx, t, ticks[..k]).value, ticks[k], History(cfg, tx, t, ticks)[i])
    decreases |ticks|
  {
    var n := |ticks| - 1;
    assert n >= 0;
    var before := ticks[..n];
    assert ticks == before + [ticks[n]];
    OneMoreTick(cfg, tx, t, before, ticks[n]);
    if i < |History(cfg, tx, t, before)| {
      k := EveryLetterHasItsReason(cfg, tx, t, before, i);
      assert before[..k] == ticks[..k];
    } else {
      k := n;
      RemainsOk(cfg, tx, t, before);
      TickHasReason(cfg, tx, Remains(cfg, tx, t, before).value, ticks[n]);
    }
  }

  /** A resumed entry stays silent until its anchor is reorged or finalized. */
  lemma ResumedIsSilent(cfg: Config, tx: TxHash, hash: Hash, number: uint64, ticks: seq<Tick>)
    requires cfg.Valid()
    ensures var w := History(cfg, tx, Resumed(cfg, hash, number), ticks);
      w == [] || ((w[0].status.phase == Reorged || w[0].status.phase == Finalized)
                  && w[0].status.block == Shown(hash, number) && w[0].status.number == number)
  {
    HistoryInLanguage(cfg, tx, Resumed(cfg, hash, number), ticks);
  }

  // ---------------------------------------------------------------- a truthful chain

  /**
   * The replies of a tick are errors or the truth about a chain that mined the transaction in block `hash` at `number`.
   */
  predicate Truthful(k: Tick, mined: bool, hash: Hash, number: uint64) {
    && (k.receipt.NotFound? ==> !mined)
    && (k.receipt.Receipt? ==> mined && k.receipt.hash == hash && k.receipt.number == number)
    && (k.header.Header? ==> k.header.hash == hash)
  }

  /** `mined[i]` says whether the block is on the chain at tick i; once there it stays. */
  predicate StaysCanonical(ticks: seq<Tick>, mined: seq<bool>, hash: Hash, number: uint64) {
    && |mined| == |ticks|
    && (forall i :: 0 <= i < |ticks| ==> Truthful(ticks[i], mined[i], hash, number))
    && (forall i, j :: 0 <= i < j < |ticks| && mined[i] ==> mined[j])
  }

  predicate Anchored(t: Tracked, hash: Hash, number: uint64) {
    t.phase == Pending || (t.hash == hash && t.number == number)
  }

  /** No fault, nil reply or lagging head makes the watcher report a reorg of a block that stays canonical. */
  lemma {:induction false} NoFalseReorg(cfg: Config, tx: TxHash, t: Tracked, ticks: seq<Tick>, mined: seq<bool>,
                                        hash: Hash, number: uint64)
    requires cfg.Valid() && EntryOk(t) && Anchored(t, hash, number)
    requires StaysCanonical(ticks, mined, hash, number)
    requires t.phase != Pending && ticks != [] ==> mined[0]
    ensures forall l | l in History(cfg, tx, t, ticks) :: l.status.phase != Reorged
    decreases |ticks|
  {
    if ticks != [] {
      OneTick(cfg, tx, t, ticks[0]);
      var o := Look(cfg, tx, t, ticks[0]);
      var t' := Settle(o, ticks[0].failed);
      if t'.Some? {
        assert t'.value.phase != Pending ==> mined[0];
        NoFalseReorg(cfg, tx, t'.value, ticks[1..], mined[1..], hash, number);
      }
    }
  }

  /** A reply without faults: the receipt and the header both answer. */
  predicate FaultFree(k: Tick) { k.head.Some? && k.receipt.Receipt? && k.header.Header? && !k.failed }

  /** Once the head is finality deep over the anchor, two fault-free delivered polls finalize and evict the entry. */
  lemma TwoPollsFinalize(cfg: Config, tx: TxHash, t: Tracked, k1: Tick, k2: Tick, hash: Hash, number: uint64)
    requires cfg.Valid() && EntryOk(t) && Anchored(t, hash, number)
    requires FaultFree(k1) && FaultFree(k2) && Truthful(k1, true, hash, number) && Truthful(k2, true, hash, number)
    requires forall k | k in {k1, k2} :: cfg.finality <= k.head.value - number + 1 < TWO_64
    ensures var w := History(cfg, tx, t, [k1, k2]);
      && w != [] && w[|w| - 1].status.phase == Finalized && !w[|w| - 1].failed
      && w[|w| - 1].status.number == number && w[|w| - 1].status.block == Shown(hash, number)
      && Remains(cfg, tx, t, [k1, k2]).None?
  {
    assert [k1, k2][1..] == [k2] && [k2][1..] == [];
    assert k1 in {k1, k2} && k2 in {k1, k2};
    var t' := Settle(Look(cfg, tx, t, k1), false);
    if t'.Some? {
      assert History(cfg, tx, t'.value, [k2]) == [Letter(Look(cfg, tx, t'.value, k2).status.value, false)] + [];
    }
  }

  /** A Confirmed that could not be delivered is emitted again by the next fault-free poll, at the same block. */
  lemma FailedConfirmIsRetried(cfg: Config, tx: TxHash, t: Tracked, k1: Tick, k2: Tick)
    requires cfg.Valid() && EntryOk(t)
    requires var o := Look(cfg, tx, t, k1); o.status.Some? && o.status.value.phase == Confirmed && k1.failed
    requires var a := Settle(Look(cfg, tx, t, k1), true).value;
      k2.head.Some? && k2.receipt.Receipt? && k2.header == Header(a.hash)
          && Confirmations(k2.head.value, a.number) >= cfg.depth
    ensures var a := Settle(Look(cfg, tx, t, k1), true).value;
      var o := Look(cfg, tx, a, k2);
      o.status.Some? && o.status.value.phase == Confirmed
      && o.status.value.block == Look(cfg, tx, t, k1).status.value.block
      && o.status.value.number == Look(cfg, tx, t, k1).status.value.number
  {
    OneTick(cfg, tx, t, k1);
  }
}
