/** From the transactional outbox through the log to the webhook delivery rows: at least once, then exactly once. */
module Outbox {
  import opened Base

  type Id = nat
  type EventId = nat
  type SubId = nat

  datatype Row = Row(aggregate: string, payload: string, sent: bool)
  datatype Message = Message(key: string, value: string)
  datatype Envelope = Envelope(id: EventId, kind: string)
  datatype Subscription = Subscription(active: bool, kinds: set<string>)
  datatype Delivery = Delivery(kind: string, payload: string)

  /** The unique index on (event_id, subscription_id) makes the table a map. */
  type Deliveries = map<(EventId, SubId), Delivery>

  /** Reading a message: None is a value that does not parse, or has no proper event id. */
  type Parser = string -> Option<Envelope>

  function MessageOf(r: Row): Message { Message(r.aggregate, r.payload) }

  function Matching(subs: map<SubId, Subscription>, kind: string): set<SubId> {
    set x | x in subs && subs[x].active && kind in subs[x].kinds
  }

  /** FanOutDelivery: a row for each matching subscription that has none yet. */
  function FanOut(d: Deliveries, matching: set<SubId>, env: Envelope, payload: string): Deliveries {
    (map x | x in matching :: (env.id, x) := Delivery(env.kind, payload)) + d
  }

  predicate Wants(subs: map<SubId, Subscription>, x: SubId, kind: string) {
    x in subs && subs[x].active && kind in subs[x].kinds
  }

  /**
   * A fan-out in terms of the rows: those there were stay as they were, and each active subscription to the event's
   * kind that had none gets one with the event's kind and payload.
   */
  ghost predicate FansOut(d: Deliveries, d': Deliveries, subs: map<SubId, Subscription>, env: Envelope,
                          payload: string) {
    forall event: EventId, x: SubId ::
      && ((event, x) in d' <==> (event, x) in d || (event == env.id && Wants(subs, x, env.kind)))
      && ((event, x) in d' ==>
          d'[(event, x)] == if (event, x) in d then d[(event, x)] else Delivery(env.kind, payload))
  }

  lemma FanOutExactly(d: Deliveries, subs: map<SubId, Subscription>, env: Envelope, payload: string)
    ensures FansOut(d, FanOut(d, Matching(subs, env.kind), env, payload), subs, env, payload)
  {}

  // ---------------------------------------------------------------- the relay and the consumer as they run

  function Messages(rows: map<Id, Row>, batch: seq<Id>): seq<Message>
    requires forall i :: 0 <= i < |batch| ==> batch[i] in rows
  {
    seq(|batch|, i requires 0 <= i < |batch| => MessageOf(rows[batch[i]]))
  }

  function MarkSent(rows: map<Id, Row>, ids: set<Id>): map<Id, Row> {
    map id | id in rows :: if id in ids then rows[id].(sent := true) else rows[id]
  }

  class Relay {
    var rows: map<Id, Row>
    var log: seq<Message>

    constructor (rows: map<Id, Row>)
      ensures this.rows == rows && log == []
    {
      this.rows, log := rows, [];
    }

    /**
     * drainBatch on the claimed rows. `accepted` is how many messages the broker takes before it fails, if it does;
     * `marks` is whether the mark and the commit succeed. Nothing is marked that was not published first.
     */
    method DrainBatch(batch: seq<Id>, accepted: Option<nat>, marks: bool) returns (published: nat, failed: bool)
      requires forall i :: 0 <= i < |batch| ==> batch[i] in rows
      modifies this
      ensures failed <==> batch != [] && (accepted.Some? || !marks)
      ensures !failed ==> published == |batch|
      ensures rows == if failed then old(rows) else MarkSent(old(rows), set id | id in batch)
      ensures rows.Keys == old(rows.Keys)
      ensures forall id | id in rows ::
          rows[id] == old(rows)[id].(sent := old(rows)[id].sent || (!failed && id in batch))
      ensures accepted.None? ==> |log| == |old(log)| + |batch|
      ensures accepted.None? ==> forall i :: 0 <= i < |batch| ==>
          log[|old(log)| + i] == Message(old(rows)[batch[i]].aggregate, old(rows)[batch[i]].payload)
      ensures accepted.None? ==> log == old(log) + Messages(old(rows), batch)
      ensures accepted.Some? ==> exists n :: 0 <= n <= |batch| && log == old(log) + Messages(old(rows), batch)[..n]
    {
      if |batch| == 0 {
        assert Messages(rows, batch) == [];
        assert log == log + Messages(rows, batch)[..0];
        assert rows == MarkSent(rows, set id | id in batch);
        return 0, false;
      }
      var msgs: seq<Message>, ids: seq<Id> := [], [];
      for i := 0 to |batch|
        invariant msgs == Messages(rows, batch)[..i] && ids == batch[..i]
      {
        msgs := msgs + [MessageOf(rows[batch[i]])];
        ids := ids + [batch[i]];
      }
      assert msgs == Messages(rows, batch) && ids == batch;
      if accepted.Some? {
        var n := if accepted.value < |msgs| then accepted.value else |msgs|;
        log := log + msgs[..n];
        return 0, true;
      }
      log := log + msgs;
      if !marks { return |batch|, true; }
      rows := MarkSent(rows, set id | id in ids);
      return |batch|, false;
    }
  }

  datatype Handled = Stored | Poison | Transient

  class Consumer {
    var deliveries: Deliveries
    var offset: nat

    constructor (deliveries: Deliveries, offset: nat)
      ensures this.deliveries == deliveries && this.offset == offset
    {
      this.deliveries, this.offset := deliveries, offset;
    }

    /** Handle */
    method Handle(parse: Parser, subs: map<SubId, Subscription>, value: string, fails: bool) returns (r: Handled)
      modifies this`deliveries
      ensures r == Poison <==> parse(value).None?
      ensures r == Transient <==> parse(value).Some? && fails
      ensures r != Stored ==> deliveries == old(deliveries)
      ensures r == Stored ==>
          deliveries == FanOut(old(deliveries), Matching(subs, parse(value).value.kind), parse(value).value, value)
      ensures r == Stored ==> FansOut(old(deliveries), deliveries, subs, parse(value).value, value)
    {
      var env := parse(value);
      if env.None? { return Poison; }
      if fails { return Transient; }
      FanOutExactly(deliveries, subs, env.value, value);
      deliveries := FanOut(deliveries, Matching(subs, env.value.kind), env.value, value);
      return Stored;
    }

    /**
     * run over the messages of a partition from the committed offset on, with the subscriptions each message finds.
     * It ends at the first transient failure or failed commit, and has then committed only what it handled.
     */
    method Run(parse: Parser, log: seq<Message>, subs: seq<map<SubId, Subscription>>, fails: set<nat>,
               uncommitted: set<nat>) returns (stopped: bool)
      requires offset <= |log| == |subs|
      modifies this
      ensures old(offset) <= offset <= |log| && (!stopped ==> offset == |log|)
      ensures Keeps(old(deliveries), deliveries)
      ensures forall k :: old(offset) <= k < offset ==> Settled(parse, log[k], subs[k], deliveries)
    {
      while offset < |log|
        invariant old(offset) <= offset <= |log|
        invariant Keeps(old(deliveries), deliveries)
        invariant forall k :: old(offset) <= k < offset ==> Settled(parse, log[k], subs[k], deliveries)
      {
        ghost var before := deliveries;
        var r := Handle(parse, subs[offset], log[offset].value, offset in fails);
        forall k | old(offset) <= k < offset ensures Settled(parse, log[k], subs[k], deliveries) {
          assert Settled(parse, log[k], subs[k], before);
        }
        if r == Transient { return true; }
        assert Settled(parse, log[offset], subs[offset], deliveries);
        if offset in uncommitted { return true; }
        offset := offset + 1;
      }
      return false;
    }
  }

  /** Rows are only ever added. */
  predicate Keeps(d: Deliveries, d': Deliveries) { forall k :: k in d ==> k in d' && d'[k] == d[k] }

  predicate HasRows(d: Deliveries, event: EventId, matching: set<SubId>) { forall x | x in matching :: (event, x) in d }

  /** The message is poison, or each subscription that matched has its row. */
  predicate Settled(parse: Parser, m: Message, subs: map<SubId, Subscription>, d: Deliveries) {
    parse(m.value).Some? ==> HasRows(d, parse(m.value).value.id, Matching(subs, parse(m.value).value.kind))
  }

  // ---------------------------------------------------------------- any number of relays

  datatype Worker = Claimed(batch: set<Id>) | Published(batch: set<Id>)

  /** `tried` remembers the rows whose publication was ever attempted. */
  datatype Relays = Relays(outbox: map<Id, Row>, locks: map<Id, nat>, workers: map<nat, Worker>, tried: set<Id>)

  datatype RelayStep =
    | Append(id: Id, row: Row)
    | Claim(w: nat, batch: set<Id>)
    | Publish(w: nat, ok: bool)
    | Mark(w: nat)
    | Rollback(w: nat)               // also a crash, at any point

  function Tried(r: Relays, step: RelayStep): set<Id> {
    if step.Publish? && step.w in r.workers then r.tried + r.workers[step.w].batch else r.tried
  }

  /** The message of one of these rows. */
  ghost predicate Origin(outbox: map<Id, Row>, ids: set<Id>, m: Message) {
    exists id :: id in ids && id in outbox && MessageOf(outbox[id]) == m
  }

  /**
   * `taken` is what the broker appends during the step: more than the batch after retries, any part of it after an
   * error, and even later what an attempt that failed had sent.
   */
  ghost predicate RelayCan(r: Relays, step: RelayStep, taken: seq<Message>) {
    && (forall m | m in taken :: Origin(r.outbox, Tried(r, step), m))
    && match step
    case Append(id, row) => id !in r.outbox && !row.sent
    case Claim(w, batch) =>
        w !in r.workers && forall id | id in batch :: id in r.outbox && !r.outbox[id].sent && id !in r.locks
    case Publish(w, ok) =>
      && w in r.workers && r.workers[w].Claimed?
      && (ok ==> forall id | id in r.workers[w].batch && id in r.outbox :: MessageOf(r.outbox[id]) in taken)
    case Mark(w) => w in r.workers && r.workers[w].Published?
    case Rollback(w) => w in r.workers
  }

  function Unlocked(locks: map<Id, nat>, w: nat): map<Id, nat> { map id | id in locks && locks[id] != w :: locks[id] }

  function Ended(r: Relays, w: nat): Relays { r.(workers := r.workers - {w}, locks := Unlocked(r.locks, w)) }

  /** A publish that failed can only be rolled back. */
  function RelayDo(r: Relays, step: RelayStep): Relays
    requires step.Publish? || step.Mark? ==> step.w in r.workers
  {
    match step
    case Append(id, row) => r.(outbox := r.outbox[id := row])
    case Claim(w, batch) => r.(workers := r.workers[w := Claimed(batch)], locks := r.locks + map id | id in batch :: w)
    case Publish(w, ok) =>
      var r1 := r.(tried := Tried(r, step));
      if ok then r1.(workers := r.workers[w := Published(r.workers[w].batch)]) else Ended(r1, w)
    case Mark(w) => Ended(r, w).(outbox := MarkSent(r.outbox, r.workers[w].batch))
    case Rollback(w) => Ended(r, w)
  }

  /** What is marked sent, or about to be, is in the log. */
  ghost predicate SentLogged(outbox: map<Id, Row>, log: seq<Message>) {
    forall id | id in outbox && outbox[id].sent :: MessageOf(outbox[id]) in log
  }

  ghost predicate WorkerOk(outbox: map<Id, Row>, log: seq<Message>, x: Worker) {
    forall id | id in x.batch :: id in outbox && (x.Published? ==> MessageOf(outbox[id]) in log)
  }

  ghost predicate RelayInv(r: Relays, log: seq<Message>) {
    && SentLogged(r.outbox, log)
    && (forall w | w in r.workers :: WorkerOk(r.outbox, log, r.workers[w]))
    && (forall m | m in log :: Origin(r.outbox, r.tried, m))
  }

  /** Rows stay, with their message, and what was tried stays tried. */
  lemma OriginStays(r: Relays, step: RelayStep, taken: seq<Message>, ids: set<Id>, m: Message)
    requires RelayCan(r, step, taken) && Origin(r.outbox, ids, m) && ids <= Tried(r, step)
    ensures Origin(RelayDo(r, step).outbox, RelayDo(r, step).tried, m)
  {
    var id :| id in ids && id in r.outbox && MessageOf(r.outbox[id]) == m;
    var r' := RelayDo(r, step);
    assert id in r'.tried && id in r'.outbox && MessageOf(r'.outbox[id]) == m;
  }

  lemma RelayKeeps(r: Relays, step: RelayStep, log: seq<Message>, taken: seq<Message>)
    requires RelayInv(r, log) && RelayCan(r, step, taken)
    ensures RelayInv(RelayDo(r, step), log + taken)
  {
    var r' := RelayDo(r, step);
    if step.Mark? { assert WorkerOk(r.outbox, log, r.workers[step.w]); }
    forall w | w in r'.workers ensures WorkerOk(r'.outbox, log + taken, r'.workers[w]) {
      if w in r.workers { assert WorkerOk(r.outbox, log, r.workers[w]); }
    }
    forall m | m in log + taken ensures Origin(r'.outbox, r'.tried, m) {
      OriginStays(r, step, taken, if m in log then r.tried else Tried(r, step), m);
    }
  }

  // ---------------------------------------------------------------- a consumer per partition

  /** A consumer of one partition: idle, holding a fetched message, or done with it. */
  datatype Session = Idle | Fetched(k: nat) | Done(k: nat)

  /** The message at log index k was handled when these subscriptions matched. */
  datatype Handling = Handling(k: nat, matching: set<SubId>)

  /** `committed` says up to where the messages of a partition are committed. */
  datatype Offsets = Offsets(sessions: map<nat, Session>, committed: map<nat, nat>)
  datatype Table = Table(deliveries: Deliveries, handled: seq<Handling>)

  datatype ConsumerStep =
    | Join(pt: nat)                  // a new session starts from the committed offset
    | Fetch(pt: nat, k: nat)
    | Handle(pt: nat)
    | Commit(pt: nat, known: bool)   // a commit whose outcome is lost ends the session
    | Leave(pt: nat)                 // a transient failure, a failed commit, or a crash

  type Partitioner = string -> nat

  function CommittedOf(committed: map<nat, nat>, pt: nat): nat { if pt in committed then committed[pt] else 0 }

  /** No message of the partition lies in log[lo..hi]. */
  ghost predicate Skips(part: Partitioner, log: seq<Message>, pt: nat, lo: nat, hi: nat) {
    forall i :: lo <= i < hi && i < |log| ==> part(log[i].key) != pt
  }

  ghost predicate ConsumerCan(part: Partitioner, log: seq<Message>, c: Offsets, step: ConsumerStep) {
    match step
    case Join(pt) => pt !in c.sessions
    case Fetch(pt, k) =>
      && pt in c.sessions && c.sessions[pt].Idle? && CommittedOf(c.committed, pt) <= k < |log| && part(log[k].key) == pt
      && Skips(part, log, pt, CommittedOf(c.committed, pt), k)
    case Handle(pt) => pt in c.sessions && c.sessions[pt].Fetched?
    case Commit(pt, _) => pt in c.sessions && c.sessions[pt].Done?
    case Leave(pt) => pt in c.sessions
  }

  ghost function ConsumerDo(part: Partitioner, log: seq<Message>, c: Offsets, step: ConsumerStep): Offsets
    requires ConsumerCan(part, log, c, step)
  {
    match step
    case Join(pt) => c.(sessions := c.sessions[pt := Idle])
    case Fetch(pt, k) => c.(sessions := c.sessions[pt := Fetched(k)])
    case Handle(pt) => c.(sessions := c.sessions[pt := Done(c.sessions[pt].k)])
    case Commit(pt, known) =>
        Offsets(if known then c.sessions[pt := Idle] else c.sessions - {pt}, c.committed[pt := c.sessions[pt].k + 1])
    case Leave(pt) => c.(sessions := c.sessions - {pt})
  }

  /** Handle on the message at log index k: poison changes nothing. */
  ghost function Recorded(parse: Parser, t: Table, m: Message, k: nat, subs: map<SubId, Subscription>): Table {
    var env := parse(m.value);
    if env.None? then t
    else
      var matching := Matching(subs, env.value.kind);
      Table(FanOut(t.deliveries, matching, env.value, m.value), t.handled + [Handling(k, matching)])
  }

  ghost predicate WasHandled(handled: seq<Handling>, k: nat) { exists n :: 0 <= n < |handled| && handled[n].k == k }

  /** The message is poison, or it was handled. */
  ghost predicate Accounted(parse: Parser, log: seq<Message>, t: Table, k: nat) {
    k < |log| && (parse(log[k].value).Some? ==> WasHandled(t.handled, k))
  }

  ghost predicate HandlingOk(parse: Parser, log: seq<Message>, d: Deliveries, h: Handling) {
    h.k < |log| && parse(log[h.k].value).Some? && HasRows(d, parse(log[h.k].value).value.id, h.matching)
  }

  /** The handling put this very row there. */
  ghost predicate Source(parse: Parser, log: seq<Message>, h: Handling, event: EventId, x: SubId, row: Delivery) {
    && h.k < |log| && x in h.matching
    && parse(log[h.k].value) == Some(Envelope(event, row.kind)) && row.payload == log[h.k].value
  }

  ghost predicate Sourced(parse: Parser, log: seq<Message>, t: Table, event: EventId, x: SubId) {
    (event, x) in t.deliveries ==>
        exists n :: 0 <= n < |t.handled| && Source(parse, log, t.handled[n], event, x, t.deliveries[(event, x)])
  }

  /** Every handling has its rows, and every row its handling. */
  ghost predicate TableInv(parse: Parser, log: seq<Message>, t: Table) {
    && (forall n :: 0 <= n < |t.handled| ==> HandlingOk(parse, log, t.deliveries, t.handled[n]))
    && (forall event: EventId, x: SubId :: Sourced(parse, log, t, event, x))
  }

  lemma SourcedGrows(parse: Parser, log: seq<Message>, taken: seq<Message>, t: Table, t': Table, event: EventId,
                     x: SubId)
    requires Sourced(parse, log, t, event, x) && (event, x) in t.deliveries
    requires t.handled <= t'.handled && Keeps(t.deliveries, t'.deliveries)
    ensures Sourced(parse, log + taken, t', event, x)
  {
    var n :| 0 <= n < |t.handled| && Source(parse, log, t.handled[n], event, x, t.deliveries[(event, x)]);
    assert (log + taken)[t.handled[n].k] == log[t.handled[n].k];
    assert Source(parse, log + taken, t'.handled[n], event, x, t'.deliveries[(event, x)]);
  }

  /**
   * A session holds the first message of its partition past the offset; what lies before the offset is accounted for.
   */
  ghost predicate PartitionOk(parse: Parser, part: Partitioner, log: seq<Message>, t: Table, c: Offsets, pt: nat) {
    var done := CommittedOf(c.committed, pt);
    && done <= |log|
    && (forall k :: 0 <= k < done && part(log[k].key) == pt ==> Accounted(parse, log, t, k))
    && (pt in c.sessions && !c.sessions[pt].Idle? ==>
          && done <= c.sessions[pt].k < |log| && part(log[c.sessions[pt].k].key) == pt
          && Skips(part, log, pt, done, c.sessions[pt].k))
    && (pt in c.sessions && c.sessions[pt].Done? ==> Accounted(parse, log, t, c.sessions[pt].k))
  }

  ghost predicate ConsumerInv(parse: Parser, part: Partitioner, log: seq<Message>, t: Table, c: Offsets) {
    TableInv(parse, log, t) && forall pt: nat :: PartitionOk(parse, part, log, t, c, pt)
  }

  lemma AccountedGrows(parse: Parser, log: seq<Message>, taken: seq<Message>, t: Table, t': Table, k: nat)
    requires Accounted(parse, log, t, k) && t.handled <= t'.handled
    ensures Accounted(parse, log + taken, t', k)
  {
    assert (log + taken)[k] == log[k];
    if WasHandled(t.handled, k) {
      var n :| 0 <= n < |t.handled| && t.handled[n].k == k;
      assert t'.handled[n].k == k;
    }
  }

  /** Neither a longer log nor more handled messages disturb what a partition has done. */
  lemma PartitionGrows(parse: Parser, part: Partitioner, log: seq<Message>, taken: seq<Message>, t: Table, t': Table,
                       c: Offsets, pt: nat)
    requires PartitionOk(parse, part, log, t, c, pt) && t.handled <= t'.handled
    ensures PartitionOk(parse, part, log + taken, t', c, pt)
  {
    var log' := log + taken;
    assert forall k :: 0 <= k < |log| ==> log'[k] == log[k];
    forall k | Accounted(parse, log, t, k) ensures Accounted(parse, log', t', k) {
      AccountedGrows(parse, log, taken, t, t', k);
    }
  }

  lemma LogGrows(parse: Parser, part: Partitioner, log: seq<Message>, taken: seq<Message>, t: Table, c: Offsets)
    requires ConsumerInv(parse, part, log, t, c)
    ensures ConsumerInv(parse, part, log + taken, t, c)
  {
    forall n | 0 <= n < |t.handled| ensures HandlingOk(parse, log + taken, t.deliveries, t.handled[n]) {
      assert HandlingOk(parse, log, t.deliveries, t.handled[n]);
    }
    forall event: EventId, x: SubId ensures Sourced(parse, log + taken, t, event, x) {
      if (event, x) in t.deliveries { SourcedGrows(parse, log, taken, t, t, event, x); }
    }
    forall pt: nat ensures PartitionOk(parse, part, log + taken, t, c, pt) {
      PartitionGrows(parse, part, log, taken, t, t, c, pt);
    }
  }

  lemma RecordKeepsTable(parse: Parser, log: seq<Message>, t: Table, k: nat, subs: map<SubId, Subscription>)
    requires TableInv(parse, log, t) && k < |log|
    ensures var t' := Recorded(parse, t, log[k], k, subs);
      TableInv(parse, log, t') && t.handled <= t'.handled && Keeps(t.deliveries, t'.deliveries)
          && Accounted(parse, log, t', k)
  {
    var t' := Recorded(parse, t, log[k], k, subs);
    if t' != t {
      assert t'.handled[|t.handled|].k == k;
      forall n | 0 <= n < |t'.handled| ensures HandlingOk(parse, log, t'.deliveries, t'.handled[n]) {
        if n < |t.handled| { assert HandlingOk(parse, log, t.deliveries, t.handled[n]); }
      }
      forall event: EventId, x: SubId ensures Sourced(parse, log, t', event, x) {
        if (event, x) in t.deliveries {
          SourcedGrows(parse, log, [], t, t', event, x);
          assert log + [] == log;
        } else if (event, x) in t'.deliveries {
          assert Source(parse, log, t'.handled[|t.handled|], event, x, t'.deliveries[(event, x)]);
        }
      }
    }
  }

  lemma HandleKeeps(parse: Parser, part: Partitioner, log: seq<Message>, t: Table, c: Offsets, pt: nat,
                    subs: map<SubId, Subscription>)
    requires ConsumerInv(parse, part, log, t, c) && ConsumerCan(part, log, c, Handle(pt))
    ensures c.sessions[pt].k < |log|
    ensures ConsumerInv(parse, part, log, Recorded(parse, t, log[c.sessions[pt].k], c.sessions[pt].k, subs),
                        ConsumerDo(part, log, c, Handle(pt)))
  {
    assert PartitionOk(parse, part, log, t, c, pt);
    var k, c' := c.sessions[pt].k, ConsumerDo(part, log, c, Handle(pt));
    RecordKeepsTable(parse, log, t, k, subs);
    var t' := Recorded(parse, t, log[k], k, subs);
    forall q: nat ensures PartitionOk(parse, part, log, t', c', q) {
      PartitionGrows(parse, part, log, [], t, t', c, q);
      assert log + [] == log;
    }
  }

  lemma OffsetsKeep(parse: Parser, part: Partitioner, log: seq<Message>, t: Table, c: Offsets, step: ConsumerStep)
    requires ConsumerInv(parse, part, log, t, c) && ConsumerCan(part, log, c, step) && !step.Handle?
    ensures ConsumerInv(parse, part, log, t, ConsumerDo(part, log, c, step))
  {
    var c' := ConsumerDo(part, log, c, step);
    forall q: nat ensures PartitionOk(parse, part, log, t, c', q) {
      assert PartitionOk(parse, part, log, t, c, q);
    }
  }

  // ---------------------------------------------------------------- the whole path

  datatype State = State(relays: Relays, log: seq<Message>, offsets: Offsets, table: Table,
                         subs: map<SubId, Subscription>)

  datatype Step = RelayStep(r: RelayStep, taken: seq<Message>) | ConsumerStep(c: ConsumerStep)
      | Subscribe(x: SubId, sub: Subscription)

  ghost predicate Enabled(part: Partitioner, s: State, step: Step) {
    match step
    case RelayStep(r, taken) => RelayCan(s.relays, r, taken)
    case ConsumerStep(c) => ConsumerCan(part, s.log, s.offsets, c)
    case Subscribe(_, _) => true
  }

  ghost function Do(parse: Parser, part: Partitioner, s: State, step: Step): State
    requires Enabled(part, s, step)
  {
    match step
    case RelayStep(r, taken) => s.(relays := RelayDo(s.relays, r), log := s.log + taken)
    case ConsumerStep(c) =>
      var s1 := s.(offsets := ConsumerDo(part, s.log, s.offsets, c));
      if c.Handle? && s.offsets.sessions[c.pt].k < |s.log|
      then s1.(table := Recorded(parse, s.table, s.log[s.offsets.sessions[c.pt].k], s.offsets.sessions[c.pt].k, s.subs))
      else s1
    case Subscribe(x, sub) => s.(subs := s.subs[x := sub])
  }

  ghost predicate Next(parse: Parser, part: Partitioner, s: State, s': State) {
    exists step :: Enabled(part, s, step) && s' == Do(parse, part, s, step)
  }

  ghost predicate Behavior(parse: Parser, part: Partitioner, run: seq<State>) {
    && |run| > 0 && run[0] == State(Relays(map[], map[], map[], {}), [], Offsets(map[], map[]), Table(map[], []), map[])
    && forall i :: 0 <= i < |run| - 1 ==> Next(parse, part, run[i], run[i + 1])
  }

  ghost predicate Inv(parse: Parser, part: Partitioner, s: State) {
    RelayInv(s.relays, s.log) && ConsumerInv(parse, part, s.log, s.table, s.offsets)
  }

  lemma StepKeeps(parse: Parser, part: Partitioner, s: State, step: Step)
    requires Inv(parse, part, s) && Enabled(part, s, step)
    ensures Inv(parse, part, Do(parse, part, s, step))
  {
    match step {
      case RelayStep(r, taken) =>
        RelayKeeps(s.relays, r, s.log, taken);
        LogGrows(parse, part, s.log, taken, s.table, s.offsets);
      case ConsumerStep(c) =>
        if c.Handle? {
          HandleKeeps(parse, part, s.log, s.table, s.offsets, c.pt, s.subs);
        } else {
          OffsetsKeep(parse, part, s.log, s.table, s.offsets, c);
        }
      case Subscribe(_, _) =>
    }
  }

  lemma {:induction false} InvAlong(parse: Parser, part: Partitioner, run: seq<State>, i: nat)
    requires Behavior(parse, part, run) && i < |run|
    ensures Inv(parse, part, run[i])
  {
    if i > 0 {
      InvAlong(parse, part, run, i - 1);
      assert Next(parse, part, run[i - 1], run[i - 1 + 1]);
      var step :| Enabled(part, run[i - 1], step) && run[i] == Do(parse, part, run[i - 1], step);
      StepKeeps(parse, part, run[i - 1], step);
    }
  }

  /** In every run, a row marked sent has its message in the log. */
  lemma SentIsLogged(parse: Parser, part: Partitioner, run: seq<State>, i: nat, id: Id)
    requires Behavior(parse, part, run) && i < |run| && id in run[i].relays.outbox && run[i].relays.outbox[id].sent
    ensures Message(run[i].relays.outbox[id].aggregate, run[i].relays.outbox[id].payload) in run[i].log
  {
    InvAlong(parse, part, run, i);
  }

  /** Step m of the run handles the message at log index h.k, on the subscriptions of that moment. */
  ghost predicate HandledBy(parse: Parser, part: Partitioner, run: seq<State>, m: nat, h: Handling)
    requires m + 1 < |run|
  {
    var s := run[m];
    && h.k < |s.log| && parse(s.log[h.k].value).Some?
    && h.matching == Matching(s.subs, parse(s.log[h.k].value).value.kind)
    && var pt := part(s.log[h.k].key);
       var step := ConsumerStep(Handle(pt));
       pt in s.offsets.sessions && s.offsets.sessions[pt] == Fetched(h.k) && Enabled(part, s, step)
           && run[m + 1] == Do(parse, part, s, step)
  }

  /** A step adds at most one handling, and that is the handling of the message its session has fetched. */
  lemma StepHandles(parse: Parser, part: Partitioner, s: State, step: Step)
    requires Inv(parse, part, s) && Enabled(part, s, step)
    ensures var s' := Do(parse, part, s, step);
      && s.log <= s'.log
      && (s'.table.handled == s.table.handled ||
          (step.ConsumerStep? && step.c.Handle? && var k := s.offsets.sessions[step.c.pt].k;
            && k < |s.log| && parse(s.log[k].value).Some? && part(s.log[k].key) == step.c.pt
            && s'.table.handled == s.table.handled + [Handling(k, Matching(s.subs, parse(s.log[k].value).value.kind))]))
  {
    if step.ConsumerStep? && step.c.Handle? {
      assert PartitionOk(parse, part, s.log, s.table, s.offsets, step.c.pt);
    }
  }

  /** The step before state i: the log grew, and a handling on record was there already or was made by it. */
  ghost predicate Recalls(parse: Parser, part: Partitioner, run: seq<State>, i: nat)
    requires 0 < i < |run|
  {
    && run[i - 1].log <= run[i].log
    && forall n :: 0 <= n < |run[i].table.handled| ==> Recalled(parse, part, run, i, n)
  }

  ghost predicate Recalled(parse: Parser, part: Partitioner, run: seq<State>, i: nat, n: nat)
    requires 0 < i < |run| && n < |run[i].table.handled|
  {
    var before, h := run[i - 1].table.handled, run[i].table.handled[n];
    (n < |before| && before[n] == h) || HandledBy(parse, part, run, i - 1, h)
  }

  lemma StepRecalls(parse: Parser, part: Partitioner, run: seq<State>, i: nat)
    requires Behavior(parse, part, run) && 0 < i < |run|
    ensures Recalls(parse, part, run, i)
  {
    var s := run[i - 1];
    InvAlong(parse, part, run, i - 1);
    assert Next(parse, part, run[i - 1], run[i - 1 + 1]);
    var step :| Enabled(part, s, step) && run[i] == Do(parse, part, s, step);
    StepHandles(parse, part, s, step);
  }

  lemma {:induction false} RecalledWhen(parse: Parser, part: Partitioner, run: seq<State>, i: nat, n: nat)
      returns (m: nat)
    requires i < |run| && n < |run[i].table.handled| && run[0].table.handled == []
    requires forall j :: 0 < j < |run| ==> Recalls(parse, part, run, j)
    ensures m < i && HandledBy(parse, part, run, m, run[i].table.handled[n]) && run[m].log <= run[i].log
    decreases i
  {
    assert Recalls(parse, part, run, i) && Recalled(parse, part, run, i, n);
    if n < |run[i - 1].table.handled| && run[i - 1].table.handled[n] == run[i].table.handled[n] {
      m := RecalledWhen(parse, part, run, i - 1, n);
    } else {
      m := i - 1;
    }
  }

  /**
   * Every handling on record was made by one step of the run, on the subscriptions that were active and matching then.
   */
  lemma HandledWhen(parse: Parser, part: Partitioner, run: seq<State>, i: nat, n: nat) returns (m: nat)
    requires Behavior(parse, part, run) && i < |run| && n < |run[i].table.handled|
    ensures m < i && HandledBy(parse, part, run, m, run[i].table.handled[n]) && run[m].log <= run[i].log
  {
    forall j | 0 < j < |run| ensures Recalls(parse, part, run, j) { StepRecalls(parse, part, run, j); }
    m := RecalledWhen(parse, part, run, i, n);
  }

  /**
   * In every run, once a partition's committed offset has passed a message that is not poison, step m of the run
   * handled that copy, and each subscription that was active and matching at step m has its one delivery row.
   */
  lemma CommittedIsDelivered(parse: Parser, part: Partitioner, run: seq<State>, i: nat, k: nat) returns (n: nat, m: nat)
    requires Behavior(parse, part, run) && i < |run| && k < |run[i].log|
    requires k < CommittedOf(run[i].offsets.committed, part(run[i].log[k].key)) && parse(run[i].log[k].value).Some?
    ensures n < |run[i].table.handled| && run[i].table.handled[n].k == k
    ensures m < i && HandledBy(parse, part, run, m, run[i].table.handled[n])
    ensures var env := parse(run[i].log[k].value).value;
      forall x: SubId | Wants(run[m].subs, x, env.kind) :: (env.id, x) in run[i].table.deliveries
  {
    var s := run[i];
    InvAlong(parse, part, run, i);
    assert PartitionOk(parse, part, s.log, s.table, s.offsets, part(s.log[k].key));
    assert Accounted(parse, s.log, s.table, k);
    n :| n < |s.table.handled| && s.table.handled[n].k == k;
    assert HandlingOk(parse, s.log, s.table.deliveries, s.table.handled[n]);
    m := HandledWhen(parse, part, run, i, n);
  }

  /**
   * No delivery row is stray: step m of the run handled a copy of its event, with its payload, while its subscription
   * was active and matching, and that copy is the message of a committed outbox row whose publication was tried.
   */
  lemma EveryDeliveryHasItsEvent(parse: Parser, part: Partitioner, run: seq<State>, i: nat, event: EventId, x: SubId)
      returns (n: nat, m: nat, id: Id)
    requires Behavior(parse, part, run) && i < |run| && (event, x) in run[i].table.deliveries
    ensures n < |run[i].table.handled|
    ensures Source(parse, run[i].log, run[i].table.handled[n], event, x, run[i].table.deliveries[(event, x)])
    ensures m < i && HandledBy(parse, part, run, m, run[i].table.handled[n])
    ensures Wants(run[m].subs, x, run[i].table.deliveries[(event, x)].kind)
    ensures id in run[i].relays.outbox && id in run[i].relays.tried
    ensures run[i].relays.outbox[id].payload == run[i].table.deliveries[(event, x)].payload
  {
    var s := run[i];
    InvAlong(parse, part, run, i);
    assert Sourced(parse, s.log, s.table, event, x);
    n :| n < |s.table.handled| && Source(parse, s.log, s.table.handled[n], event, x, s.table.deliveries[(event, x)]);
    m := HandledWhen(parse, part, run, i, n);
    var message := s.log[s.table.handled[n].k];
    assert message in s.log && Origin(s.relays.outbox, s.relays.tried, message);
    id :| id in s.relays.tried && id in s.relays.outbox && MessageOf(s.relays.outbox[id]) == message;
  }

  /** Whatever was handled, however often, keeps its rows: redelivery neither duplicates nor overwrites one. */
  lemma {:induction false} DeliveriesAreKept(parse: Parser, part: Partitioner, run: seq<State>, i: nat, j: nat)
    requires Behavior(parse, part, run) && i <= j < |run|
    ensures Keeps(run[i].table.deliveries, run[j].table.deliveries) && run[i].log <= run[j].log
    decreases j - i
  {
    if i < j {
      DeliveriesAreKept(parse, part, run, i, j - 1);
      assert Next(parse, part, run[j - 1], run[j - 1 + 1]);
      var step :| Enabled(part, run[j - 1], step) && run[j] == Do(parse, part, run[j - 1], step);
    }
  }

  /** Offsets only move forward. */
  lemma OffsetsGrow(parse: Parser, part: Partitioner, s: State, step: Step, pt: nat)
    requires Inv(parse, part, s) && Enabled(part, s, step)
    ensures CommittedOf(s.offsets.committed, pt) <= CommittedOf(Do(parse, part, s, step).offsets.committed, pt)
  {
    assert PartitionOk(parse, part, s.log, s.table, s.offsets, pt);
  }

  ghost predicate Forward(run: seq<State>, i: nat, j: nat, pt: nat)
    requires i < |run| && j < |run|
  {
    CommittedOf(run[i].offsets.committed, pt) <= CommittedOf(run[j].offsets.committed, pt)
  }

  lemma StepIsForward(parse: Parser, part: Partitioner, run: seq<State>, i: nat, pt: nat)
    requires Behavior(parse, part, run) && 0 < i < |run|
    ensures Forward(run, i - 1, i, pt)
  {
    InvAlong(parse, part, run, i - 1);
    assert Next(parse, part, run[i - 1], run[i - 1 + 1]);
    var step :| Enabled(part, run[i - 1], step) && run[i] == Do(parse, part, run[i - 1], step);
    OffsetsGrow(parse, part, run[i - 1], step, pt);
  }

  lemma {:induction false} CommittedStays(parse: Parser, part: Partitioner, run: seq<State>, i: nat, j: nat, pt: nat)
    requires Behavior(parse, part, run) && i <= j < |run|
    ensures Forward(run, i, j, pt)
    decreases j - i
  {
    if i < j {
      CommittedStays(parse, part, run, i, j - 1, pt);
      StepIsForward(parse, part, run, j, pt);
    }
  }

  /** A commit is final: from then on neither its message nor an earlier one of the partition is fetched again. */
  lemma CommittedIsNotFetchedAgain(parse: Parser, part: Partitioner, run: seq<State>, i: nat, j: nat, pt: nat,
                                   known: bool, k: nat)
    requires Behavior(parse, part, run) && i < j < |run| && Enabled(part, run[i], ConsumerStep(Commit(pt, known)))
    requires run[i + 1] == Do(parse, part, run[i], ConsumerStep(Commit(pt, known)))
    requires k <= run[i].offsets.sessions[pt].k
    ensures !Enabled(part, run[j], ConsumerStep(Fetch(pt, k)))
  {
    CommittedStays(parse, part, run, i + 1, j, pt);
  }

  // ---------------------------------------------------------------- relays do not share rows

  /** A row a relay holds is locked for it and not sent. */
  ghost predicate HoldsOk(r: Relays, w: nat, id: Id) {
    id in r.outbox && !r.outbox[id].sent && id in r.locks && r.locks[id] == w
  }

  ghost predicate Apart(r: Relays) { forall w, id | w in r.workers && id in r.workers[w].batch :: HoldsOk(r, w, id) }

  lemma StepKeepsApart(r: Relays, step: RelayStep, taken: seq<Message>)
    requires Apart(r) && RelayCan(r, step, taken)
    ensures Apart(RelayDo(r, step))
  {
    var r' := RelayDo(r, step);
    forall w, id | w in r'.workers && id in r'.workers[w].batch ensures HoldsOk(r', w, id) {
      if w in r.workers { assert id in r.workers[w].batch && HoldsOk(r, w, id); }
    }
  }

  lemma {:induction false} ApartAlong(parse: Parser, part: Partitioner, run: seq<State>, i: nat)
    requires Behavior(parse, part, run) && i < |run|
    ensures Apart(run[i].relays)
  {
    if i > 0 {
      ApartAlong(parse, part, run, i - 1);
      assert Next(parse, part, run[i - 1], run[i - 1 + 1]);
      var step :| Enabled(part, run[i - 1], step) && run[i] == Do(parse, part, run[i - 1], step);
      if step.RelayStep? { StepKeepsApart(run[i - 1].relays, step.r, step.taken); }
    }
  }

  /** In every run no two relays hold the same row, and no relay holds one that is sent already. */
  lemma RelaysShareNoRow(parse: Parser, part: Partitioner, run: seq<State>, i: nat, w: nat, u: nat, id: Id)
    requires Behavior(parse, part, run) && i < |run| && w in run[i].relays.workers && u in run[i].relays.workers
    requires id in run[i].relays.workers[w].batch && id in run[i].relays.workers[u].batch
    ensures w == u && id in run[i].relays.outbox && !run[i].relays.outbox[id].sent
  {
    ApartAlong(parse, part, run, i);
    assert HoldsOk(run[i].relays, w, id) && HoldsOk(run[i].relays, u, id);
  }
}
