/** Idempotent create: a key is claimed, the handler runs, and its answer is stored or the claim released. */
module Idempotency {
  import opened Base

  datatype Response = Response(status: int, body: string)

  /** A key row; it is in flight until `done` holds the stored answer. */
  datatype KeyRow = KeyRow(hash: Hash, done: Option<Response>)

  predicate Success(status: int) { 200 <= status < 300 }

  const IN_FLIGHT := Response(409, "request_in_flight")
  const REUSED := Response(422, "idempotency_key_reused")
  const MISSING_KEY := Response(400, "missing_idempotency_key")
  const INTERNAL := Response(500, "internal")

  /** replay: the in-flight test comes before the comparison of the requests. */
  function Replay(row: KeyRow, hash: Hash): Response {
    if row.done.None? then IN_FLIGHT else if row.hash != hash then REUSED else row.done.value
  }

  /** 409 while the first request is at work, whatever was asked; then 422 for another request, else its own answer. */
  lemma ReplayExactly(row: KeyRow, hash: Hash)
    ensures Replay(row, hash) ==
      match row.done
      case None => Response(409, "request_in_flight")
      case Some(answer) => if hash == row.hash then answer else Response(422, "idempotency_key_reused")
  {}

  // ---------------------------------------------------------------- one request

  datatype Handler = Returns(answer: Response) | Panics
  datatype Trouble = Fine | InsertFails | SelectFails | ReleaseFails

  class Server {
    var rows: map<string, KeyRow>
    /** The key of every committed payment. */
    var payments: seq<string>

    constructor ()
      ensures rows == map[] && payments == []
    {
      rows, payments := map[], [];
    }

    /** Begin: None is a storage error; otherwise whether the claim is ours, and the stored row. */
    method Begin(key: string, hash: Hash, trouble: Trouble) returns (r: Option<(bool, KeyRow)>)
      modifies this`rows
      ensures r.None? <==> trouble.InsertFails? || (trouble.SelectFails? && key in old(rows))
      ensures r.Some? ==> (r.value.0 <==> key !in old(rows)) && key in rows && r.value.1 == rows[key]
      ensures rows == if r.Some? && r.value.0 then old(rows)[key := KeyRow(hash, None)] else old(rows)
    {
      if trouble.InsertFails? { return None; }
      if key !in rows {
        rows := rows[key := KeyRow(hash, None)];
        return Some((true, rows[key]));
      }
      if trouble.SelectFails? { return None; }
      return Some((false, rows[key]));
    }

    method Complete(key: string, answer: Response, trouble: Trouble)
      modifies this`rows
      ensures rows == if key in old(rows) && !trouble.ReleaseFails?
          then old(rows)[key := old(rows)[key].(done := Some(answer))] else old(rows)
    {
      if key in rows && !trouble.ReleaseFails? { rows := rows[key := rows[key].(done := Some(answer))]; }
    }

    method Delete(key: string, trouble: Trouble)
      modifies this`rows
      ensures rows == if trouble.ReleaseFails? then old(rows) else old(rows) - {key}
    {
      if !trouble.ReleaseFails? { rows := rows - {key}; }
    }

    /** withIdempotency around a handler that commits a payment exactly when it answers with a 2xx. */
    method Serve(key: string, hash: Hash, handler: Handler, trouble: Trouble) returns (r: Response)
      modifies this
      ensures payments == if key != "" && key !in old(rows) && !trouble.InsertFails? && handler.Returns?
          && 200 <= handler.answer.status < 300
                          then old(payments) + [key] else old(payments)
      ensures key == "" ==> r == MISSING_KEY && rows == old(rows)
      ensures key != "" && (trouble.InsertFails? || (trouble.SelectFails? && key in old(rows))) ==>
          r == INTERNAL && rows == old(rows)
      ensures key != "" && key in old(rows) && !trouble.InsertFails? && !trouble.SelectFails? ==>
          r == Replay(old(rows)[key], hash) && rows == old(rows)
      ensures key != "" && key in old(rows) && old(rows)[key].done.None? ==> r.status == 409 || r.status == 500
      ensures key != "" && key !in old(rows) && !trouble.InsertFails? ==>
        && r == (if handler.Panics? then INTERNAL else handler.answer)
        && forall k :: k != key ==> ((k in rows <==> k in old(rows)) && (k in rows ==> rows[k] == old(rows)[k]))
      ensures key != "" && key !in old(rows) && (trouble.Fine? || trouble.SelectFails?) ==>
        if handler.Returns? && 200 <= handler.answer.status < 300
            then key in rows && rows[key] == KeyRow(hash, Some(handler.answer)) else key !in rows
    {
      if key == "" { return MISSING_KEY; }
      var claim := Begin(key, hash, trouble);
      if claim.None? { return INTERNAL; }
      var (ours, existing) := claim.value;
      if !ours { return Replay(existing, hash); }
      if handler.Panics? {
        Delete(key, trouble);
        return INTERNAL;
      }
      var answer := handler.answer;
      if Success(answer.status) {
        payments := payments + [key];
        Complete(key, answer, trouble);
      } else {
        Delete(key, trouble);
      }
      return answer;
    }
  }

  // ---------------------------------------------------------------- interleaved requests, with crashes

  datatype Place =
    | Arrived
    | Taken                       // the insert found the key; about to read the row
    | Running                     // claimed; the handler has committed no payment
    | Created                     // the handler's payment is committed
    | Answered(answer: Response)  // the handler has returned
    | Panicked

  datatype Proc = Proc(key: string, hash: Hash, place: Place)

  /** A response and the request it went to. */
  datatype Reply = Reply(key: string, hash: Hash, response: Response, replayed: bool)

  /** `owners` and `answers` remember whose claim of a key committed last, and the last 2xx its handler returned. */
  datatype State = State(rows: map<string, KeyRow>, procs: map<nat, Proc>, payments: seq<string>, replies: seq<Reply>,
                         owners: map<string, nat>, answers: map<string, Response>)

  datatype Step =
    | Arrive(p: nat, key: string, hash: Hash)
    | Insert(p: nat, known: bool)             // a claim whose outcome is lost ends the request
    | Select(p: nat)
    | Pay(p: nat)
    | Return(p: nat, answer: Response)
    | Panic(p: nat)
    | Finish(p: nat, stored: bool)            // Complete or Delete, which may fail, then the reply
    | Crash(p: nat)

  ghost predicate At(s: State, p: nat, place: Place) { p in s.procs && s.procs[p].place == place }

  /** A payment that committed is always answered with a 2xx, and a 2xx means a payment committed. */
  ghost predicate Enabled(s: State, step: Step) {
    match step
    case Arrive(p, key, _) => p !in s.procs && key != ""
    case Insert(p, _) => At(s, p, Arrived)
    case Select(p) => At(s, p, Taken)
    case Pay(p) => At(s, p, Running)
    case Return(p, answer) => At(s, p, if Success(answer.status) then Created else Running)
    case Panic(p) => At(s, p, Running)
    case Finish(p, _) => p in s.procs && (s.procs[p].place.Answered? || s.procs[p].place.Panicked?)
    case Crash(p) => p in s.procs
  }

  function Finished(rows: map<string, KeyRow>, x: Proc): map<string, KeyRow> {
    if x.place.Answered? && Success(x.place.answer.status)
    then if x.key in rows then rows[x.key := rows[x.key].(done := Some(x.place.answer))] else rows
    else rows - {x.key}
  }

  ghost function Do(s: State, step: Step): State
    requires Enabled(s, step)
  {
    match step
    case Arrive(p, key, hash) => s.(procs := s.procs[p := Proc(key, hash, Arrived)])
    case Insert(p, known) =>
      var x := s.procs[p];
      if x.key in s.rows then s.(procs := s.procs[p := x.(place := Taken)])
      else
        var claimed := s.(rows := s.rows[x.key := KeyRow(x.hash, None)], owners := s.owners[x.key := p]);
        if known then claimed.(procs := s.procs[p := x.(place := Running)])
        else claimed.(procs := s.procs - {p}, replies := s.replies + [Reply(x.key, x.hash, INTERNAL, false)])
    case Select(p) =>
      var x := s.procs[p];
      var r := if x.key in s.rows then Replay(s.rows[x.key], x.hash) else INTERNAL;
      s.(procs := s.procs - {p}, replies := s.replies + [Reply(x.key, x.hash, r, x.key in s.rows)])
    case Pay(p) => s.(payments := s.payments + [s.procs[p].key], procs := s.procs[p := s.procs[p].(place := Created)])
    case Return(p, answer) =>
      var x := s.procs[p];
      s.(procs := s.procs[p := x.(place := Answered(answer))], answers := if Success(answer.status)
          then s.answers[x.key := answer] else s.answers)
    case Panic(p) => s.(procs := s.procs[p := s.procs[p].(place := Panicked)])
    case Finish(p, stored) =>
      var x := s.procs[p];
      s.(rows := if stored then Finished(s.rows, x) else s.rows, procs := s.procs - {p},
         replies := s.replies + [Reply(x.key, x.hash, if x.place.Answered? then x.place.answer else INTERNAL, false)])
    case Crash(p) => s.(procs := s.procs - {p})
  }

  ghost predicate Next(s: State, s': State) { exists step :: Enabled(s, step) && s' == Do(s, step) }

  ghost predicate Behavior(run: seq<State>) {
    && |run| > 0 && run[0] == State(map[], map[], [], [], map[], map[])
    && forall i :: 0 <= i < |run| - 1 ==> Next(run[i], run[i + 1])
  }

  function PaymentsOf(payments: seq<string>, key: string): nat {
    if payments == [] then 0 else PaymentsOf(payments[..|payments| - 1], key) + if payments[|payments| - 1] == key
        then 1 else 0
  }

  predicate Acting(x: Proc) { !x.place.Arrived? && !x.place.Taken? }

  ghost predicate KeyOk(s: State, key: string) {
    && PaymentsOf(s.payments, key) <= 1
    && (key !in s.rows ==> PaymentsOf(s.payments, key) == 0)
    && (key in s.rows && s.rows[key].done.Some? ==>
        key in s.answers && s.answers[key] == s.rows[key].done.value && Success(s.answers[key].status))
  }

  /** Only the request whose claim stands acts on the key, and until it has paid nobody has. */
  ghost predicate ProcOk(s: State, p: nat, x: Proc) {
    Acting(x) ==>
      && x.key in s.rows && s.rows[x.key] == KeyRow(x.hash, None) && x.key in s.owners && s.owners[x.key] == p
      && (x.place.Running? || x.place.Panicked? || (x.place.Answered? && !Success(x.place.answer.status)) ==>
          PaymentsOf(s.payments, x.key) == 0)
      && (x.place.Answered? && Success(x.place.answer.status) ==>
          x.key in s.answers && s.answers[x.key] == x.place.answer)
  }

  ghost predicate Inv(s: State) {
    && (forall key: string :: KeyOk(s, key))
    && (forall p :: p in s.procs ==> ProcOk(s, p, s.procs[p]))
  }

  lemma PaymentsAppend(payments: seq<string>, k: string, key: string)
    ensures PaymentsOf(payments + [k], key) == PaymentsOf(payments, key) + if k == key then 1 else 0
  {
    assert (payments + [k])[..|payments|] == payments;
  }

  lemma PayKeeps(s: State, p: nat)
    requires Inv(s) && Enabled(s, Pay(p))
    ensures Inv(Do(s, Pay(p)))
  {
    var s', x := Do(s, Pay(p)), s.procs[p];
    assert ProcOk(s, p, x);
    forall key: string
      ensures PaymentsOf(s'.payments, key) == PaymentsOf(s.payments, key) + if x.key == key then 1 else 0 {
      PaymentsAppend(s.payments, x.key, key);
    }
    forall key: string ensures KeyOk(s', key) { assert KeyOk(s, key); }
    forall q | q in s'.procs ensures ProcOk(s', q, s'.procs[q]) { assert ProcOk(s, q, s.procs[q]); }
  }

  /** Steps that write the key's row. */
  lemma WriteKeeps(s: State, step: Step)
    requires Inv(s) && Enabled(s, step) && (step.Insert? || step.Finish?)
    ensures Inv(Do(s, step))
  {
    var s', x := Do(s, step), s.procs[step.p];
    assert ProcOk(s, step.p, x);
    assert KeyOk(s, x.key);
    forall key: string ensures KeyOk(s', key) { assert KeyOk(s, key); }
    forall q | q in s'.procs ensures ProcOk(s', q, s'.procs[q]) { assert ProcOk(s, q, s.procs[q]); }
  }

  lemma StepKeeps(s: State, step: Step)
    requires Inv(s) && Enabled(s, step)
    ensures Inv(Do(s, step))
  {
    if step.Pay? {
      PayKeeps(s, step.p);
    } else if step.Insert? || step.Finish? {
      WriteKeeps(s, step);
    } else {
      var s' := Do(s, step);
      if !step.Arrive? { assert ProcOk(s, step.p, s.procs[step.p]); }
      forall key: string ensures KeyOk(s', key) { assert KeyOk(s, key); }
      forall q | q in s'.procs ensures ProcOk(s', q, s'.procs[q]) {
        if q in s.procs { assert ProcOk(s, q, s.procs[q]); }
      }
    }
  }

  lemma {:induction false} InvAlong(run: seq<State>, i: nat)
    requires Behavior(run) && i < |run|
    ensures Inv(run[i])
  {
    if i > 0 {
      InvAlong(run, i - 1);
      assert Next(run[i - 1], run[i - 1 + 1]);
      var step :| Enabled(run[i - 1], step) && run[i] == Do(run[i - 1], step);
      StepKeeps(run[i - 1], step);
    }
  }

  /**
   * However requests with one key interleave, fail, crash or lose their claim's outcome, at most one payment is
   * created.
   */
  lemma AtMostOnePayment(run: seq<State>, i: nat, key: string)
    requires Behavior(run) && i < |run|
    ensures PaymentsOf(run[i].payments, key) <= 1
  {
    InvAlong(run, i);
    assert KeyOk(run[i], key);
  }

  ghost predicate Stored(s: State, key: string, row: KeyRow) { key in s.rows && s.rows[key] == row && row.done.Some? }

  lemma StepKeepsStored(s: State, step: Step, key: string, row: KeyRow)
    requires Inv(s) && Enabled(s, step) && Stored(s, key, row)
    ensures Stored(Do(s, step), key, row)
  {
    if step.Finish? { assert ProcOk(s, step.p, s.procs[step.p]); }
  }

  lemma NextKeepsStored(run: seq<State>, i: nat, key: string, row: KeyRow)
    requires Behavior(run) && i + 1 < |run| && Stored(run[i], key, row)
    ensures Stored(run[i + 1], key, row)
  {
    InvAlong(run, i);
    var s, s' := run[i], run[i + 1];
    assert Next(s, s');
    var step :| Enabled(s, step) && s' == Do(s, step);
    StepKeepsStored(s, step, key, row);
  }

  /** A stored answer is never replaced or released. */
  lemma {:induction false} StoredForever(run: seq<State>, i: nat, j: nat, key: string, row: KeyRow)
    requires Behavior(run) && i <= j < |run| && Stored(run[i], key, row)
    ensures Stored(run[j], key, row)
    decreases j - i
  {
    if i < j {
      StoredForever(run, i, j - 1, key, row);
      NextKeepsStored(run, j - 1, key, row);
    }
  }

  /**
   * Once an answer is stored, every later request with the key that finds it gets exactly the status and body the
   * handler returned, if it is the same request, and 422 if it is not.
   */
  lemma ReplayReturnsTheOriginal(run: seq<State>, i: nat, j: nat, p: nat, row: KeyRow)
    requires Behavior(run) && i <= j && j + 1 < |run| && Enabled(run[j], Select(p))
        && run[j + 1] == Do(run[j], Select(p))
    requires Stored(run[i], run[j].procs[p].key, row)
    ensures var x, r := run[j].procs[p], run[j + 1].replies[|run[j].replies|];
      && r.key == x.key && r.replayed && x.key in run[j].answers
      && r.response == if x.hash == row.hash then run[j].answers[x.key] else REUSED
    ensures PaymentsOf(run[j + 1].payments, run[j].procs[p].key) <= 1
  {
    var key := run[j].procs[p].key;
    StoredForever(run, i, j, key, row);
    InvAlong(run, j);
    assert KeyOk(run[j], key);
  }

  /** A request that finds its key claimed and unfinished is told so: 409, and never a 2xx. */
  lemma InFlightIsRefused(run: seq<State>, i: nat, p: nat)
    requires Behavior(run) && i + 1 < |run| && Enabled(run[i], Select(p)) && run[i + 1] == Do(run[i], Select(p))
    requires run[i].procs[p].key in run[i].rows && run[i].rows[run[i].procs[p].key].done.None?
    ensures run[i + 1].replies == run[i].replies +
        [Reply(run[i].procs[p].key, run[i].procs[p].hash, Response(409, "request_in_flight"), true)]
    ensures run[i + 1].rows == run[i].rows && run[i + 1].payments == run[i].payments
  {}

  /** A request that failed, or whose handler panicked, gives its key back, and the next one claims it afresh. */
  lemma FailureReleasesTheKey(run: seq<State>, i: nat, p: nat, q: nat)
    requires Behavior(run) && i + 1 < |run| && Enabled(run[i], Finish(p, true))
    requires run[i + 1] == Do(run[i], Finish(p, true))
    ensures var x := run[i].procs[p];
      x.key !in run[i + 1].rows <==>
          x.place.Panicked? || (x.place.Answered? && !(200 <= x.place.answer.status < 300))
    ensures At(run[i + 1], q, Arrived) && run[i + 1].procs[q].key == run[i].procs[p].key ==>
      run[i].procs[p].key !in run[i + 1].rows ==> At(Do(run[i + 1], Insert(q, true)), q, Running)
  {
    InvAlong(run, i);
    assert ProcOk(run[i], p, run[i].procs[p]);
  }

  // ---------------------------------------------------------------- what a 2xx means

  /** The key's one 2xx answer: it is claimed for good, paid once, and nobody is about to answer again. */
  ghost predicate AnswerOk(s: State, key: string) {
    && (key in s.answers ==> key in s.rows && PaymentsOf(s.payments, key) == 1)
    && forall p | p in s.procs && s.procs[p].key == key && s.procs[p].place.Created? ::
        key !in s.answers && PaymentsOf(s.payments, key) == 1
  }

  ghost predicate ReplyOk(s: State, r: Reply) {
    200 <= r.response.status < 300 ==>
      r.key in s.answers && s.answers[r.key] == r.response && r.key in s.rows && s.rows[r.key].hash == r.hash
  }

  ghost predicate Honest(s: State) {
    (forall key: string :: AnswerOk(s, key)) && (forall i :: 0 <= i < |s.replies| ==> ReplyOk(s, s.replies[i]))
  }

  /** An answer once given stays, for the same request. */
  ghost predicate AnswersStand(s: State, s': State) {
    forall key: string | key in s.answers :: key in s'.answers && s'.answers[key] == s.answers[key]
      && (key in s.rows ==> key in s'.rows && s'.rows[key].hash == s.rows[key].hash)
  }

  lemma StepKeepsAnswers(s: State, step: Step)
    requires Inv(s) && Honest(s) && Enabled(s, step)
    ensures AnswersStand(s, Do(s, step))
  {
    forall key: string | key in s.answers
      ensures key in Do(s, step).answers && Do(s, step).answers[key] == s.answers[key]
      ensures key in s.rows ==> key in Do(s, step).rows && Do(s, step).rows[key].hash == s.rows[key].hash
    {
      assert AnswerOk(s, key);
      if !step.Arrive? { assert ProcOk(s, step.p, s.procs[step.p]); }
    }
  }

  lemma PayKeepsAnswerOk(s: State, p: nat, key: string)
    requires Inv(s) && AnswerOk(s, key) && Enabled(s, Pay(p))
    ensures AnswerOk(Do(s, Pay(p)), key)
  {
    var x := s.procs[p];
    assert ProcOk(s, p, x) && KeyOk(s, key);
    PaymentsAppend(s.payments, x.key, key);
  }

  lemma ReturnKeepsAnswerOk(s: State, p: nat, answer: Response, key: string)
    requires Inv(s) && AnswerOk(s, key) && Enabled(s, Return(p, answer))
    ensures AnswerOk(Do(s, Return(p, answer)), key)
  {
    var s', x := Do(s, Return(p, answer)), s.procs[p];
    assert ProcOk(s, p, x);
    forall q | q in s'.procs && s'.procs[q].key == key && s'.procs[q].place.Created?
      ensures key !in s'.answers && PaymentsOf(s'.payments, key) == 1
    {
      assert ProcOk(s, q, s.procs[q]);
    }
  }

  lemma StepKeepsAnswerOk(s: State, step: Step, key: string)
    requires Inv(s) && AnswerOk(s, key) && Enabled(s, step)
    ensures AnswerOk(Do(s, step), key)
  {
    if step.Pay? {
      PayKeepsAnswerOk(s, step.p, key);
    } else if step.Return? {
      ReturnKeepsAnswerOk(s, step.p, step.answer, key);
    } else if step.Finish? {
      assert ProcOk(s, step.p, s.procs[step.p]);
    }
  }

  lemma NewReplyIsOk(s: State, step: Step)
    requires Inv(s) && Enabled(s, step) && |Do(s, step).replies| > |s.replies|
    ensures ReplyOk(Do(s, step), Do(s, step).replies[|s.replies|])
  {
    var x := s.procs[step.p];
    assert ProcOk(s, step.p, x) && KeyOk(s, x.key);
  }

  lemma StepKeepsHonest(s: State, step: Step)
    requires Inv(s) && Honest(s) && Enabled(s, step)
    ensures Honest(Do(s, step))
  {
    var s' := Do(s, step);
    forall key: string ensures AnswerOk(s', key) {
      assert AnswerOk(s, key);
      StepKeepsAnswerOk(s, step, key);
    }
    StepKeepsAnswers(s, step);
    forall i | 0 <= i < |s'.replies| ensures ReplyOk(s', s'.replies[i]) {
      if i < |s.replies| {
        assert s'.replies[i] == s.replies[i] && ReplyOk(s, s.replies[i]);
      } else {
        NewReplyIsOk(s, step);
      }
    }
  }

  lemma {:induction false} HonestAlong(run: seq<State>, i: nat)
    requires Behavior(run) && i < |run|
    ensures Honest(run[i])
  {
    if i > 0 {
      InvAlong(run, i - 1);
      HonestAlong(run, i - 1);
      assert Next(run[i - 1], run[i - 1 + 1]);
      var step :| Enabled(run[i - 1], step) && run[i] == Do(run[i - 1], step);
      StepKeepsHonest(run[i - 1], step);
    }
  }

  /**
   * In every interleaving, with every crash: a 2xx goes out only for a key whose one payment is committed, and all 2xx
   * replies of a key, first or replayed, carry the same status and body and answer the same request.
   */
  lemma EverySuccessIsThePayment(run: seq<State>, i: nat, j: nat, k: nat)
    requires Behavior(run) && i < |run| && j < |run[i].replies| && k < |run[i].replies|
    requires var a, b := run[i].replies[j], run[i].replies[k];
      a.key == b.key && 200 <= a.response.status < 300 && 200 <= b.response.status < 300
    ensures var a, b := run[i].replies[j], run[i].replies[k];
      PaymentsOf(run[i].payments, a.key) == 1 && a.response == b.response && a.hash == b.hash
  {
    HonestAlong(run, i);
    var a, b := run[i].replies[j], run[i].replies[k];
    assert ReplyOk(run[i], a) && ReplyOk(run[i], b) && AnswerOk(run[i], a.key);
  }
}
