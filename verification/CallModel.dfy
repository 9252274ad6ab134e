/**
 * `callModel` in task mode and the `TaskLlmSession.runAttempt` below it (apps/agents/src/llm.ts,
 * task-llm-session.ts). `core` is Core's database as this session's requests meet it: between any two of
 * them other workers and the owner may move it anywhere the dispatch protocol allows, and every reply may
 * be lost after, or instead of, the transaction. What the world does to each round is a parameter.
 */
module CallModel {
  import opened Common
  import opened LlmResult
  import opened CoreStore
  import opened Session
  import opened DispatchSystem

  datatype ChatEnd =
    | Disabled
    | Answer(last: ModelResult)
    | NoAnswer(last: ModelResult)
    | Aborted(failure: Failure)

  // ── What a chain of stored results answers ───────────────────────────────────

  function AttemptKey(id: Id, stepKey: string, i: nat): JobKey {
    JobKey(id, stepKey, i + 1)
  }

  /** Reading the stored chain from attempt `i + 1` on; None while an attempt it needs has no result. */
  function ChainAnswer(c: Core, id: Id, stepKey: string, models: seq<string>, i: nat,
                       last: Option<ModelResult>): Option<ChatEnd>
    decreases |models| - i
  {
    if i >= |models| then Some(if last.None? then Disabled else NoAnswer(last.value))
    else
      var k := AttemptKey(id, stepKey, i);
      if k !in c.jobs || c.jobs[k].result.None? then None
      else
        var read := ChatResult(c.jobs[k].result.value, models[i]);
        if read.None? then Some(Aborted(Blocked))
        else if read.value.ok then Some(Answer(read.value))
        else ChainAnswer(c, id, stepKey, models, i + 1, read)
  }

  /** A chain that has an answer keeps it, whatever happens to Core. */
  lemma {:induction false} AnswerStays(c: Core, c': Core, id: Id, stepKey: string, models: seq<string>, i: nat,
                                       last: Option<ModelResult>)
    requires Evolves(c, c') && ChainAnswer(c, id, stepKey, models, i, last).Some?
    ensures ChainAnswer(c', id, stepKey, models, i, last) == ChainAnswer(c, id, stepKey, models, i, last)
    decreases |models| - i
  {
    if i < |models| {
      var k := AttemptKey(id, stepKey, i);
      assert k in c.jobs && JobMay(c.jobs[k], c'.jobs[k]);
      var read := ChatResult(c.jobs[k].result.value, models[i]);
      if read.Some? && !read.value.ok { AnswerStays(c, c', id, stepKey, models, i + 1, read); }
    }
  }

  /** The stored result of attempt `i + 1`, as the chat path reads it. */
  function ReadAttempt(c: Core, id: Id, stepKey: string, models: seq<string>, i: nat): Option<ModelResult>
    requires i < |models|
  {
    var k := AttemptKey(id, stepKey, i);
    if k in c.jobs && c.jobs[k].result.Some? then ChatResult(c.jobs[k].result.value, models[i]) else None
  }

  predicate AttemptRejected(c: Core, id: Id, stepKey: string, models: seq<string>, i: nat)
    requires i < |models|
  {
    var k := AttemptKey(id, stepKey, i);
    k in c.jobs && c.jobs[k].status == Rejected
    && ReadAttempt(c, id, stepKey, models, i).Some? && !ReadAttempt(c, id, stepKey, models, i).value.ok
  }

  /** Attempts 1..i hold a durable rejection; `last` is what the last of them reads as. */
  predicate RejectedSoFar(c: Core, id: Id, stepKey: string, models: seq<string>, i: nat, last: Option<ModelResult>) {
    && i <= |models|
    && (forall m :: 0 <= m < i ==> AttemptRejected(c, id, stepKey, models, m))
    && last == if i == 0 then None else ReadAttempt(c, id, stepKey, models, i - 1)
  }

  lemma RejectedStays(c: Core, c': Core, id: Id, stepKey: string, models: seq<string>, i: nat,
                      last: Option<ModelResult>)
    requires Evolves(c, c') && RejectedSoFar(c, id, stepKey, models, i, last)
    ensures RejectedSoFar(c', id, stepKey, models, i, last)
  {
    forall m | 0 <= m < i ensures AttemptRejected(c', id, stepKey, models, m)
                                  && ReadAttempt(c', id, stepKey, models, m) == ReadAttempt(c, id, stepKey, models, m) {
      var k := AttemptKey(id, stepKey, m);
      assert AttemptRejected(c, id, stepKey, models, m) && JobMay(c.jobs[k], c'.jobs[k]);
    }
  }

  lemma {:induction false} ChainSkips(c: Core, id: Id, stepKey: string, models: seq<string>, i: nat,
                                      last: Option<ModelResult>)
    requires RejectedSoFar(c, id, stepKey, models, i, last)
    ensures ChainAnswer(c, id, stepKey, models, 0, None) == ChainAnswer(c, id, stepKey, models, i, last)
    ensures PredecessorsRejected(c, AttemptKey(id, stepKey, i))
  {
    if i > 0 {
      ChainSkips(c, id, stepKey, models, i - 1, if i == 1 then None else ReadAttempt(c, id, stepKey, models, i - 2));
      assert AttemptRejected(c, id, stepKey, models, i - 1);
    }
    var k := AttemptKey(id, stepKey, i);
    forall m | 1 <= m < k.attemptNo
      ensures k.(attemptNo := m) in c.jobs && c.jobs[k.(attemptNo := m)].status == Rejected
    {
      assert AttemptRejected(c, id, stepKey, models, m - 1);
      assert AttemptKey(id, stepKey, m - 1) == k.(attemptNo := m);
    }
  }

  lemma ChainExhausted(c: Core, id: Id, stepKey: string, models: seq<string>, last: Option<ModelResult>)
    requires models != [] && RejectedSoFar(c, id, stepKey, models, |models|, last)
    ensures last.Some? && ChainAnswer(c, id, stepKey, models, 0, None) == Some(NoAnswer(last.value))
  {
    ChainSkips(c, id, stepKey, models, |models|, last);
    assert AttemptRejected(c, id, stepKey, models, |models| - 1);
  }

  /** The attempts before this one hold a durable rejection. */
  predicate PredecessorsRejected(c: Core, k: JobKey) {
    forall m :: 1 <= m < k.attemptNo ==> k.(attemptNo := m) in c.jobs && c.jobs[k.(attemptNo := m)].status == Rejected
  }

  lemma PredecessorsStay(c: Core, c': Core, k: JobKey)
    requires Evolves(c, c') && PredecessorsRejected(c, k)
    ensures PredecessorsRejected(c', k)
  {
    forall m | 1 <= m < k.attemptNo
      ensures k.(attemptNo := m) in c'.jobs && c'.jobs[k.(attemptNo := m)].status == Rejected
    {
      assert JobMay(c.jobs[k.(attemptNo := m)], c'.jobs[k.(attemptNo := m)]);
    }
  }

  /** Every attempt asked for since `from` came after durable rejections only. */
  predicate AskedInOrder(c: Core, asked: seq<JobKey>, from: nat) {
    forall n :: from <= n < |asked| ==> PredecessorsRejected(c, asked[n])
  }

  predicate WireRejected(c: Core, wire: Wire) {
    wire.key in c.jobs && c.jobs[wire.key].status == Rejected
  }

  predicate AllRejected(c: Core, wires: seq<Wire>, from: nat) {
    forall n :: from <= n < |wires| ==> WireRejected(c, wires[n])
  }

  /** Every request sent since `from`, except possibly the last one, was definitely rejected. */
  predicate OnlyLastOpen(c: Core, wires: seq<Wire>, from: nat) {
    forall n :: from <= n < |wires| - 1 ==> WireRejected(c, wires[n])
  }

  lemma LogsStay(c: Core, c': Core, asked: seq<JobKey>, a: nat, wires: seq<Wire>, w: nat)
    requires Evolves(c, c') && AskedInOrder(c, asked, a) && AllRejected(c, wires, w)
    ensures AskedInOrder(c', asked, a) && AllRejected(c', wires, w)
  {
    forall n | a <= n < |asked| ensures PredecessorsRejected(c', asked[n]) { PredecessorsStay(c, c', asked[n]); }
    forall n | w <= n < |wires| ensures WireRejected(c', wires[n]) {
      assert WireRejected(c, wires[n]) && JobMay(c.jobs[wires[n].key], c'.jobs[wires[n].key]);
    }
  }

  /** A chain that can be answered needs no new grant at the attempt it has reached. */
  lemma AnsweredNeedsNoGrant(c: Core, id: Id, stepKey: string, models: seq<string>, i: nat, last: Option<ModelResult>)
    requires Inv(c) && i < |models| && ChainAnswer(c, id, stepKey, models, i, last).Some?
    ensures AttemptKey(id, stepKey, i) in c.jobs && c.jobs[AttemptKey(id, stepKey, i)].token.Some?
  {
    assert JobOk(c, AttemptKey(id, stepKey, i));
  }

  datatype Step = Stop(end: ChatEnd) | Go(last: ModelResult)

  /** What one round did: at most one more attempt asked for, at most one more request sent, for that attempt. */
  predicate Round(c1: Core, c2: Core, w1: seq<Wire>, w2: seq<Wire>, a1: seq<JobKey>, a2: seq<JobKey>, id: Id,
                  step: PlanStep, i: nat, r: Step)
    requires i < |step.models|
  {
    var k := AttemptKey(id, step.stepKey, i);
    var read := ReadAttempt(c2, id, step.stepKey, step.models, i);
    && (a2 == a1 || a2 == a1 + [k])
    && (w2 == w1 || (|w2| == |w1| + 1 && w1 <= w2 && w2[|w1|].key == k && k in c2.jobs
                     && (k in c1.jobs ==> c1.jobs[k].token.None?)))
    && (r.Go? ==> AttemptRejected(c2, id, step.stepKey, step.models, i) && read == Some(r.last))
    && (r.Stop? && !r.end.Aborted? ==> r.end.Answer? && r.end.last.ok && read == Some(r.end.last))
  }

  /** Between rounds: everything sent or asked for since the start was rejected, and an old answer still lies ahead. */
  predicate Progress(c: Core, wires: seq<Wire>, asked: seq<JobKey>, w0: seq<Wire>, a0: seq<JobKey>,
                     id: Id, step: PlanStep, i: nat, last: Option<ModelResult>, before: Option<ChatEnd>)
  {
    && w0 <= wires && a0 <= asked
    && AskedInOrder(c, asked, |a0|) && AllRejected(c, wires, |w0|)
    && RejectedSoFar(c, id, step.stepKey, step.models, i, last)
    && (before.Some? ==> wires == w0 && ChainAnswer(c, id, step.stepKey, step.models, i, last) == before)
  }

  lemma RoundLogs(c1: Core, c2: Core, w1: seq<Wire>, w2: seq<Wire>, a1: seq<JobKey>, a2: seq<JobKey>, w0: nat, a0: nat,
                  id: Id, step: PlanStep, i: nat, last: Option<ModelResult>, r: Step)
    requires i < |step.models| && Evolves(c1, c2) && w0 <= |w1|
    requires RejectedSoFar(c1, id, step.stepKey, step.models, i, last) && AskedInOrder(c1, a1, a0)
             && AllRejected(c1, w1, w0)
    requires Round(c1, c2, w1, w2, a1, a2, id, step, i, r)
    ensures AskedInOrder(c2, a2, a0) && OnlyLastOpen(c2, w2, w0)
    ensures r.Go? ==> AllRejected(c2, w2, w0)
  {
    ChainSkips(c1, id, step.stepKey, step.models, i, last);
    assert AskedInOrder(c1, a2, a0);
    LogsStay(c1, c2, a2, a0, w1, w0);
    forall n | w0 <= n < |w1| ensures WireRejected(c2, w2[n]) { assert w2[n] == w1[n]; }
  }

  lemma RoundAnswers(c1: Core, c2: Core, id: Id, key: string, models: seq<string>, i: nat, last: Option<ModelResult>)
    requires i < |models| && Evolves(c1, c2) && RejectedSoFar(c1, id, key, models, i, last)
    ensures var read := ReadAttempt(c2, id, key, models, i);
            var before := ChainAnswer(c1, id, key, models, i, last);
            && (read.Some? && read.value.ok ==>
                  ChainAnswer(c2, id, key, models, 0, None) == Some(Answer(read.value))
                  && (before.Some? ==> before == Some(Answer(read.value))))
            && (AttemptRejected(c2, id, key, models, i) ==>
                  RejectedSoFar(c2, id, key, models, i + 1, read)
                  && (before.Some? ==> before == ChainAnswer(c2, id, key, models, i + 1, read)))
  {
    if ChainAnswer(c1, id, key, models, i, last).Some? { AnswerStays(c1, c2, id, key, models, i, last); }
    RejectedStays(c1, c2, id, key, models, i, last);
    ChainSkips(c2, id, key, models, i, last);
  }

  /** What a whole call did: requests in order, at most the last one open, and the stored chain's own answer. */
  predicate ChainRun(c0: Core, c: Core, w0: seq<Wire>, wires: seq<Wire>, a0: seq<JobKey>, asked: seq<JobKey>, id: Id,
                     step: PlanStep, r: ChatEnd) {
    var before := ChainAnswer(c0, id, step.stepKey, step.models, 0, None);
    && w0 <= wires && a0 <= asked
    && AskedInOrder(c, asked, |a0|) && OnlyLastOpen(c, wires, |w0|)
    && (!r.Aborted? ==> ChainAnswer(c, id, step.stepKey, step.models, 0, None) == Some(r))
    && (before.Some? ==> wires == w0 && (r.Aborted? || Some(r) == before))
  }

  lemma RoundKeeps(c0: Core, c1: Core, c2: Core, w1: seq<Wire>, w2: seq<Wire>, a1: seq<JobKey>, a2: seq<JobKey>,
                   w0: seq<Wire>, a0: seq<JobKey>,
                   id: Id, step: PlanStep, i: nat, last: Option<ModelResult>, before: Option<ChatEnd>, r: Step)
    requires i < |step.models| && Inv(c1) && Evolves(c0, c1) && Evolves(c1, c2)
    requires Progress(c1, w1, a1, w0, a0, id, step, i, last, before)
    requires Round(c1, c2, w1, w2, a1, a2, id, step, i, r)
    ensures Evolves(c0, c2) && AskedInOrder(c2, a2, |a0|) && OnlyLastOpen(c2, w2, |w0|) && a0 <= a2 && w0 <= w2
    ensures before.Some? ==> w2 == w0 && (r.Stop? && !r.end.Aborted? ==> before == Some(r.end))
    ensures r.Stop? && !r.end.Aborted? ==> ChainAnswer(c2, id, step.stepKey, step.models, 0, None) == Some(r.end)
    ensures r.Go? ==> Progress(c2, w2, a2, w0, a0, id, step, i + 1, Some(r.last), before)
  {
    EvolvesTransitive(c0, c1, c2);
    if before.Some? { AnsweredNeedsNoGrant(c1, id, step.stepKey, step.models, i, last); }
    RoundLogs(c1, c2, w1, w2, a1, a2, |w0|, |a0|, id, step, i, last, r);
    RoundAnswers(c1, c2, id, step.stepKey, step.models, i, last);
  }

  lemma ChainDone(c0: Core, c: Core, wires: seq<Wire>, asked: seq<JobKey>, w0: seq<Wire>, a0: seq<JobKey>,
                  id: Id, step: PlanStep, last: Option<ModelResult>)
    requires step.models != []
    requires Progress(c, wires, asked, w0, a0, id, step, |step.models|, last,
                      ChainAnswer(c0, id, step.stepKey, step.models, 0, None))
    ensures last.Some? && ChainRun(c0, c, w0, wires, a0, asked, id, step, NoAnswer(last.value))
  {
    ChainExhausted(c, id, step.stepKey, step.models, last);
  }

  // ── What the world does ──────────────────────────────────────────────────────

  /**
   * The fate of one request to Core: what others do to Core before it, whether it arrived and its reply came
   * back, and what the client saw otherwise (None is silence).
   */
  datatype Move = Move(others: Core -> Core, reached: bool, delivered: bool, fault: Option<nat>,
                       now: int, ledger: Ledger, reauthorised: bool)

  /** The fate of one round of the chain. */
  datatype Turn = Turn(leased: bool, ensure: Move, claim: Move, claimAgain: Move, complete: Move, completeAgain: Move,
                       token: Token, provider: ProviderReply)

  type World = nat -> Turn

  /** Core as the request meets it: others may do anything the protocol allows. */
  function Met(c: Core, m: Move): Core {
    var next := m.others(c);
    if Inv(next) && Evolves(c, next) then next else c
  }

  lemma MetEvolves(c: Core, m: Move)
    requires Inv(c)
    ensures Inv(Met(c, m)) && Evolves(c, Met(c, m))
  {
    EvolvesReflexive(c);
  }

  function HeardOf<T>(m: Move, reply: Reply<T>): Heard<T> {
    if m.reached then (if m.delivered then Reply(reply) else Lost)
    else if m.fault.None? then Lost else Reply(Refused(m.fault.value))
  }

  /** What the caller asks of every model. */
  datatype Prompt = Prompt(body: string, inputCeiling: nat, outputCeiling: nat)

  function AttemptOf(step: PlanStep, i: nat, p: Prompt): Attempt
    requires i < |step.models|
  {
    Attempt(step.stepKey, i + 1, step.route, step.models[i], p.inputCeiling, p.outputCeiling,
            Payload(step.models[i], p.body))
  }

  /** The fate of one model of an unmetered chain: the lease check, and the answer unless the gateway threw. */
  datatype DirectTurn = DirectTurn(leased: bool, answer: Option<ModelResult>)

  type Direct = nat -> DirectTurn

  predicate Spoken(turn: DirectTurn) {
    turn.answer.Some? && turn.answer.value.ok
  }

  /** What the chain takes from a model that was asked. */
  function Given(models: seq<string>, direct: Direct, i: nat): ModelResult
    requires i < |models|
  {
    if direct(i).answer.Some? then direct(i).answer.value
    else ModelResult("", models[i], false, None, None, None, None, None, None)
  }

  /** The first model that answers ends the chain, a failed lease check aborts it, and else the last failure stands. */
  ghost predicate DirectRun(models: seq<string>, direct: Direct, r: ChatEnd) {
    && (forall n :: 0 <= n < |models| && direct(n).leased && Spoken(direct(n))
                    && (forall m :: 0 <= m < n ==> direct(m).leased && !Spoken(direct(m))) ==>
          r == Answer(direct(n).answer.value))
    && (forall n :: 0 <= n < |models| && !direct(n).leased
                    && (forall m :: 0 <= m < n ==> direct(m).leased && !Spoken(direct(m))) ==>
          r == Aborted(Unavailable))
    && (models != [] && (forall m :: 0 <= m < |models| ==> direct(m).leased && !Spoken(direct(m))) ==>
          r == NoAnswer(Given(models, direct, |models| - 1)))
  }

  // ── Replay ───────────────────────────────────────────────────────────────────

  /**
   * The request reaches Core while the run owns its execution, the reply arrives, and the attempt is the stored one.
   */
  predicate Replays(c: Core, f: Fence, a: Attempt, m: Move) {
    && m.reached && m.delivered && Open(Met(c, m), f)
    && KeyOf(f, a) in c.jobs && c.jobs[KeyOf(f, a)].result.Some? && SameAttempt(c.jobs[KeyOf(f, a)], a)
  }

  /** The session's own first step on a stored attempt: it returns the stored result and Core stays as it was met. */
  lemma AttemptReplays(c: Core, f: Fence, a: Attempt, m: Move)
    requires Inv(c) && Replays(c, f, a, m)
    ensures var (c', reply) := Ensure(Met(c, m), m.now, f, a, m.ledger);
            && c' == Met(c, m)
            && OnEnsure(HeardOf(m, reply)) == EnsureEnds(Returned(c.jobs[KeyOf(f, a)].result.value))
  {
    MetEvolves(c, m);
    assert JobMay(c.jobs[KeyOf(f, a)], Met(c, m).jobs[KeyOf(f, a)]);
    EnsureReplays(Met(c, m), m.now, f, a, m.ledger);
  }

  // ── A fresh attempt ──────────────────────────────────────────────────────────

  /** The run still owns its execution, and none of the execution's rows has changed. */
  ghost predicate RunKept(c: Core, c': Core, f: Fence) {
    && Open(c', f) && f.attemptId in c.executions && c'.executions[f.attemptId] == c.executions[f.attemptId]
    && forall h: JobKey {:trigger h in c.jobs} {:trigger h in c'.jobs} :: h.execution == f.attemptId ==>
         (h in c.jobs <==> h in c'.jobs) && (h in c.jobs ==> c'.jobs[h] == c.jobs[h])
  }

  /** Whatever others do before the request, they leave the run of `f` alone. */
  ghost predicate Leaves(m: Move, f: Fence) {
    forall c {:trigger Met(c, m)} :: Inv(c) && Open(c, f) ==> RunKept(c, Met(c, m), f)
  }

  /** Nobody else does anything. */
  lemma QuietLeaves(m: Move, f: Fence)
    requires forall c :: m.others(c) == c
    ensures Leaves(m, f)
  {
    forall c | Inv(c) && Open(c, f) ensures RunKept(c, Met(c, m), f) {
      EvolvesReflexive(c);
    }
  }

  /** The request arrives and its reply comes back. */
  ghost predicate Arrives(m: Move, f: Fence) {
    m.reached && m.delivered && Leaves(m, f)
  }

  /** The reply is lost, whether or not the request arrived, or the client sees a server error instead. */
  predicate Missed(m: Move) {
    if m.reached then !m.delivered else m.fault.None? || m.fault.value >= 500
  }

  /** The client sees a definite refusal instead. */
  predicate Declined(m: Move) {
    !m.reached && m.fault.Some? && m.fault.value < 500
  }

  /** The request or its repetition is answered. */
  ghost predicate ArrivesAtLast(m: Move, again: Move, f: Fence) {
    Arrives(m, f) || (Missed(m) && Leaves(m, f) && Arrives(again, f))
  }

  /** The owner, the budget and the network let the attempt through, if only at the second try. */
  ghost predicate Served(turn: Turn, f: Fence) {
    && Arrives(turn.ensure, f) && turn.ensure.ledger == Granted
    && Admitted(turn.claim, turn.claimAgain, f)
    && ArrivesAtLast(turn.complete, turn.completeAgain, f)
  }

  /** The claim is answered, the second time before the grant of the first one runs out. */
  ghost predicate Admitted(m: Move, again: Move, f: Fence) {
    && ArrivesAtLast(m, again, f) && m.reauthorised && again.reauthorised
    && again.now < m.now + 120000
  }

  /** What Core stores of a provider's reply, if it accepts it. */
  function Evidenced(kind: JobKind, p: ProviderReply): Option<StoredResult> {
    var done := CompletionFor(p);
    if done.outcome == Unknown then None
    else Map(Canonical(kind, done.outcome == Rejection, done.result.value),
             e => StoredResult(done.outcome == Rejection, e))
  }

  /** How the attempt ends for the caller: with the durable result, or blocked when there is none. */
  function EndFor(kind: JobKind, p: ProviderReply): AttemptEnd {
    if Evidenced(kind, p).Some? then Returned(Evidenced(kind, p).value) else Threw(Blocked)
  }

  /** A row ready for this token's claim, or granted to it until after `now`. */
  predicate Claimable(c: Core, f: Fence, k: JobKey, token: Token, now: int) {
    && Open(c, f) && k in c.jobs && k.execution == f.attemptId
    && (c.jobs[k].status == Ready
        || (c.jobs[k].status == Dispatching && c.jobs[k].token == Some(token) && c.jobs[k].deadline > now))
  }

  /** The claim is granted, now as at the first time. */
  lemma ClaimSucceeds(c: Core, f: Fence, k: JobKey, token: Token, now: int, retried: bool)
    requires Inv(c) && Claimable(c, f, k, token, now)
    ensures var (c', r) := Claim(c, now, f, k, token, true);
            var op := c.jobs[k].operation;
            && Inv(c') && OnlyRowMoved(c, c', f, k)
            && k in c'.jobs && c'.jobs[k].status == Dispatching && c'.jobs[k].token == Some(token)
            && c'.jobs[k].operation == op && c'.jobs[k].route == c.jobs[k].route
            && (c.jobs[k].status == Ready ==> c'.jobs[k].deadline == now + 120000)
            && OnClaim(Reply(r), retried, op) == GoDispatch(op.payload)
  {
    assert JobOk(c, k);
    if c.jobs[k].status == Ready { ClaimGrants(c, now, f, k, token); }
  }

  /** What becomes of a row whose provider gave that reply. */
  predicate Concluded(j: Job, p: ProviderReply) {
    match Evidenced(j.route.kind, p)
    case Some(stored) => j.result == Some(stored) && j.status == if stored.rejected then Rejected else Succeeded
    case None => j.status == if CompletionFor(p).outcome == Unknown then UnknownOutcome else Dispatching
  }

  /** A row whose grant this token holds, with this reply not yet, or already, told. */
  predicate Tellable(c: Core, f: Fence, k: JobKey, token: Token, p: ProviderReply) {
    && Open(c, f) && k in c.jobs && k.execution == f.attemptId && c.jobs[k].token == Some(token)
    && (c.jobs[k].status == Dispatching || Concluded(c.jobs[k], p))
  }

  /** The reply and the new row of a completion. */
  ghost predicate Told(c: Core, c': Core, f: Fence, k: JobKey, token: Token, p: ProviderReply, r: Reply<CompleteReply>)
  {
    && Inv(c') && OnlyRowMoved(c, c', f, k) && Tellable(c', f, k, token, p) && k in c.jobs
    && Concluded(c'.jobs[k], p) && c'.jobs[k].route == c.jobs[k].route
    && match Evidenced(c.jobs[k].route.kind, p)
       case Some(stored) => r == Ok(CompleteReply(c'.jobs[k].status, Some(stored)))
       case None => r == Refused(400) || r == Ok(CompleteReply(UnknownOutcome, None))
  }

  lemma ToldFirst(c: Core, f: Fence, k: JobKey, token: Token, p: ProviderReply)
    requires Inv(c) && Tellable(c, f, k, token, p) && c.jobs[k].status == Dispatching
    ensures var (c', r) := Complete(c, f.taskId, k, token, CompletionFor(p)); Told(c, c', f, k, token, p, r)
  {
    if CompletionFor(p).outcome == Unknown {
      CompleteCloses(c, f, k, token);
    } else {
      CompleteStores(c, f, k, token, CompletionFor(p));
    }
  }

  lemma ToldAgain(c: Core, f: Fence, k: JobKey, token: Token, p: ProviderReply)
    requires Inv(c) && Tellable(c, f, k, token, p) && c.jobs[k].status != Dispatching
    ensures var (c', r) := Complete(c, f.taskId, k, token, CompletionFor(p)); c' == c && Told(c, c', f, k, token, p, r)
  {
    assert JobOk(c, k);
  }

  /** Telling the reply concludes the attempt, the second time as the first. */
  lemma CompleteSucceeds(c: Core, f: Fence, k: JobKey, token: Token, p: ProviderReply, retried: bool)
    requires Inv(c) && Tellable(c, f, k, token, p)
    ensures var (c', r) := Complete(c, f.taskId, k, token, CompletionFor(p));
            && Told(c, c', f, k, token, p, r)
            && OnComplete(Reply(r), retried, p) == CompleteEnds(EndFor(c.jobs[k].route.kind, p))
  {
    if c.jobs[k].status == Dispatching { ToldFirst(c, f, k, token, p); } else { ToldAgain(c, f, k, token, p); }
  }

  /** The open run's row waits to be dispatched with that operation. */
  predicate Waits(c: Core, f: Fence, k: JobKey, op: Operation) {
    Open(c, f) && k in c.jobs && k.execution == f.attemptId && c.jobs[k].status == Ready && c.jobs[k].operation == op
  }

  /** Of the run's rows only `k` has moved, and it is dispatched under this token. */
  ghost predicate Dispatched(c: Core, c': Core, f: Fence, k: JobKey, token: Token) {
    && OnlyRowMoved(c, c', f, k) && k in c.jobs && k in c'.jobs
    && c'.jobs[k].status == Dispatching && c'.jobs[k].token == Some(token) && c'.jobs[k].route == c.jobs[k].route
  }

  /** The claim and, where its reply is missed, its repetition. */
  lemma ClaimsInTime(c: Core, f: Fence, k: JobKey, token: Token, op: Operation, m: Move, again: Move)
    requires Inv(c) && Admitted(m, again, f) && Waits(c, f, k, op)
    ensures var (c1, r1) := Claim(Met(c, m), m.now, f, k, token, m.reauthorised);
            var d := if m.reached then c1 else Met(c, m);
            var (c2, r2) := Claim(Met(d, again), again.now, f, k, token, again.reauthorised);
            var h1, h2 := HeardOf(m, r1), HeardOf(again, r2);
            if OnClaim(h1, false, op).ClaimAgain? then
              OnClaim(h2, true, op) == GoDispatch(op.payload) && again.reached && Dispatched(c, c2, f, k, token)
            else
              OnClaim(h1, false, op) == GoDispatch(op.payload) && m.reached && Dispatched(c, c1, f, k, token)
  {
    MetKept(c, f, k, token, again.now, Exploded, m);
    var c0 := Met(c, m);
    if m.reached {
      ClaimSucceeds(c0, f, k, token, m.now, false);
      RowMovesOn(c, c0, Claim(c0, m.now, f, k, token, true).0, f, k);
    }
    if Missed(m) {
      var d := if m.reached then Claim(c0, m.now, f, k, token, true).0 else c0;
      MetKept(d, f, k, token, again.now, Exploded, again);
      ClaimSucceeds(Met(d, again), f, k, token, again.now, true);
      RowMovesOn(c, d, Met(d, again), f, k);
      RowMovesOn(c, Met(d, again), Claim(Met(d, again), again.now, f, k, token, true).0, f, k);
    }
  }

  /** Why an attempt ends before anything is sent, where its ensure request settles that. */
  ghost function Shut(c: Core, f: Fence, a: Attempt, m: Move): Option<Failure> {
    if !m.reached then
      if m.fault == Some(409) then Some(Blocked) else Some(Unavailable)
    else if !m.delivered then Some(Unavailable)
    else if !Fenced(Met(c, m), f) && f.taskId in Met(c, m).tasks && a.payload.model == a.model
            && a.inputCeiling + a.outputCeiling <= MAX_CEILING then Some(Blocked)
    else if Arrives(m, f) && m.ledger == Denied && Inv(c) && Askable(c, f, a) && !Readied(c, f, a) then
      Some(BudgetDenied)
    else None
  }

  predicate Readied(c: Core, f: Fence, a: Attempt) {
    KeyOf(f, a) in c.jobs && c.jobs[KeyOf(f, a)].status == Ready
  }

  lemma DeniedInTime(c: Core, f: Fence, a: Attempt, m: Move)
    requires Inv(c) && Arrives(m, f) && m.ledger == Denied && Askable(c, f, a)
    ensures !Readied(c, f, a) ==>
              OnEnsure(HeardOf(m, Ensure(Met(c, m), m.now, f, a, m.ledger).1)) == EnsureEnds(Threw(BudgetDenied))
  {
    MetKept(c, f, KeyOf(f, a), 0, 0, Exploded, m);
    assert RunKept(c, Met(c, m), f);
    if !Readied(c, f, a) { LedgerDecides(Met(c, m), m.now, f, a, m.ledger); }
  }

  /** The ensure request of a fresh attempt: its row waits to be dispatched. */
  lemma EnsuresInTime(c: Core, f: Fence, a: Attempt, m: Move)
    requires Inv(c) && Arrives(m, f) && m.ledger == Granted && Askable(c, f, a)
    ensures var (c', r) := Ensure(Met(c, m), m.now, f, a, m.ledger);
            var k := KeyOf(f, a);
            && k in c'.jobs && OnEnsure(HeardOf(m, r)) == GoClaim(k, c'.jobs[k].operation)
            && SameAttempt(c'.jobs[k], a)
            && Waits(c', f, k, c'.jobs[k].operation) && OnlyRowMoved(c, c', f, k)
  {
    MetKept(c, f, KeyOf(f, a), 0, 0, Exploded, m);
    assert RunKept(c, Met(c, m), f);
    EnsureReadies(Met(c, m), m.now, f, a);
    RowMovesOn(c, Met(c, m), Ensure(Met(c, m), m.now, f, a, m.ledger).0, f, KeyOf(f, a));
  }

  lemma MetKept(c: Core, f: Fence, k: JobKey, token: Token, now: int, p: ProviderReply, m: Move)
    requires Inv(c) && Open(c, f) && Leaves(m, f)
    ensures Inv(Met(c, m)) && OnlyRowMoved(c, Met(c, m), f, k)
    ensures Claimable(c, f, k, token, now) ==>
              Claimable(Met(c, m), f, k, token, now) && Met(c, m).jobs[k] == c.jobs[k]
    ensures Tellable(c, f, k, token, p) ==> Tellable(Met(c, m), f, k, token, p) && Met(c, m).jobs[k] == c.jobs[k]
  {
    MetEvolves(c, m);
    KeptIsClaimable(c, Met(c, m), f, k, token, now, p);
  }

  /** Of the run's rows only `k` has moved, and it is concluded by that reply. */
  ghost predicate After(c: Core, c': Core, f: Fence, k: JobKey, p: ProviderReply) {
    OnlyRowMoved(c, c', f, k) && k in c'.jobs && Concluded(c'.jobs[k], p)
  }

  /** From the grant to the conclusion. */
  lemma GrantLeadsOn(c1: Core, c2: Core, f: Fence, k: JobKey, token: Token, p: ProviderReply)
    requires Dispatched(c1, c2, f, k, token) && k.execution == f.attemptId
    ensures k in c1.jobs && Tellable(c2, f, k, token, p) && c2.jobs[k].route == c1.jobs[k].route
    ensures forall c3 :: After(c2, c3, f, k, p) ==> After(c1, c3, f, k, p)
  {
    forall c3 | After(c2, c3, f, k, p) ensures After(c1, c3, f, k, p) { RowMovesOn(c1, c2, c3, f, k); }
  }

  lemma ReadyLeadsOn(c0: Core, c1: Core, f: Fence, k: JobKey, p: ProviderReply)
    requires OnlyRowMoved(c0, c1, f, k)
    ensures forall c2 :: After(c1, c2, f, k, p) ==> After(c0, c2, f, k, p)
  {
    forall c2 | After(c1, c2, f, k, p) ensures After(c0, c2, f, k, p) { RowMovesOn(c0, c1, c2, f, k); }
  }

  /** A row that is ready now never had a token, and stays for good. */
  lemma ReadyIsNew(c0: Core, c1: Core, k: JobKey)
    requires Inv(c1) && Evolves(c0, c1) && k in c1.jobs && c1.jobs[k].status == Ready
    ensures k in c0.jobs ==> c0.jobs[k].token.None?
  {
    assert JobOk(c1, k);
    if k in c0.jobs { assert JobMay(c0.jobs[k], c1.jobs[k]); }
  }

  lemma RowStays(c: Core, c': Core, k: JobKey)
    requires Evolves(c, c') && k in c.jobs
    ensures k in c'.jobs && forall a :: SameAttempt(c.jobs[k], a) ==> SameAttempt(c'.jobs[k], a)
  {
  }

  /** The completion and, where its reply is missed, its repetition. */
  lemma TellsInTime(c: Core, f: Fence, k: JobKey, token: Token, p: ProviderReply, m: Move, again: Move)
    requires Inv(c) && ArrivesAtLast(m, again, f) && Tellable(c, f, k, token, p)
    ensures var done, end := CompletionFor(p), EndFor(c.jobs[k].route.kind, p);
            var (c1, r1) := Complete(Met(c, m), f.taskId, k, token, done);
            var d := if m.reached then c1 else Met(c, m);
            var (c2, r2) := Complete(Met(d, again), f.taskId, k, token, done);
            var h1, h2 := HeardOf(m, r1), HeardOf(again, r2);
            if OnComplete(h1, false, p).CompleteAgain? then
              OnComplete(h2, true, p) == CompleteEnds(end) && again.reached && After(c, c2, f, k, p)
            else
              OnComplete(h1, false, p) == CompleteEnds(end) && m.reached && After(c, c1, f, k, p)
  {
    hide Complete, Inv, Evolves, OnlyRowMoved, Concluded;
    MetKept(c, f, k, token, 0, p, m);
    var c0, done := Met(c, m), CompletionFor(p);
    if m.reached {
      CompleteSucceeds(c0, f, k, token, p, false);
      RowMovesOn(c, c0, Complete(c0, f.taskId, k, token, done).0, f, k);
    }
    if Missed(m) {
      var d := if m.reached then Complete(c0, f.taskId, k, token, done).0 else c0;
      MetKept(d, f, k, token, 0, p, again);
      CompleteSucceeds(Met(d, again), f, k, token, p, true);
      RowMovesOn(c, d, Met(d, again), f, k);
      RowMovesOn(c, Met(d, again), Complete(Met(d, again), f.taskId, k, token, done).0, f, k);
    }
  }

  lemma KeptIsClaimable(c: Core, c': Core, f: Fence, k: JobKey, token: Token, now: int, p: ProviderReply)
    requires RunKept(c, c', f)
    ensures OnlyRowMoved(c, c', f, k)
    ensures Claimable(c, f, k, token, now) ==> Claimable(c', f, k, token, now) && c'.jobs[k] == c.jobs[k]
    ensures Tellable(c, f, k, token, p) ==> Tellable(c', f, k, token, p) && c'.jobs[k] == c.jobs[k]
  {
  }

  lemma RowMovesOn(a: Core, b: Core, c: Core, f: Fence, k: JobKey)
    requires OnlyRowMoved(a, b, f, k) && OnlyRowMoved(b, c, f, k)
    ensures OnlyRowMoved(a, c, f, k)
  {
  }

  /** How many rounds reading the stored chain takes, from round `i` on. */
  function RoundsNeeded(c: Core, id: Id, key: string, models: seq<string>, i: nat): (n: nat)
    ensures n >= i && (i < |models| ==> i < n <= |models|)
    decreases |models| - i
  {
    if i >= |models| then i
    else
      var read := ReadAttempt(c, id, key, models, i);
      if read.Some? && !read.value.ok then RoundsNeeded(c, id, key, models, i + 1) else i + 1
  }

  /** Core as the ensure request of round `i` leaves it when nothing but replays happens. */
  function CoreAt(c: Core, world: World, i: nat): Core {
    if i == 0 then c else Met(CoreAt(c, world, i - 1), world(i - 1).ensure)
  }

  /** In the rounds a replay takes, the lease and the run hold, replies arrive, and the attempts are the stored ones. */
  predicate Undisturbed(c: Core, f: Fence, step: PlanStep, p: Prompt, world: World) {
    forall i :: 0 <= i < RoundsNeeded(c, f.attemptId, step.stepKey, step.models, 0) && i < |step.models| ==>
      UndisturbedRound(c, f, step, p, world, i)
  }

  predicate UndisturbedRound(c: Core, f: Fence, step: PlanStep, p: Prompt, world: World, i: nat)
    requires i < |step.models|
  {
    var k := AttemptKey(f.attemptId, step.stepKey, i);
    && world(i).leased && world(i).ensure.reached && world(i).ensure.delivered
    && Open(CoreAt(c, world, i + 1), f)
    && k in c.jobs && SameAttempt(c.jobs[k], AttemptOf(step, i, p))
  }

  lemma StoredStatus(c: Core, k: JobKey, result: StoredResult)
    requires Inv(c) && Stored(c, k, result)
    ensures c.jobs[k].status == if result.rejected then Rejected else Succeeded
  {
    assert JobOk(c, k);
  }

  /** What a round makes of the stored result of its attempt. */
  function StepOf(read: Option<ModelResult>): Step {
    if read.None? then Stop(Aborted(Blocked)) else if read.value.ok then Stop(Answer(read.value)) else Go(read.value)
  }

  /** Where a replay stands before round `i`: Core untouched by it, and the old answer still ahead. */
  predicate ReplayAt(c0: Core, c: Core, f: Fence, step: PlanStep, world: World, i: nat, last: Option<ModelResult>,
                     before: Option<ChatEnd>) {
    var id, key, models := f.attemptId, step.stepKey, step.models;
    && i <= |models| && c == CoreAt(c0, world, i)
    && ChainAnswer(c0, id, key, models, i, last) == before
    && RoundsNeeded(c0, id, key, models, i) == RoundsNeeded(c0, id, key, models, 0)
  }

  /** Before a replayed round the stored attempt is still what it was, and asking for it replays it. */
  lemma ReplayReads(c0: Core, c: Core, f: Fence, step: PlanStep, p: Prompt, world: World, i: nat)
    requires Inv(c0) && Evolves(c0, c) && i < |step.models| && UndisturbedRound(c0, f, step, p, world, i)
    requires c == CoreAt(c0, world, i)
    requires ReadAttempt(c0, f.attemptId, step.stepKey, step.models, i).Some?
             || (AttemptKey(f.attemptId, step.stepKey, i) in c0.jobs
                 && c0.jobs[AttemptKey(f.attemptId, step.stepKey, i)].result.Some?)
    ensures world(i).leased && Replays(c, f, AttemptOf(step, i, p), world(i).ensure)
    ensures ReadAttempt(c, f.attemptId, step.stepKey, step.models, i)
            == ReadAttempt(c0, f.attemptId, step.stepKey, step.models, i)
  {
    var k := AttemptKey(f.attemptId, step.stepKey, i);
    assert JobMay(c0.jobs[k], c.jobs[k]);
  }

  lemma ReplayRound(c0: Core, c: Core, f: Fence, step: PlanStep, p: Prompt, world: World, i: nat,
                    last: Option<ModelResult>, before: Option<ChatEnd>)
    requires Inv(c0) && Evolves(c0, c) && i < |step.models| && before.Some?
    requires ReplayAt(c0, c, f, step, world, i, last, before) && Undisturbed(c0, f, step, p, world)
    ensures world(i).leased && Replays(c, f, AttemptOf(step, i, p), world(i).ensure)
    ensures var read := ReadAttempt(c0, f.attemptId, step.stepKey, step.models, i);
            && ReadAttempt(c, f.attemptId, step.stepKey, step.models, i) == read
            && (StepOf(read).Stop? ==> before == Some(StepOf(read).end))
            && (StepOf(read).Go? ==> ReplayAt(c0, Met(c, world(i).ensure), f, step, world, i + 1, read, before))
  {
    assert UndisturbedRound(c0, f, step, p, world, i);
    hide Inv, Evolves, Replays, Undisturbed, UndisturbedRound, Met;
    ReplayReads(c0, c, f, step, p, world, i);
  }

  // ── A fresh chain ────────────────────────────────────────────────────────────

  /** What the caller reads of the reply in round `i`, once Core stored it. */
  function ReadReply(step: PlanStep, i: nat, turn: Turn): Option<ModelResult>
    requires i < |step.models|
  {
    var stored := Evidenced(step.route.kind, turn.provider);
    if stored.Some? then ChatResult(stored.value, step.models[i]) else None
  }

  /** What the providers' replies amount to from round `i` on; a lost lease ends the call before the model is asked. */
  function ProvidersSay(step: PlanStep, world: World, i: nat, last: Option<ModelResult>): ChatEnd
    decreases |step.models| - i
  {
    if i >= |step.models| then (if last.None? then Disabled else NoAnswer(last.value))
    else if !world(i).leased then Aborted(Unavailable)
    else
      var read := ReadReply(step, i, world(i));
      if read.None? then Aborted(Blocked)
      else if read.value.ok then Answer(read.value)
      else ProvidersSay(step, world, i + 1, read)
  }

  /** How many models are asked, from round `i` on. */
  function RoundsAsked(step: PlanStep, world: World, i: nat): (n: nat)
    ensures n >= i && (i < |step.models| ==> n <= |step.models|)
    ensures i < |step.models| && world(i).leased ==> i < n
    decreases |step.models| - i
  {
    if i >= |step.models| || !world(i).leased then i
    else
      var read := ReadReply(step, i, world(i));
      if read.Some? && !read.value.ok then RoundsAsked(step, world, i + 1) else i + 1
  }

  /** The requests of the first `n` rounds. */
  function Requests(f: Fence, step: PlanStep, p: Prompt, world: World, n: nat): seq<Wire>
    requires n <= |step.models|
  {
    seq(n, i requires 0 <= i < n => WireOf(f, step, p, world(i), i))
  }

  function WireOf(f: Fence, step: PlanStep, p: Prompt, turn: Turn, i: nat): Wire
    requires i < |step.models|
  {
    Wire(AttemptKey(f.attemptId, step.stepKey, i), turn.token, Payload(step.models[i], p.body))
  }

  /** From model `i` on nothing has been dispatched, and the plan and the ceilings allow every model. */
  predicate FreshFrom(c: Core, f: Fence, step: PlanStep, p: Prompt, i: nat) {
    && Open(c, f) && p.inputCeiling + p.outputCeiling <= MAX_CEILING && i <= |step.models|
    && (forall m :: i <= m < |step.models| ==> FreshModel(c, f, step, p, m))
    && (i > 0 ==> AttemptKey(f.attemptId, step.stepKey, i - 1) in c.jobs
                  && c.jobs[AttemptKey(f.attemptId, step.stepKey, i - 1)].status == Rejected)
  }

  predicate FreshModel(c: Core, f: Fence, step: PlanStep, p: Prompt, m: nat)
    requires m < |step.models| && f.attemptId in c.executions
  {
    var k := AttemptKey(f.attemptId, step.stepKey, m);
    && Planned(c.executions[f.attemptId].plan, step.stepKey, m + 1, step.route, step.models[m])
    && (k in c.jobs ==> (c.jobs[k].status == Ready || c.jobs[k].status == WaitingBudget)
                        && SameAttempt(c.jobs[k], AttemptOf(step, m, p)))
  }

  /** Every model that is asked gets its answer through. */
  ghost predicate Attended(f: Fence, step: PlanStep, world: World) {
    forall i :: 0 <= i < RoundsAsked(step, world, 0) && i < |step.models| ==> Served(world(i), f)
  }

  /** Where a fresh call stands before round `i`. */
  predicate FreshAt(c: Core, wires: seq<Wire>, w0: seq<Wire>, f: Fence, step: PlanStep, p: Prompt, world: World, i: nat,
                    last: Option<ModelResult>) {
    && FreshFrom(c, f, step, p, i)
    && ProvidersSay(step, world, i, last) == ProvidersSay(step, world, 0, None)
    && RoundsAsked(step, world, i) == RoundsAsked(step, world, 0)
    && wires == w0 + Requests(f, step, p, world, i)
  }

  /** Where a fresh call ends. */
  predicate FreshEnd(wires: seq<Wire>, w0: seq<Wire>, f: Fence, step: PlanStep, p: Prompt, world: World, r: ChatEnd) {
    && r == ProvidersSay(step, world, 0, None)
    && RoundsAsked(step, world, 0) <= |step.models|
    && wires == w0 + Requests(f, step, p, world, RoundsAsked(step, world, 0))
  }

  /** The row of model `i` holds the route, the model, the prompt and its ceilings. */
  predicate AskedWith(j: Job, step: PlanStep, i: nat, p: Prompt)
    requires i < |step.models|
  {
    && j.route == step.route && j.model == step.models[i]
    && j.operation.payload == Payload(step.models[i], p.body)
    && j.inputCeiling == p.inputCeiling && j.outputCeiling == p.outputCeiling
  }

  lemma FreshAsks(c: Core, f: Fence, step: PlanStep, p: Prompt, i: nat)
    requires FreshFrom(c, f, step, p, i) && i < |step.models|
    ensures Askable(c, f, AttemptOf(step, i, p))
  {
    assert FreshModel(c, f, step, p, i);
    if i > 0 {
      assert Previous(AttemptKey(f.attemptId, step.stepKey, i)) == AttemptKey(f.attemptId, step.stepKey, i - 1);
    }
  }

  /** A rejected attempt leaves the rest of the chain fresh. */
  lemma FreshGoesOn(c: Core, c': Core, f: Fence, step: PlanStep, p: Prompt, i: nat, turn: Turn)
    requires FreshFrom(c, f, step, p, i) && i < |step.models|
    requires After(c, c', f, AttemptKey(f.attemptId, step.stepKey, i), turn.provider)
    requires Inv(c) && Inv(c') && Evolves(c, c')
    requires c'.jobs[AttemptKey(f.attemptId, step.stepKey, i)].route == step.route
    requires ReadReply(step, i, turn).Some? && !ReadReply(step, i, turn).value.ok
    ensures FreshFrom(c', f, step, p, i + 1)
  {
    forall m | i < m < |step.models| ensures FreshModel(c', f, step, p, m) {
      assert FreshModel(c, f, step, p, m);
    }
  }

  lemma RequestsNext(f: Fence, step: PlanStep, p: Prompt, world: World, i: nat)
    requires i < |step.models|
    ensures Requests(f, step, p, world, i + 1) == Requests(f, step, p, world, i) + [WireOf(f, step, p, world(i), i)]
  {
  }

  lemma FreshRoundAsks(c: Core, wires: seq<Wire>, w0: seq<Wire>, f: Fence, step: PlanStep, p: Prompt, world: World,
                       i: nat, last: Option<ModelResult>)
    requires Attended(f, step, world) && i < |step.models| && FreshAt(c, wires, w0, f, step, p, world, i, last)
    ensures world(i).leased ==> Served(world(i), f)
    ensures !world(i).leased ==> FreshEnd(wires, w0, f, step, p, world, Aborted(Unavailable))
    ensures Askable(c, f, AttemptOf(step, i, p))
  {
    FreshAsks(c, f, step, p, i);
  }

  // ── What the replies amount to, in plain words ───────────────────────────────

  /** The provider answered with this text, and with nothing that Core would refuse. */
  predicate Says(p: ProviderReply, text: string) {
    p.Answered? && p.outcome == Success && p.result.text == Some(text) && TextWithin(text) && Plain(p.result)
  }

  /** The provider proved that it did not work. */
  predicate Refuses(p: ProviderReply) {
    && p.Answered? && p.outcome == Rejection && p.result.statusCode.Some? && ProvesRejection(p.result.statusCode.value)
    && ErrorWithin(ReasonOf(p.result)) && Plain(p.result)
  }

  function StatusOf(p: ProviderReply): Option<nat> {
    if p.Answered? then p.result.statusCode else None
  }

  /** The lease holds in the first `n` rounds, and their models refuse. */
  predicate RefusedBefore(step: PlanStep, world: World, n: nat) {
    n <= |step.models| && forall i :: 0 <= i < n ==> world(i).leased && Refuses(world(i).provider)
  }

  /** All models before the `n`-th refuse, and that one says `text`. */
  predicate SpeaksFirst(step: PlanStep, world: World, n: nat, text: string) {
    n < |step.models| && RefusedBefore(step, world, n) && world(n).leased && Says(world(n).provider, text)
  }

  /** The first model that does not refuse gives the answer; a lost lease aborts; if all refuse, the last one stands. */
  ghost predicate AnswersFirst(step: PlanStep, world: World, r: ChatEnd) {
    && (forall n: nat, text :: SpeaksFirst(step, world, n, text) ==>
          r.Answer? && r.last.ok && r.last.text == text && r.last.model == step.models[n])
    && (forall n: nat :: n < |step.models| && RefusedBefore(step, world, n) && !world(n).leased ==>
          r == Aborted(Unavailable))
    && (step.models != [] && RefusedBefore(step, world, |step.models|) ==>
          r.NoAnswer? && r.last.statusCode == StatusOf(world(|step.models| - 1).provider))
  }

  lemma SaysReads(step: PlanStep, i: nat, turn: Turn, text: string)
    requires i < |step.models| && step.route.kind == Chat && Says(turn.provider, text)
    ensures var read := ReadReply(step, i, turn);
            read.Some? && read.value.ok && read.value.text == text && read.value.model == step.models[i]
  {
    SuccessAccepted(turn.provider.result);
    ChatSurvivesCore(turn.provider.result, step.models[i]);
  }

  lemma RefusalReads(step: PlanStep, i: nat, turn: Turn)
    requires i < |step.models| && Refuses(turn.provider)
    ensures var read := ReadReply(step, i, turn);
            read.Some? && !read.value.ok && read.value.statusCode == StatusOf(turn.provider)
  {
    RejectionSurvivesCore(step.route.kind, turn.provider.result, step.models[i]);
  }

  lemma {:induction false} FirstSpeaks(step: PlanStep, world: World, i: nat, last: Option<ModelResult>, n: nat,
                                       text: string)
    requires i <= n && SpeaksFirst(step, world, n, text) && step.route.kind == Chat
    ensures var r := ProvidersSay(step, world, i, last);
            r.Answer? && r.last.ok && r.last.text == text && r.last.model == step.models[n]
    ensures RoundsAsked(step, world, i) == n + 1
    decreases n - i
  {
    hide Says, Refuses, ReadReply;
    if i == n {
      SaysReads(step, i, world(i), text);
    } else {
      RefusalReads(step, i, world(i));
      FirstSpeaks(step, world, i + 1, ReadReply(step, i, world(i)), n, text);
    }
  }

  lemma {:induction false} NobodySpeaks(step: PlanStep, world: World, i: nat, last: Option<ModelResult>, n: nat)
    requires i <= n && RefusedBefore(step, world, n)
    requires i > 0 ==> last == ReadReply(step, i - 1, world(i - 1))
    ensures var r := ProvidersSay(step, world, i, last);
            && (n < |step.models| && !world(n).leased ==> r == Aborted(Unavailable) && RoundsAsked(step, world, i) == n)
            && (n == |step.models| > 0 ==>
                  r.NoAnswer? && r.last.statusCode == StatusOf(world(n - 1).provider))
    decreases n - i
  {
    hide Refuses, ReadReply, StatusOf;
    if i < n {
      RefusalReads(step, i, world(i));
      NobodySpeaks(step, world, i + 1, ReadReply(step, i, world(i)), n);
    } else if i > 0 {
      RefusalReads(step, i - 1, world(i - 1));
    }
  }

  lemma FirstAnswers(step: PlanStep, world: World)
    requires step.route.kind == Chat
    ensures AnswersFirst(step, world, ProvidersSay(step, world, 0, None))
  {
    forall n: nat, text | SpeaksFirst(step, world, n, text)
      ensures var r := ProvidersSay(step, world, 0, None);
              r.Answer? && r.last.ok && r.last.text == text && r.last.model == step.models[n]
    {
      FirstSpeaks(step, world, 0, None, n, text);
    }
    forall n: nat | n < |step.models| && RefusedBefore(step, world, n) && !world(n).leased
      ensures ProvidersSay(step, world, 0, None) == Aborted(Unavailable)
    {
      NobodySpeaks(step, world, 0, None, n);
    }
    if RefusedBefore(step, world, |step.models|) { NobodySpeaks(step, world, 0, None, |step.models|); }
  }

  // ── The rounds of a fresh call ───────────────────────────────────────────────

  /** One round of a fresh call. */
  lemma FreshRound(c: Core, c': Core, wires: seq<Wire>, w0: seq<Wire>, f: Fence, step: PlanStep, p: Prompt,
                   world: World,
                   i: nat, last: Option<ModelResult>)
    requires Inv(c) && Inv(c') && Evolves(c, c') && i < |step.models|
    requires FreshAt(c, wires, w0, f, step, p, world, i, last) && world(i).leased
    requires After(c, c', f, AttemptKey(f.attemptId, step.stepKey, i), world(i).provider)
    requires c'.jobs[AttemptKey(f.attemptId, step.stepKey, i)].route == step.route
    ensures var r := StepOf(ReadReply(step, i, world(i)));
            var wires' := wires + [WireOf(f, step, p, world(i), i)];
            if r.Stop? then FreshEnd(wires', w0, f, step, p, world, r.end)
            else FreshAt(c', wires', w0, f, step, p, world, i + 1, Some(r.last))
  {
    RequestsNext(f, step, p, world, i);
    var read := ReadReply(step, i, world(i));
    if read.Some? && !read.value.ok { FreshGoesOn(c, c', f, step, p, i, world(i)); }
  }

  /**
   * Where a call began: Core, the logs, the answer of the stored chain, whether the world leaves a replay alone, and
   * whether the chain is fresh and attended to.
   */
  datatype Start = Start(core: Core, wires: seq<Wire>, asked: seq<JobKey>, before: Option<ChatEnd>, calm: bool,
                         anew: bool)

  ghost predicate StartOk(s: Start, f: Fence, step: PlanStep, p: Prompt, world: World) {
    && Inv(s.core) && s.before == ChainAnswer(s.core, f.attemptId, step.stepKey, step.models, 0, None)
    && (s.calm ==> s.before.Some? && Undisturbed(s.core, f, step, p, world))
    && (s.anew ==> FreshFrom(s.core, f, step, p, 0) && Attended(f, step, world))
  }

  class TaskLlmSession {
    const fence: Fence
    const plan: seq<PlanStep>
    var core: Core
    var wires: seq<Wire>
    var asked: seq<JobKey>

    constructor (fence: Fence, plan: seq<PlanStep>, core: Core)
      ensures this.fence == fence && this.plan == plan && this.core == core && wires == [] && asked == []
    {
      this.fence := fence;
      this.plan := plan;
      this.core := core;
      wires := [];
      asked := [];
    }

    method AskEnsure(a: Attempt, m: Move) returns (h: Heard<EnsureReply>)
      requires Inv(core)
      modifies this`core
      ensures Inv(core) && Evolves(old(core), core)
      ensures var (c, reply) := Ensure(Met(old(core), m), m.now, fence, a, m.ledger);
              core == (if m.reached then c else Met(old(core), m)) && h == HeardOf(m, reply)
      ensures h.Reply? && h.reply.Ok? ==>
                var r := h.reply.value;
                && r.key == KeyOf(fence, a) && r.operation.payload == a.payload
                && Shows(core, r.key, r.operation, r.status, r.result)
    {
      MetEvolves(core, m);
      core := Met(core, m);
      ghost var before := core;
      EnsureSafe(core, m.now, fence, a, m.ledger);
      var (c, reply) := Ensure(core, m.now, fence, a, m.ledger);
      if m.reached {
        core := c;
        EvolvesTransitive(old(core), before, core);
      }
      h := HeardOf(m, reply);
    }

    method AskClaim(k: JobKey, token: Token, m: Move) returns (h: Heard<ClaimReply>)
      requires Inv(core)
      modifies this`core
      ensures Inv(core) && Evolves(old(core), core)
      ensures var (c, reply) := Claim(Met(old(core), m), m.now, fence, k, token, m.reauthorised);
              core == (if m.reached then c else Met(old(core), m)) && h == HeardOf(m, reply)
      ensures h.Reply? && h.reply.Ok? ==>
                var r := h.reply.value;
                && Shows(core, k, r.operation, r.status, r.result)
                && (r.granted ==> core.jobs[k].token == Some(token) && r.payload == Some(r.operation.payload))
    {
      MetEvolves(core, m);
      core := Met(core, m);
      ghost var before := core;
      ClaimSafe(core, m.now, fence, k, token, m.reauthorised);
      var (c, reply) := Claim(core, m.now, fence, k, token, m.reauthorised);
      if m.reached {
        core := c;
        EvolvesTransitive(old(core), before, core);
      }
      h := HeardOf(m, reply);
    }

    method AskComplete(k: JobKey, token: Token, done: Completion, m: Move) returns (h: Heard<CompleteReply>)
      requires Inv(core)
      modifies this`core
      ensures Inv(core) && Evolves(old(core), core)
      ensures var (c, reply) := Complete(Met(old(core), m), fence.taskId, k, token, done);
              core == (if m.reached then c else Met(old(core), m)) && h == HeardOf(m, reply)
      ensures h.Reply? && h.reply.Ok? ==>
                k in core.jobs && Shows(core, k, core.jobs[k].operation, h.reply.value.status, h.reply.value.result)
    {
      MetEvolves(core, m);
      core := Met(core, m);
      ghost var before := core;
      CompleteSafe(core, fence.taskId, k, token, done);
      var (c, reply) := Complete(core, fence.taskId, k, token, done);
      if m.reached {
        core := c;
        EvolvesTransitive(old(core), before, core);
      }
      h := HeardOf(m, reply);
    }

    /** `claimWithRecovery`: at most one verbatim repetition, then a definite decision. */
    method ClaimWithRecovery(k: JobKey, token: Token, operation: Operation, m: Move, again: Move)
      returns (after: AfterClaim)
      requires Inv(core)
      modifies this`core
      ensures Inv(core) && Evolves(old(core), core) && !after.ClaimAgain?
      ensures after.GoDispatch? ==>
                k in core.jobs && core.jobs[k].token == Some(token) && after.payload == operation.payload
      ensures after.ClaimEnds? && after.end.Returned? ==> Stored(core, k, after.end.result)
      ensures Admitted(m, again, fence) && Waits(old(core), fence, k, operation) ==>
                && after == GoDispatch(operation.payload) && Dispatched(old(core), core, fence, k, token)
      // A definite refusal is not asked again, and silence twice is the end.
      ensures Declined(m) ==> after == ClaimEnds(Threw(Blocked)) && core == Met(old(core), m)
      ensures Missed(m) && Missed(again) ==> after == ClaimEnds(Threw(Blocked))
    {
      hide Claim, Inv, Evolves, Admitted, Waits, Dispatched;
      if Admitted(m, again, fence) && Waits(core, fence, k, operation) {
        ClaimsInTime(core, fence, k, token, operation, m, again);
      }
      var h := AskClaim(k, token, m);
      after := OnClaim(h, false, operation);
      if after.ClaimAgain? {
        ghost var before := core;
        h := AskClaim(k, token, again);
        EvolvesTransitive(old(core), before, core);
        after := OnClaim(h, true, operation);
      }
    }

    /** `completeWithRecovery`. */
    method CompleteWithRecovery(k: JobKey, token: Token, p: ProviderReply, m: Move, again: Move)
      returns (end: AttemptEnd)
      requires Inv(core)
      modifies this`core
      ensures Inv(core) && Evolves(old(core), core)
      ensures end.Returned? ==> Stored(core, k, end.result)
      // Once the reply is told, the caller gets what Core stored of it, and is blocked when that is nothing.
      ensures ArrivesAtLast(m, again, fence) && Tellable(old(core), fence, k, token, p) ==>
                end == EndFor(old(core).jobs[k].route.kind, p) && After(old(core), core, fence, k, p)
      ensures Declined(m) ==> end == Threw(Blocked) && core == Met(old(core), m)
      ensures Missed(m) && Missed(again) ==> end == Threw(Blocked)
    {
      hide Complete, Inv, Evolves, ArrivesAtLast, Tellable, After;
      if ArrivesAtLast(m, again, fence) && Tellable(core, fence, k, token, p) {
        TellsInTime(core, fence, k, token, p, m, again);
      }
      var h := AskComplete(k, token, CompletionFor(p), m);
      var after := OnComplete(h, false, p);
      if after.CompleteAgain? {
        ghost var before := core;
        h := AskComplete(k, token, CompletionFor(p), again);
        EvolvesTransitive(old(core), before, core);
        after := OnComplete(h, true, p);
      }
      end := after.end;
    }

    /**
     * The first half of `runAttempt`: a stored attempt ends here, and only a job that is ready goes on to the claim.
     */
    method Begin(a: Attempt, m: Move) returns (start: AfterEnsure)
      requires Inv(core)
      modifies this`core
      ensures Inv(core) && Evolves(old(core), core)
      ensures start.EnsureEnds? && start.end.Returned? ==> Stored(core, KeyOf(fence, a), start.end.result)
      ensures start.GoClaim? ==>
                && start.key == KeyOf(fence, a) && start.operation.payload == a.payload
                && start.key in core.jobs && core.jobs[start.key].status == Ready
      ensures Replays(old(core), fence, a, m) ==>
                && start == EnsureEnds(Returned(old(core).jobs[KeyOf(fence, a)].result.value))
                && core == Met(old(core), m)
      ensures Arrives(m, fence) && m.ledger == Granted && Askable(old(core), fence, a) ==>
                && start.GoClaim? && Waits(core, fence, KeyOf(fence, a), start.operation)
                && SameAttempt(core.jobs[KeyOf(fence, a)], a) && OnlyRowMoved(old(core), core, fence, KeyOf(fence, a))
      ensures Shut(old(core), fence, a, m).Some? ==>
                start == EnsureEnds(Threw(Shut(old(core), fence, a, m).value))
    {
      if Replays(core, fence, a, m) { AttemptReplays(core, fence, a, m); }
      if Arrives(m, fence) && m.ledger == Denied && Askable(core, fence, a) { DeniedInTime(core, fence, a, m); }
      if Arrives(m, fence) && m.ledger == Granted && Askable(core, fence, a) { EnsuresInTime(core, fence, a, m); }
      var h := AskEnsure(a, m);
      start := OnEnsure(h);
    }

    /**
     * `runAttempt`: a result only if Core durably holds it; at most one wire request, with the payload asked
     * for, and none for a job that already had its grant; a stored attempt is replayed and nothing else happens.
     */
    method RunAttempt(a: Attempt, turn: Turn) returns (end: AttemptEnd)
      requires Inv(core)
      modifies this`core, this`wires
      ensures Inv(core) && Evolves(old(core), core)
      ensures end.Returned? ==> Stored(core, KeyOf(fence, a), end.result)
      ensures wires == old(wires) || wires == old(wires) + [Wire(KeyOf(fence, a), turn.token, a.payload)]
      ensures wires != old(wires) ==>
                && KeyOf(fence, a) in core.jobs
                && (KeyOf(fence, a) in old(core).jobs ==> old(core).jobs[KeyOf(fence, a)].token.None?)
      ensures Replays(old(core), fence, a, turn.ensure) ==>
                && end == Returned(old(core).jobs[KeyOf(fence, a)].result.value)
                && core == Met(old(core), turn.ensure) && wires == old(wires)
      // An attempt that is not let in says why; a fresh one that is let through sends its one request and ends with
      // what Core stored of the reply.
      ensures Shut(old(core), fence, a, turn.ensure).Some? ==>
                end == Threw(Shut(old(core), fence, a, turn.ensure).value) && wires == old(wires)
      ensures Served(turn, fence) && Askable(old(core), fence, a) ==>
                && end == EndFor(a.route.kind, turn.provider)
                && wires == old(wires) + [Wire(KeyOf(fence, a), turn.token, a.payload)]
                && After(old(core), core, fence, KeyOf(fence, a), turn.provider)
                && SameAttempt(core.jobs[KeyOf(fence, a)], a)
    {
      ghost var key := KeyOf(fence, a);
      assert Served(turn, fence) ==>
               && Arrives(turn.ensure, fence) && turn.ensure.ledger == Granted
               && Admitted(turn.claim, turn.claimAgain, fence)
                  && ArrivesAtLast(turn.complete, turn.completeAgain, fence);
      hide *;
      var start := Begin(a, turn.ensure);
      if OnlyRowMoved(old(core), core, fence, key) {
        ReadyLeadsOn(old(core), core, fence, key, turn.provider);
      }
      if start.EnsureEnds? { return start.end; }
      end := Dispatch(a, turn, start.key, start.operation, old(core));
    }

    /** The second half of `runAttempt`: the claim, the one wire request, the completion. */
    method Dispatch(a: Attempt, turn: Turn, key: JobKey, operation: Operation, ghost c0: Core) returns (end: AttemptEnd)
      requires Inv(core) && Evolves(c0, core) && key == KeyOf(fence, a) && operation.payload == a.payload
      requires key in core.jobs && core.jobs[key].status == Ready
      modifies this`core, this`wires
      ensures Inv(core) && Evolves(c0, core)
      ensures end.Returned? ==> Stored(core, key, end.result)
      ensures wires == old(wires) || wires == old(wires) + [Wire(key, turn.token, a.payload)]
      ensures key in core.jobs && (SameAttempt(old(core).jobs[key], a) ==> SameAttempt(core.jobs[key], a))
      ensures wires != old(wires) ==> key in c0.jobs ==> c0.jobs[key].token.None?
      ensures Admitted(turn.claim, turn.claimAgain, fence) && ArrivesAtLast(turn.complete, turn.completeAgain, fence)
              && Waits(old(core), fence, key, operation) ==>
                && end == EndFor(old(core).jobs[key].route.kind, turn.provider)
                && wires == old(wires) + [Wire(key, turn.token, a.payload)]
                && After(old(core), core, fence, key, turn.provider)
    {
      assert key.execution == fence.attemptId;
      hide *;
      ghost var c1 := core;
      ReadyIsNew(c0, c1, key);
      var after := ClaimWithRecovery(key, turn.token, operation, turn.claim, turn.claimAgain);
      ghost var c2 := core;
      EvolvesTransitive(c0, c1, c2);
      RowStays(c1, c2, key);
      if after.ClaimEnds? { return after.end; }
      if Dispatched(c1, c2, fence, key, turn.token) && key.execution == fence.attemptId {
        GrantLeadsOn(c1, c2, fence, key, turn.token, turn.provider);
      }
      wires := wires + [Wire(key, turn.token, after.payload)];
      end := CompleteWithRecovery(key, turn.token, turn.provider, turn.complete, turn.completeAgain);
      EvolvesTransitive(c0, c2, core);
      RowStays(c2, core, key);
    }

    /** One round of the chain: the lease check, the planned attempt, and what its stored result reads as. */
    method TryModel(step: PlanStep, g: Gateway, i: nat, p: Prompt, turn: Turn) returns (r: Step)
      requires Inv(core) && i < |step.models|
      modifies this
      ensures Inv(core) && Evolves(old(core), core)
      ensures Round(old(core), core, old(wires), wires, old(asked), asked, fence.attemptId, step, i, r)
      ensures turn.leased && RouteMatches(step, g) && Replays(old(core), fence, AttemptOf(step, i, p), turn.ensure) ==>
                && core == Met(old(core), turn.ensure)
                && r == StepOf(ReadAttempt(old(core), fence.attemptId, step.stepKey, step.models, i))
      ensures !turn.leased ==>
                r == Stop(Aborted(Unavailable)) && core == old(core) && wires == old(wires) && asked == old(asked)
      ensures turn.leased && RouteMatches(step, g) && Served(turn, fence)
              && Askable(old(core), fence, AttemptOf(step, i, p)) ==>
                && r == StepOf(ReadReply(step, i, turn)) && wires == old(wires) + [WireOf(fence, step, p, turn, i)]
                && After(old(core), core, fence, AttemptKey(fence.attemptId, step.stepKey, i), turn.provider)
                && AskedWith(core.jobs[AttemptKey(fence.attemptId, step.stepKey, i)], step, i, p)
    {
      hide Inv, Evolves, Served, Askable, After;
      EvolvesReflexive(core);
      if !turn.leased { return Stop(Aborted(Unavailable)); }
      if !RouteMatches(step, g) { return Stop(Aborted(WorkflowChanged)); }
      asked := asked + [AttemptKey(fence.attemptId, step.stepKey, i)];
      var end := RunAttempt(AttemptOf(step, i, p), turn);
      if end.Threw? { return Stop(Aborted(end.failure)); }
      StoredStatus(core, AttemptKey(fence.attemptId, step.stepKey, i), end.result);
      return StepOf(ChatResult(end.result, step.models[i]));
    }

    /**
     * `callModel` with a task session. Whatever it returns without failing is what the stored chain answers;
     * a chain that already had an answer sends nothing and, undisturbed, returns that answer, whatever models
     * are configured now; attempt n+1 is asked for only after durable rejections of 1..n.
     */
    method CallModel(feature: string, g: Gateway, configured: seq<string>, p: Prompt, world: World, direct: Direct)
      returns (r: ChatEnd)
      requires Inv(core)
      modifies this
      ensures Inv(core) && Evolves(old(core), core)
      ensures old(wires) <= wires && old(asked) <= asked
      ensures AskedInOrder(core, asked, |old(asked)|) && OnlyLastOpen(core, wires, |old(wires)|)
      ensures var planned := PlannedStep(plan, Chat, feature);
              if planned.None? then
                && wires == old(wires) && asked == old(asked)
                && (configured == [] ==> r == Disabled)
                && (configured != [] && g.billing == Metered ==> r == Aborted(WorkflowChanged))
                && (configured != [] && g.billing != Metered ==> DirectRun(configured, direct, r))
              else if g.billing != Metered || !RouteMatches(planned.value, g) then
                r == Aborted(WorkflowChanged) && wires == old(wires) && asked == old(asked)
              else
                && ChainRun(old(core), core, old(wires), wires, old(asked), asked, fence.attemptId, planned.value, r)
                && (var before := ChainAnswer(old(core), fence.attemptId, feature, planned.value.models, 0, None);
                    before.Some? && Undisturbed(old(core), fence, planned.value, p, world) ==> Some(r) == before)
                && (FreshFrom(old(core), fence, planned.value, p, 0) && Attended(fence, planned.value, world) ==>
                      && FreshEnd(wires, old(wires), fence, planned.value, p, world, r)
                      && AnswersFirst(planned.value, world, r))
    {
      EvolvesReflexive(core);
      var chain := ModelsForChat(plan, feature, g, configured);
      if chain.Changed? { return Aborted(WorkflowChanged); }
      if PlannedStep(plan, Chat, feature).Some? { PlannedKey(plan, Chat, feature); }
      if chain.models == [] { return Disabled; }
      if g.billing != Metered {
        r := CallDirect(chain.models, direct);
        return;
      }
      var step := PlannedStep(plan, Chat, feature).value;
      r := RunChain(step, g, p, world);
      FirstAnswers(step, world);
    }

    /** The chain over a local or subscription gateway: no Core job, every failure moves on to the next model. */
    method CallDirect(models: seq<string>, direct: Direct) returns (r: ChatEnd)
      requires models != []
      ensures DirectRun(models, direct, r)
    {
      var last := ModelResult("", models[0], false, None, None, None, None, None, None);
      for i := 0 to |models|
        invariant forall m :: 0 <= m < i ==> direct(m).leased && !Spoken(direct(m))
        invariant i > 0 ==> last == Given(models, direct, i - 1)
      {
        var turn := direct(i);
        if !turn.leased { return Aborted(Unavailable); }
        last := if turn.answer.None? then ModelResult("", models[i], false, None, None, None, None, None, None)
                else turn.answer.value;
        if last.ok { return Answer(last); }
      }
      return NoAnswer(last);
    }

    /** The state before round `i` of a call that began at `s`. */
    ghost predicate Chained(s: Start, step: PlanStep, p: Prompt, world: World, i: nat, last: Option<ModelResult>)
      reads this
    {
      && Inv(core) && Evolves(s.core, core)
      && Progress(core, wires, asked, s.wires, s.asked, fence.attemptId, step, i, last, s.before)
      && (s.calm ==> ReplayAt(s.core, core, fence, step, world, i, last, s.before))
      && (s.anew ==> FreshAt(core, wires, s.wires, fence, step, p, world, i, last))
    }

    /** The state at the end of a call that began at `s`. */
    ghost predicate Finished(s: Start, step: PlanStep, p: Prompt, world: World, r: ChatEnd)
      reads this
    {
      && Inv(core) && Evolves(s.core, core)
      && ChainRun(s.core, core, s.wires, wires, s.asked, asked, fence.attemptId, step, r)
      && (s.calm ==> s.before == Some(r))
      && (s.anew ==> FreshEnd(wires, s.wires, fence, step, p, world, r))
    }

    /** One round seen from the start of the call: it either ends the call or leaves one more rejection behind. */
    method NextModel(step: PlanStep, g: Gateway, i: nat, ghost last: Option<ModelResult>, p: Prompt, world: World,
                     ghost start: Start) returns (r: Step)
      requires i < |step.models| && RouteMatches(step, g)
      requires StartOk(start, fence, step, p, world) && Chained(start, step, p, world, i, last)
      modifies this
      ensures if r.Stop? then Finished(start, step, p, world, r.end)
              else Chained(start, step, p, world, i + 1, Some(r.last))
    {
      ghost var Start(c0, w0, a0, before, calm, anew) := start;
      if calm { ReplayRound(c0, core, fence, step, p, world, i, last, before); }
      if anew { FreshRoundAsks(core, wires, w0, fence, step, p, world, i, last); }
      r := TryModel(step, g, i, p, world(i));
      RoundKeeps(c0, old(core), core, old(wires), wires, old(asked), asked, w0, a0, fence.attemptId, step, i, last,
                 before, r);
      if anew && world(i).leased { FreshRound(old(core), core, old(wires), w0, fence, step, p, world, i, last); }
    }

    method RunChain(step: PlanStep, g: Gateway, p: Prompt, world: World) returns (r: ChatEnd)
      requires Inv(core) && step.models != [] && RouteMatches(step, g)
      modifies this
      ensures Inv(core) && Evolves(old(core), core)
      ensures ChainRun(old(core), core, old(wires), wires, old(asked), asked, fence.attemptId, step, r)
      ensures var before := ChainAnswer(old(core), fence.attemptId, step.stepKey, step.models, 0, None);
              before.Some? && Undisturbed(old(core), fence, step, p, world) ==> Some(r) == before
      ensures FreshFrom(old(core), fence, step, p, 0) && Attended(fence, step, world) ==>
                FreshEnd(wires, old(wires), fence, step, p, world, r)
    {
      EvolvesReflexive(core);
      ghost var before := ChainAnswer(core, fence.attemptId, step.stepKey, step.models, 0, None);
      ghost var start := Start(core, wires, asked, before, before.Some? && Undisturbed(core, fence, step, p, world),
                               FreshFrom(core, fence, step, p, 0) && Attended(fence, step, world));
      r := RunRounds(step, g, p, world, start);
    }

    /** The loop over the models of the chain; what it keeps needs no definitions. */
    method RunRounds(step: PlanStep, g: Gateway, p: Prompt, world: World, ghost start: Start) returns (r: ChatEnd)
      requires step.models != [] && RouteMatches(step, g)
      requires StartOk(start, fence, step, p, world) && Chained(start, step, p, world, 0, None)
      modifies this
      ensures Finished(start, step, p, world, r)
    {
      hide *;
      var last: Option<ModelResult> := None;
      var i := 0;
      while i < |step.models|
        invariant 0 <= i <= |step.models| && Chained(start, step, p, world, i, last)
      {
        var next := NextModel(step, g, i, last, p, world, start);
        if next.Stop? { return next.end; }
        last := Some(next.last);
        i := i + 1;
      }
      AllRefused(step, p, world, start, last);
      return NoAnswer(last.value);
    }

    lemma AllRefused(step: PlanStep, p: Prompt, world: World, start: Start, last: Option<ModelResult>)
      requires step.models != [] && StartOk(start, fence, step, p, world)
      requires Chained(start, step, p, world, |step.models|, last)
      ensures last.Some? && Finished(start, step, p, world, NoAnswer(last.value))
    {
      ChainDone(start.core, core, wires, asked, start.wires, start.asked, fence.attemptId, step, last);
    }
  }

  lemma {:induction false} PlannedKey(plan: seq<PlanStep>, kind: JobKind, feature: string)
    requires PlannedStep(plan, kind, feature).Some?
    ensures PlannedStep(plan, kind, feature).value.stepKey == feature
    ensures PlannedStep(plan, kind, feature).value.route.kind == kind
  {
    if !(plan[0].stepKey == feature && plan[0].route.kind == kind && plan[0].route.feature == feature) {
      PlannedKey(plan[1..], kind, feature);
    }
  }
}
