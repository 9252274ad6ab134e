/**
 * The durable dispatch protocol as a transition system: Core, any number of workers each inside one
 * `runAttempt`, and a network that may lose, delay, reorder and repeat every message. A schedule is any
 * sequence of events; an event that is not possible in a state leaves the state as it is.
 */
module DispatchSystem {
  import opened Common
  import opened LlmResult
  import opened CoreStore
  import opened Session

  datatype Pc =
    | Idle
    | AwaitEnsure
    | AwaitClaim(key: JobKey, operation: Operation, token: Token, retried: bool)
    | MayDispatch(key: JobKey, token: Token, payload: Payload)
    | OnWire(key: JobKey, token: Token)
    | AwaitComplete(key: JobKey, token: Token, retried: bool)
    | Finished(end: AttemptEnd)
    | Crashed

  datatype Worker = Worker(fence: Fence, attempt: Attempt, pc: Pc)

  datatype Request =
    | EnsureRequest(fence: Fence, attempt: Attempt)
    | ClaimRequest(fence: Fence, key: JobKey, token: Token)
    | CompleteRequest(taskId: Id, key: JobKey, token: Token, done: Completion)

  datatype Response =
    | EnsureResponse(ensured: Reply<EnsureReply>)
    | ClaimResponse(claimed: Reply<ClaimReply>)
    | CompleteResponse(completed: Reply<CompleteReply>)

  datatype Exchange = Exchange(request: Request, response: Response)

  /** One request that left for the provider. */
  datatype Wire = Wire(key: JobKey, token: Token, payload: Payload)

  /** `tokens` remembers for which job each token was drawn; `replies` what the provider said to its wire. */
  datatype System = System(core: Core, workers: map<nat, Worker>, tokens: map<Token, JobKey>,
                           requests: set<Request>, exchanges: set<Exchange>,
                           wires: seq<Wire>, replies: map<Token, ProviderReply>)

  datatype Event =
    | Begin(w: nat, fence: Fence, attempt: Attempt)
    | Handle(request: Request, now: int, ledger: Ledger, reauthorised: bool)
    | Fault(request: Request, status: nat)
    | Hear(w: nat, response: Response, drawn: Token)
    | Miss(w: nat)
    | TakeWire(w: nat)
    | Provider(w: nat, reply: ProviderReply)
    | Crash(w: nat)
    | Elsewhere(change: CoreChange)

  /** Core transactions that other actors cause: takeover, start, checkpoint, commit, release, the owner. */
  datatype CoreChange =
    | TakeOver(taskId: Id, agent: string, freshRun: Id, freshAttempt: Id)
    | StartRun(fence: Fence, inputHash: nat, skill: string, version: nat, plan: seq<PlanStep>)
    | CheckpointRun(fence: Fence, skill: string, checkpoint: Checkpoint)
    | CommitRun(fence: Fence, outcome: CommitOutcome, capReached: bool)
    | ReleaseRun(fence: Fence, outcomeUnknown: bool, blocked: Option<BlockReason>, dropAttempt: bool)
    | Retry(now: int, taskId: Id)
    | Edit(taskId: Id, task: Task)

  function Changed(c: Core, change: CoreChange): Core {
    match change
    case TakeOver(t, a, r, x) => ClaimTask(c, t, a, r, x)
    case StartRun(f, h, s, v, p) => Start(c, f, h, s, v, p).0
    case CheckpointRun(f, s, cp) => SaveCheckpoint(c, f, s, cp).0
    case CommitRun(f, o, cap) => Commit(c, f, o, cap).0
    case ReleaseRun(f, u, b, d) => Release(c, f, u, b, d)
    case Retry(now, t) => OwnerRetry(c, now, t)
    case Edit(t, row) => EditTask(c, t, row)
  }

  const Initial := System(Core(map[], map[], map[]), map[], map[], {}, {}, [], map[])

  function Move(s: System, w: nat, pc: Pc): System
    requires w in s.workers
  {
    s.(workers := s.workers[w := s.workers[w].(pc := pc)])
  }

  /** The request a waiting worker has outstanding. */
  function Outstanding(s: System, w: Worker): Option<Request> {
    match w.pc
    case AwaitEnsure => Some(EnsureRequest(w.fence, w.attempt))
    case AwaitClaim(key, _, token, _) => Some(ClaimRequest(w.fence, key, token))
    case AwaitComplete(key, token, _) =>
      if token in s.replies then Some(CompleteRequest(w.fence.taskId, key, token, CompletionFor(s.replies[token])))
      else None
    case _ => None
  }

  function Answer(s: System, r: Request, core: Core, response: Response): System {
    s.(core := core, exchanges := s.exchanges + {Exchange(r, response)})
  }

  function Handled(s: System, r: Request, now: int, ledger: Ledger, reauthorised: bool): System {
    match r
    case EnsureRequest(f, a) =>
      var (c, reply) := Ensure(s.core, now, f, a, ledger);
      Answer(s, r, c, EnsureResponse(reply))
    case ClaimRequest(f, k, t) =>
      var (c, reply) := Claim(s.core, now, f, k, t, reauthorised);
      Answer(s, r, c, ClaimResponse(reply))
    case CompleteRequest(task, k, t, done) =>
      var (c, reply) := Complete(s.core, task, k, t, done);
      Answer(s, r, c, CompleteResponse(reply))
  }

  function Refusal(r: Request, status: nat): Response {
    match r
    case EnsureRequest(_, _) => EnsureResponse(Refused(status))
    case ClaimRequest(_, _, _) => ClaimResponse(Refused(status))
    case CompleteRequest(_, _, _, _) => CompleteResponse(Refused(status))
  }

  /** The worker goes on after what it heard; a new claim needs a token nobody has drawn before. */
  function OnHeard(s: System, w: nat, response: Option<Response>, drawn: Token): System
    requires w in s.workers
  {
    var worker := s.workers[w];
    match worker.pc
    case AwaitEnsure =>
      if response.Some? && !response.value.EnsureResponse? then s
      else (
        match OnEnsure(if response.None? then Lost else Reply(response.value.ensured))
        case EnsureEnds(end) => Move(s, w, Finished(end))
        case GoClaim(key, operation) =>
          if drawn in s.tokens then s
          else Move(s, w, AwaitClaim(key, operation, drawn, false))
               .(tokens := s.tokens[drawn := key], requests := s.requests + {ClaimRequest(worker.fence, key, drawn)})
      )
    case AwaitClaim(key, operation, token, retried) =>
      if response.Some? && !response.value.ClaimResponse? then s
      else (
        match OnClaim(if response.None? then Lost else Reply(response.value.claimed), retried, operation)
        case ClaimAgain => Move(s, w, AwaitClaim(key, operation, token, true))
        case ClaimEnds(end) => Move(s, w, Finished(end))
        case GoDispatch(payload) => Move(s, w, MayDispatch(key, token, payload))
      )
    case AwaitComplete(key, token, retried) =>
      if token !in s.replies || (response.Some? && !response.value.CompleteResponse?) then s
      else (
        match OnComplete(if response.None? then Lost else Reply(response.value.completed), retried, s.replies[token])
        case CompleteAgain => Move(s, w, AwaitComplete(key, token, true))
        case CompleteEnds(end) => Move(s, w, Finished(end))
      )
    case _ => s
  }

  function Next(s: System, e: Event): System {
    match e
    case Begin(w, fence, attempt) =>
      if w in s.workers && !(s.workers[w].pc.Idle? || s.workers[w].pc.Finished?) then s
      else s.(workers := s.workers[w := Worker(fence, attempt, AwaitEnsure)],
              requests := s.requests + {EnsureRequest(fence, attempt)})
    case Handle(r, now, ledger, reauthorised) =>
      if r in s.requests then Handled(s, r, now, ledger, reauthorised) else s
    case Fault(r, status) =>
      if r in s.requests then Answer(s, r, s.core, Refusal(r, status)) else s
    case Hear(w, response, drawn) =>
      if w in s.workers && Outstanding(s, s.workers[w]).Some?
         && Exchange(Outstanding(s, s.workers[w]).value, response) in s.exchanges
      then OnHeard(s, w, Some(response), drawn) else s
    case Miss(w) =>
      if w in s.workers then OnHeard(s, w, None, 0) else s
    case TakeWire(w) =>
      if w in s.workers && s.workers[w].pc.MayDispatch? then
        var pc := s.workers[w].pc;
        Move(s, w, OnWire(pc.key, pc.token)).(wires := s.wires + [Wire(pc.key, pc.token, pc.payload)])
      else s
    case Provider(w, reply) =>
      if w in s.workers && s.workers[w].pc.OnWire? then
        var pc := s.workers[w].pc;
        Move(s, w, AwaitComplete(pc.key, pc.token, false))
        .(replies := s.replies[pc.token := reply],
          requests := s.requests + {CompleteRequest(s.workers[w].fence.taskId, pc.key, pc.token, CompletionFor(reply))})
      else s
    case Crash(w) =>
      if w in s.workers then Move(s, w, Crashed) else s
    case Elsewhere(change) => s.(core := Changed(s.core, change))
  }

  /** The state after a whole schedule. */
  function Run(s: System, schedule: seq<Event>): System
    decreases |schedule|
  {
    if schedule == [] then s else Run(Next(s, schedule[0]), schedule[1..])
  }

  // ── Invariant ────────────────────────────────────────────────────────────────

  predicate Wired(wires: seq<Wire>, t: Token) {
    exists i :: 0 <= i < |wires| && wires[i].token == t
  }

  predicate HasToken(pc: Pc) {
    pc.AwaitClaim? || pc.MayDispatch? || pc.OnWire? || pc.AwaitComplete?
  }

  /** A job row holds this token, for the operation with this payload. */
  predicate Holds(c: Core, k: JobKey, t: Token, p: Payload) {
    k in c.jobs && c.jobs[k].token == Some(t) && c.jobs[k].operation.payload == p
  }

  function KeyOf(f: Fence, a: Attempt): JobKey {
    JobKey(f.attemptId, a.stepKey, a.attemptNo)
  }

  /** Core durably holds this result for the job. */
  predicate Stored(c: Core, k: JobKey, result: StoredResult) {
    k in c.jobs && c.jobs[k].result == Some(result)
  }

  /**
   * A worker's token was drawn for its own attempt's job and left for the provider exactly from `OnWire` on;
   * what it may send is what it asked for, and what it returned is what Core durably holds.
   */
  predicate WorkerOk(c: Core, tokens: map<Token, JobKey>, wires: seq<Wire>, replies: map<Token, ProviderReply>,
                     w: Worker) {
    && (w.pc.Finished? && w.pc.end.Returned? ==> Stored(c, KeyOf(w.fence, w.attempt), w.pc.end.result))
    && (HasToken(w.pc) ==>
          && w.pc.key == KeyOf(w.fence, w.attempt)
          && w.pc.token in tokens && tokens[w.pc.token] == w.pc.key
          && (w.pc.AwaitClaim? ==> !Wired(wires, w.pc.token) && w.pc.key in c.jobs
                                   && w.pc.operation == c.jobs[w.pc.key].operation
                                      && w.pc.operation.payload == w.attempt.payload)
          && (w.pc.MayDispatch? ==> !Wired(wires, w.pc.token) && w.pc.payload == w.attempt.payload
                                    && Holds(c, w.pc.key, w.pc.token, w.pc.payload))
          && (w.pc.OnWire? ==> Wired(wires, w.pc.token) && w.pc.token !in replies)
          && (w.pc.AwaitComplete? ==> Wired(wires, w.pc.token) && w.pc.token in replies))
  }

  predicate WorkersOk(c: Core, tokens: map<Token, JobKey>, wires: seq<Wire>, replies: map<Token, ProviderReply>,
                      workers: map<nat, Worker>) {
    forall w :: w in workers ==> WorkerOk(c, tokens, wires, replies, workers[w])
  }

  predicate OwnTokens(workers: map<nat, Worker>) {
    forall v, w :: v in workers && w in workers && v != w && HasToken(workers[v].pc) && HasToken(workers[w].pc) ==>
      workers[v].pc.token != workers[w].pc.token
  }

  predicate RequestOk(tokens: map<Token, JobKey>, replies: map<Token, ProviderReply>, r: Request) {
    && (r.ClaimRequest? ==> r.token in tokens && tokens[r.token] == r.key)
    && (r.CompleteRequest? ==> r.token in replies && r.done == CompletionFor(replies[r.token]))
  }

  predicate RequestsOk(tokens: map<Token, JobKey>, replies: map<Token, ProviderReply>, requests: set<Request>) {
    forall r :: r in requests ==> RequestOk(tokens, replies, r)
  }

  predicate Reported(c: Core, k: JobKey, status: JobStatus, result: Option<StoredResult>) {
    (status == Succeeded || status == Rejected) && result.Some? ==> Stored(c, k, result.value)
  }

  /** A reply that was true when Core gave it and never becomes false. */
  predicate ExchangeOk(c: Core, x: Exchange) {
    && (x.request.EnsureRequest? && x.response.EnsureResponse? && x.response.ensured.Ok? ==>
          var r := x.response.ensured.value;
          r.key == KeyOf(x.request.fence, x.request.attempt)
          && r.key in c.jobs && c.jobs[r.key].operation == r.operation
             && r.operation.payload == x.request.attempt.payload
          && Reported(c, r.key, r.status, r.result))
    && (x.request.ClaimRequest? && x.response.ClaimResponse? && x.response.claimed.Ok? ==>
          var r := x.response.claimed.value;
          Reported(c, x.request.key, r.status, r.result)
          && (r.granted ==> r.payload.Some? && Holds(c, x.request.key, x.request.token, r.payload.value)))
    && (x.request.CompleteRequest? && x.response.CompleteResponse? && x.response.completed.Ok? ==>
          Reported(c, x.request.key, x.response.completed.value.status, x.response.completed.value.result))
  }

  predicate ExchangesOk(c: Core, exchanges: set<Exchange>) {
    forall x :: x in exchanges ==> ExchangeOk(c, x)
  }

  /** A token in Core was drawn for that job, and a result is Core's form of what the provider said on its wire. */
  predicate TracedRow(tokens: map<Token, JobKey>, replies: map<Token, ProviderReply>, k: JobKey, j: Job) {
    && (j.token.Some? ==> j.token.value in tokens && tokens[j.token.value] == k)
    && (j.result.Some? ==> j.token.Some? && j.token.value in replies
                           && Proves(CompletionFor(replies[j.token.value]), j))
  }

  predicate Traced(tokens: map<Token, JobKey>, replies: map<Token, ProviderReply>, jobs: map<JobKey, Job>) {
    forall k :: k in jobs ==> TracedRow(tokens, replies, k, jobs[k])
  }

  predicate WiresOk(c: Core, wires: seq<Wire>) {
    && (forall i :: 0 <= i < |wires| ==> Holds(c, wires[i].key, wires[i].token, wires[i].payload))
    && (forall i, j :: 0 <= i < j < |wires| ==> wires[i].token != wires[j].token)
  }

  predicate RepliesOk(wires: seq<Wire>, replies: map<Token, ProviderReply>) {
    forall t :: t in replies ==> Wired(wires, t)
  }

  ghost predicate Safe(s: System) {
    && Inv(s.core)
    && WorkersOk(s.core, s.tokens, s.wires, s.replies, s.workers)
    && OwnTokens(s.workers)
    && RequestsOk(s.tokens, s.replies, s.requests)
    && ExchangesOk(s.core, s.exchanges)
    && Traced(s.tokens, s.replies, s.core.jobs)
    && WiresOk(s.core, s.wires)
    && RepliesOk(s.wires, s.replies)
  }

  // ── Every event keeps it ─────────────────────────────────────────────────────

  /** Core may move on by itself: rows keep their operation, and tokens and results once written. */
  lemma CoreMoved(s: System, c: Core)
    requires Safe(s) && Inv(c) && Evolves(s.core, c) && Traced(s.tokens, s.replies, c.jobs)
    ensures Safe(s.(core := c))
  {
    forall w | w in s.workers ensures WorkerOk(c, s.tokens, s.wires, s.replies, s.workers[w]) {
      assert WorkerOk(s.core, s.tokens, s.wires, s.replies, s.workers[w]);
    }
    forall x | x in s.exchanges ensures ExchangeOk(c, x) {
      assert ExchangeOk(s.core, x);
    }
    assert WiresOk(c, s.wires);
  }

  lemma HarmlessMove(s: System, c: Core)
    requires Safe(s) && Harmless(s.core, c)
    ensures Safe(s.(core := c))
  {
    forall k | k in c.jobs ensures TracedRow(s.tokens, s.replies, k, c.jobs[k]) {
      if k in s.core.jobs {
        assert TracedRow(s.tokens, s.replies, k, s.core.jobs[k]) && JobMay(s.core.jobs[k], c.jobs[k]);
      }
    }
    CoreMoved(s, c);
  }

  lemma ChangeHarmless(c: Core, change: CoreChange)
    requires Inv(c)
    ensures Harmless(c, Changed(c, change))
  {
    match change
    case TakeOver(t, a, r, x) => ClaimTaskSafe(c, t, a, r, x);
    case StartRun(f, h, k, v, p) => StartSafe(c, f, h, k, v, p);
    case CheckpointRun(f, k, cp) => SaveCheckpointSafe(c, f, k, cp);
    case CommitRun(f, o, cap) => CommitSafe(c, f, o, cap);
    case ReleaseRun(f, u, b, d) => ReleaseSafe(c, f, u, b, d);
    case Retry(now, t) => OwnerRetrySafe(c, now, t);
    case Edit(t, row) => EditTaskSafe(c, t, row);
  }

  lemma EnsureHandled(s: System, f: Fence, a: Attempt, now: int, ledger: Ledger)
    requires Safe(s)
    ensures Safe(Handled(s, EnsureRequest(f, a), now, ledger, false))
  {
    EnsureSafe(s.core, now, f, a, ledger);
    HarmlessMove(s, Ensure(s.core, now, f, a, ledger).0);
  }

  lemma TokenWritten(s: System, c: Core, k: JobKey, t: Token)
    requires Traced(s.tokens, s.replies, s.core.jobs) && t in s.tokens && s.tokens[t] == k
    requires Evolves(s.core, c) && OnlyToken(s.core, c, k, t) && NoNewResult(s.core, c)
    ensures Traced(s.tokens, s.replies, c.jobs)
  {
    forall h | h in c.jobs ensures TracedRow(s.tokens, s.replies, h, c.jobs[h]) {
      if h in s.core.jobs {
        assert TracedRow(s.tokens, s.replies, h, s.core.jobs[h]) && JobMay(s.core.jobs[h], c.jobs[h]);
      }
    }
  }

  lemma ResultWritten(s: System, c: Core, k: JobKey, t: Token, done: Completion)
    requires Traced(s.tokens, s.replies, s.core.jobs) && t in s.replies && done == CompletionFor(s.replies[t])
    requires Evolves(s.core, c) && NoNewToken(s.core, c) && OnlyResult(s.core, c, k, t, done)
    ensures Traced(s.tokens, s.replies, c.jobs)
  {
    forall h | h in c.jobs ensures TracedRow(s.tokens, s.replies, h, c.jobs[h]) {
      if h in s.core.jobs {
        assert TracedRow(s.tokens, s.replies, h, s.core.jobs[h]) && JobMay(s.core.jobs[h], c.jobs[h]);
      }
    }
  }

  lemma ClaimHandled(s: System, f: Fence, k: JobKey, t: Token, now: int, reauthorised: bool)
    requires Safe(s) && t in s.tokens && s.tokens[t] == k
    ensures Safe(Handled(s, ClaimRequest(f, k, t), now, Granted, reauthorised))
  {
    ClaimSafe(s.core, now, f, k, t, reauthorised);
    var c := Claim(s.core, now, f, k, t, reauthorised).0;
    TokenWritten(s, c, k, t);
    CoreMoved(s, c);
  }

  lemma CompleteHandled(s: System, task: Id, k: JobKey, t: Token, done: Completion, now: int)
    requires Safe(s) && t in s.replies && done == CompletionFor(s.replies[t])
    ensures Safe(Handled(s, CompleteRequest(task, k, t, done), now, Granted, false))
  {
    CompleteSafe(s.core, task, k, t, done);
    var c := Complete(s.core, task, k, t, done).0;
    ResultWritten(s, c, k, t, done);
    CoreMoved(s, c);
  }

  /** A worker that drops its token, or goes on with the one it has. */
  lemma Moved(s: System, w: nat, pc: Pc)
    requires Safe(s) && w in s.workers
    requires HasToken(pc) ==> HasToken(s.workers[w].pc) && pc.token == s.workers[w].pc.token
    requires WorkerOk(s.core, s.tokens, s.wires, s.replies, s.workers[w].(pc := pc))
    ensures Safe(Move(s, w, pc))
  {
  }

  lemma BeginSafe(s: System, w: nat, f: Fence, a: Attempt)
    requires Safe(s)
    ensures Safe(Next(s, Begin(w, f, a)))
  {
  }

  lemma UnusedToken(s: System, t: Token)
    requires Safe(s) && t !in s.tokens
    ensures !Wired(s.wires, t)
    ensures forall v :: v in s.workers && HasToken(s.workers[v].pc) ==> s.workers[v].pc.token != t
  {
    forall i | 0 <= i < |s.wires| ensures s.wires[i].token != t {
      var wire := s.wires[i];
      assert Holds(s.core, wire.key, wire.token, wire.payload);
      assert TracedRow(s.tokens, s.replies, wire.key, s.core.jobs[wire.key]);
    }
    forall v | v in s.workers && HasToken(s.workers[v].pc) ensures s.workers[v].pc.token != t {
      assert WorkerOk(s.core, s.tokens, s.wires, s.replies, s.workers[v]);
    }
  }

  /** Drawing a new token for a claim. */
  lemma Drawn(s: System, w: nat, key: JobKey, op: Operation, t: Token)
    requires Safe(s) && w in s.workers && t !in s.tokens
    requires key == KeyOf(s.workers[w].fence, s.workers[w].attempt)
    requires key in s.core.jobs && s.core.jobs[key].operation == op && op.payload == s.workers[w].attempt.payload
    ensures Safe(Move(s, w, AwaitClaim(key, op, t, false))
                 .(tokens := s.tokens[t := key], requests := s.requests + {ClaimRequest(s.workers[w].fence, key, t)}))
  {
    var s' := Move(s, w, AwaitClaim(key, op, t, false))
              .(tokens := s.tokens[t := key], requests := s.requests + {ClaimRequest(s.workers[w].fence, key, t)});
    UnusedToken(s, t);
    forall v | v in s'.workers ensures WorkerOk(s'.core, s'.tokens, s'.wires, s'.replies, s'.workers[v]) {
      if v != w { assert WorkerOk(s.core, s.tokens, s.wires, s.replies, s.workers[v]); }
    }
    forall k | k in s.core.jobs ensures TracedRow(s'.tokens, s.replies, k, s.core.jobs[k]) {
      assert TracedRow(s.tokens, s.replies, k, s.core.jobs[k]);
    }
    forall r | r in s'.requests ensures RequestOk(s'.tokens, s'.replies, r) {
      assert r in s.requests ==> RequestOk(s.tokens, s.replies, r);
    }
  }

  lemma HeardSafe(s: System, w: nat, response: Option<Response>, drawn: Token)
    requires Safe(s) && w in s.workers
    requires response.Some? ==> (Outstanding(s, s.workers[w]).Some?
                                 && Exchange(Outstanding(s, s.workers[w]).value, response.value) in s.exchanges)
    ensures Safe(OnHeard(s, w, response, drawn))
  {
    var worker := s.workers[w];
    assert WorkerOk(s.core, s.tokens, s.wires, s.replies, worker);
    if response.Some? { assert ExchangeOk(s.core, Exchange(Outstanding(s, worker).value, response.value)); }
    match worker.pc
    case AwaitEnsure =>
      if response.None? || response.value.EnsureResponse? {
        match OnEnsure(if response.None? then Lost else Reply(response.value.ensured)) {
          case EnsureEnds(end) => Moved(s, w, Finished(end));
          case GoClaim(key, op) => if drawn !in s.tokens { Drawn(s, w, key, op, drawn); }
        }
      }
    case AwaitClaim(key, op, token, retried) =>
      if response.None? || response.value.ClaimResponse? {
        match OnClaim(if response.None? then Lost else Reply(response.value.claimed), retried, op) {
          case ClaimAgain => Moved(s, w, AwaitClaim(key, op, token, true));
          case ClaimEnds(end) => Moved(s, w, Finished(end));
          case GoDispatch(payload) => Moved(s, w, MayDispatch(key, token, payload));
        }
      }
    case AwaitComplete(key, token, retried) =>
      if response.None? || response.value.CompleteResponse? {
        match OnComplete(if response.None? then Lost else Reply(response.value.completed), retried, s.replies[token]) {
          case CompleteAgain => Moved(s, w, AwaitComplete(key, token, true));
          case CompleteEnds(end) => Moved(s, w, Finished(end));
        }
      }
    case _ =>
  }

  lemma WireAppended(wires: seq<Wire>, wire: Wire, t: Token)
    ensures Wired(wires + [wire], t) <==> Wired(wires, t) || t == wire.token
  {
    var longer := wires + [wire];
    assert longer[|wires|].token == wire.token;
    if Wired(wires, t) {
      var i :| 0 <= i < |wires| && wires[i].token == t;
      assert longer[i].token == t;
    }
  }

  lemma TakeWireSafe(s: System, w: nat)
    requires Safe(s)
    ensures Safe(Next(s, TakeWire(w)))
  {
    var s' := Next(s, TakeWire(w));
    if w in s.workers && s.workers[w].pc.MayDispatch? {
      var pc := s.workers[w].pc;
      assert WorkerOk(s.core, s.tokens, s.wires, s.replies, s.workers[w]);
      forall t ensures Wired(s'.wires, t) <==> Wired(s.wires, t) || t == pc.token {
        WireAppended(s.wires, Wire(pc.key, pc.token, pc.payload), t);
      }
      forall v | v in s'.workers ensures WorkerOk(s'.core, s'.tokens, s'.wires, s'.replies, s'.workers[v]) {
        if v != w { assert WorkerOk(s.core, s.tokens, s.wires, s.replies, s.workers[v]); }
      }
    }
  }

  /** A reply recorded for a token that had none leaves every job row traced. */
  lemma ReplyAdded(s: System, t: Token, reply: ProviderReply)
    requires Safe(s) && t !in s.replies
    ensures Traced(s.tokens, s.replies[t := reply], s.core.jobs)
            && RequestsOk(s.tokens, s.replies[t := reply], s.requests)
  {
    forall k | k in s.core.jobs ensures TracedRow(s.tokens, s.replies[t := reply], k, s.core.jobs[k]) {
      assert TracedRow(s.tokens, s.replies, k, s.core.jobs[k]);
    }
    forall r | r in s.requests ensures RequestOk(s.tokens, s.replies[t := reply], r) {
      assert RequestOk(s.tokens, s.replies, r);
    }
  }

  lemma ProviderSafe(s: System, w: nat, reply: ProviderReply)
    requires Safe(s)
    ensures Safe(Next(s, Provider(w, reply)))
  {
    var s' := Next(s, Provider(w, reply));
    if w in s.workers && s.workers[w].pc.OnWire? {
      assert WorkerOk(s.core, s.tokens, s.wires, s.replies, s.workers[w]);
      ReplyAdded(s, s.workers[w].pc.token, reply);
      forall v | v in s'.workers ensures WorkerOk(s'.core, s'.tokens, s'.wires, s'.replies, s'.workers[v]) {
        if v != w { assert WorkerOk(s.core, s.tokens, s.wires, s.replies, s.workers[v]); }
      }
      assert RepliesOk(s'.wires, s'.replies);
    }
  }

  lemma NextSafe(s: System, e: Event)
    requires Safe(s)
    ensures Safe(Next(s, e))
  {
    match e
    case Begin(w, f, a) => BeginSafe(s, w, f, a);
    case Handle(r, now, ledger, reauthorised) =>
      if r in s.requests {
        assert RequestOk(s.tokens, s.replies, r);
        match r {
          case EnsureRequest(f, a) => EnsureHandled(s, f, a, now, ledger);
          case ClaimRequest(f, k, t) => ClaimHandled(s, f, k, t, now, reauthorised);
          case CompleteRequest(task, k, t, done) => CompleteHandled(s, task, k, t, done, now);
        }
      }
    case Fault(r, status) => assert ExchangeOk(s.core, Exchange(r, Refusal(r, status)));
    case Hear(w, response, drawn) =>
      if w in s.workers && Outstanding(s, s.workers[w]).Some?
         && Exchange(Outstanding(s, s.workers[w]).value, response) in s.exchanges {
        HeardSafe(s, w, Some(response), drawn);
      }
    case Miss(w) => if w in s.workers { HeardSafe(s, w, None, 0); }
    case TakeWire(w) => TakeWireSafe(s, w);
    case Provider(w, reply) => ProviderSafe(s, w, reply);
    case Crash(w) => if w in s.workers { Moved(s, w, Crashed); }
    case Elsewhere(change) =>
      ChangeHarmless(s.core, change);
      HarmlessMove(s, Changed(s.core, change));
  }

  lemma {:induction false} RunSafe(s: System, schedule: seq<Event>)
    requires Safe(s)
    ensures Safe(Run(s, schedule))
    decreases |schedule|
  {
    if schedule != [] {
      NextSafe(s, schedule[0]);
      RunSafe(Next(s, schedule[0]), schedule[1..]);
    }
  }

  // ── What every schedule guarantees ───────────────────────────────────────────

  /** A system some schedule leads to from the empty one. */
  ghost predicate Reachable(s: System) {
    exists schedule :: s == Run(Initial, schedule)
  }

  lemma ReachableSafe(s: System)
    requires Reachable(s)
    ensures Safe(s)
  {
    var schedule :| s == Run(Initial, schedule);
    RunSafe(Initial, schedule);
  }

  /** Each job sees at most one provider request, and it carries the payload Core stored with the operation. */
  lemma OneWirePerJob(s: System)
    requires Reachable(s)
    ensures forall i, j :: 0 <= i < j < |s.wires| ==> s.wires[i].key != s.wires[j].key
    ensures forall i :: 0 <= i < |s.wires| ==>
              s.wires[i].key in s.core.jobs && s.wires[i].payload == s.core.jobs[s.wires[i].key].operation.payload
  {
    ReachableSafe(s);
    forall i, j | 0 <= i < j < |s.wires| ensures s.wires[i].key != s.wires[j].key {
      assert Holds(s.core, s.wires[i].key, s.wires[i].token, s.wires[i].payload);
      assert Holds(s.core, s.wires[j].key, s.wires[j].token, s.wires[j].payload);
    }
  }

  /** Whatever leaves is in the plan: attempt n of a step carries the n-th model that the plan names for it. */
  lemma WiresArePlanned(s: System, i: nat)
    requires Reachable(s) && i < |s.wires|
    ensures var wire := s.wires[i];
            && wire.key.execution in s.core.executions
            && exists step :: step in s.core.executions[wire.key.execution].plan && step.stepKey == wire.key.stepKey
                              && 1 <= wire.key.attemptNo <= |step.models|
                              && step.models[wire.key.attemptNo - 1] == wire.payload.model
  {
    ReachableSafe(s);
    var k := s.wires[i].key;
    assert Holds(s.core, k, s.wires[i].token, s.wires[i].payload);
    assert JobOk(s.core, k);
    StepIsPlanned(s.core.executions[k.execution].plan, k.stepKey);
  }

  /** Before attempt n exists, attempts 1..n-1 are durable rejections. */
  lemma {:induction false} EarlierRejected(c: Core, k: JobKey, m: nat)
    requires Inv(c) && k in c.jobs && 1 <= m < k.attemptNo
    ensures k.(attemptNo := m) in c.jobs && c.jobs[k.(attemptNo := m)].status == Rejected
    decreases k.attemptNo
  {
    assert JobOk(c, k);
    if m < k.attemptNo - 1 {
      EarlierRejected(c, Previous(k), m);
      assert Previous(k).(attemptNo := m) == k.(attemptNo := m);
    }
  }

  /** Of the requests that left for one step, all but at most one were definitely rejected. */
  lemma OneOpenWirePerStep(s: System, i: nat, j: nat)
    requires Reachable(s) && i < j < |s.wires|
    requires s.wires[i].key.execution == s.wires[j].key.execution && s.wires[i].key.stepKey == s.wires[j].key.stepKey
    ensures var a, b := s.wires[i].key, s.wires[j].key;
            a in s.core.jobs && b in s.core.jobs
            && (s.core.jobs[a].status == Rejected || s.core.jobs[b].status == Rejected)
  {
    ReachableSafe(s);
    OneWirePerJob(s);
    var a, b := s.wires[i].key, s.wires[j].key;
    assert Holds(s.core, a, s.wires[i].token, s.wires[i].payload)
           && Holds(s.core, b, s.wires[j].token, s.wires[j].payload);
    assert JobOk(s.core, a) && JobOk(s.core, b);
    assert a.attemptNo != b.attemptNo;
    if a.attemptNo < b.attemptNo {
      EarlierRejected(s.core, b, a.attemptNo);
      assert b.(attemptNo := a.attemptNo) == a;
    } else {
      EarlierRejected(s.core, a, b.attemptNo);
      assert a.(attemptNo := b.attemptNo) == b;
    }
  }

  /** A stored result is Core's form of what the provider answered on the one wire of that job. */
  lemma ResultHasItsWire(s: System, k: JobKey)
    requires Reachable(s) && k in s.core.jobs && s.core.jobs[k].result.Some?
    ensures exists i :: 0 <= i < |s.wires| && s.wires[i].key == k && s.wires[i].token in s.replies
                        && Proves(CompletionFor(s.replies[s.wires[i].token]), s.core.jobs[k])
  {
    ReachableSafe(s);
    var j := s.core.jobs[k];
    assert TracedRow(s.tokens, s.replies, k, j);
    var i :| 0 <= i < |s.wires| && s.wires[i].token == j.token.value;
    var wire := s.wires[i];
    assert Holds(s.core, wire.key, wire.token, wire.payload);
    assert TracedRow(s.tokens, s.replies, wire.key, s.core.jobs[wire.key]);
  }

  /** A finished attempt that returned a result returned exactly what Core holds for that attempt's job. */
  lemma ReturnedIsDurable(s: System, w: nat)
    requires Reachable(s) && w in s.workers && s.workers[w].pc.Finished? && s.workers[w].pc.end.Returned?
    ensures Stored(s.core, KeyOf(s.workers[w].fence, s.workers[w].attempt), s.workers[w].pc.end.result)
  {
    ReachableSafe(s);
    assert WorkerOk(s.core, s.tokens, s.wires, s.replies, s.workers[w]);
  }

  /** A request leaves for the provider only as the attempt asked, and no such request left before. */
  lemma WhatLeaves(s: System, w: nat)
    requires Reachable(s) && w in s.workers && s.workers[w].pc.MayDispatch?
    ensures var worker := s.workers[w];
            && Next(s, TakeWire(w)).wires
                 == s.wires + [Wire(KeyOf(worker.fence, worker.attempt), worker.pc.token, worker.attempt.payload)]
            && forall i :: 0 <= i < |s.wires| ==> s.wires[i].key != KeyOf(worker.fence, worker.attempt)
  {
    ReachableSafe(s);
    var worker := s.workers[w];
    assert WorkerOk(s.core, s.tokens, s.wires, s.replies, worker);
    forall i | 0 <= i < |s.wires| ensures s.wires[i].key != KeyOf(worker.fence, worker.attempt) {
      assert Holds(s.core, s.wires[i].key, s.wires[i].token, s.wires[i].payload);
    }
  }

  // ── What a continuation can no longer change ─────────────────────────────────

  lemma EvolvesReflexive(c: Core)
    ensures Evolves(c, c)
  {
  }

  lemma HandledEvolves(s: System, r: Request, now: int, ledger: Ledger, reauthorised: bool)
    requires Inv(s.core)
    ensures Evolves(s.core, Handled(s, r, now, ledger, reauthorised).core)
  {
    match r
    case EnsureRequest(f, a) => EnsureSafe(s.core, now, f, a, ledger);
    case ClaimRequest(f, k, t) => ClaimSafe(s.core, now, f, k, t, reauthorised);
    case CompleteRequest(task, k, t, done) => CompleteSafe(s.core, task, k, t, done);
  }

  lemma CoreKept(s: System, e: Event)
    ensures !e.Handle? && !e.Elsewhere? ==> Next(s, e).core == s.core
    ensures !e.TakeWire? ==> Next(s, e).wires == s.wires
  {
  }

  lemma NextEvolves(s: System, e: Event)
    requires Inv(s.core)
    ensures Evolves(s.core, Next(s, e).core)
  {
    EvolvesReflexive(s.core);
    if e.Handle? {
      HandledEvolves(s, e.request, e.now, e.ledger, e.reauthorised);
    } else if e.Elsewhere? {
      ChangeHarmless(s.core, e.change);
    } else {
      CoreKept(s, e);
    }
  }

  /** Results, terminal statuses, checkpoints and committed outcomes survive every continuation. */
  lemma {:induction false} RunEvolves(s: System, schedule: seq<Event>)
    requires Safe(s)
    ensures Safe(Run(s, schedule)) && Evolves(s.core, Run(s, schedule).core)
    decreases |schedule|
  {
    if schedule == [] {
      EvolvesReflexive(s.core);
    } else {
      var s' := Next(s, schedule[0]);
      NextSafe(s, schedule[0]);
      NextEvolves(s, schedule[0]);
      RunEvolves(s', schedule[1..]);
      EvolvesTransitive(s.core, s'.core, Run(s', schedule[1..]).core);
    }
  }

  /** A committed task keeps its outcome for ever, and the outcome is the checkpoint's. */
  lemma CommittedForEver(s: System, id: Id, schedule: seq<Event>)
    requires Reachable(s) && id in s.core.executions && s.core.executions[id].status == Committed
    ensures var c := Run(s, schedule).core;
            && id in c.executions && c.executions[id].outcome == s.core.executions[id].outcome
            && c.executions[id].checkpoint == s.core.executions[id].checkpoint
            && c.executions[id].outcome.Some? && Matches(c.executions[id].checkpoint, c.executions[id].outcome.value)
  {
    ReachableSafe(s);
    RunEvolves(s, schedule);
    assert ExecutionMay(s.core.executions[id], Run(s, schedule).core.executions[id]);
    assert ExecutionOk(s.core.executions[id]);
  }

  /** No further attempt can be created and every outcome is known. */
  ghost predicate Settled(c: Core, id: Id) {
    id in c.executions && c.executions[id].status != Active && AllTerminal(c, id)
  }

  lemma CheckpointSettles(c: Core, id: Id)
    requires Inv(c) && id in c.executions
    requires c.executions[id].status == Checkpointed || c.executions[id].status == Committed
    ensures Settled(c, id)
  {
    forall k | k in c.jobs && k.execution == id ensures Terminal(c.jobs[k].status) {
      assert JobOk(c, k);
    }
  }

  lemma SettledStays(c: Core, c': Core, id: Id)
    requires Evolves(c, c') && Settled(c, id)
    ensures Settled(c', id)
  {
    forall k | k in c'.jobs && k.execution == id ensures Terminal(c'.jobs[k].status) {
      assert k in c.jobs && JobMay(c.jobs[k], c'.jobs[k]);
    }
    assert ExecutionMay(c.executions[id], c'.executions[id]);
  }

  /** A worker still allowed to send belongs to an execution whose outcome is open. */
  lemma SettledIsQuiet(s: System, w: nat, id: Id)
    requires Safe(s) && Settled(s.core, id) && w in s.workers && s.workers[w].pc.MayDispatch?
    ensures s.workers[w].pc.key.execution != id
  {
    var pc := s.workers[w].pc;
    assert WorkerOk(s.core, s.tokens, s.wires, s.replies, s.workers[w]);
    var j := s.core.jobs[pc.key];
    assert TracedRow(s.tokens, s.replies, pc.key, j);
    assert j.result.None? by { assert RepliesOk(s.wires, s.replies); }
    assert !Terminal(j.status) by { assert JobOk(s.core, pc.key); }
  }

  /** Requests that left for one execution. */
  function WiresOf(wires: seq<Wire>, id: Id): seq<Wire> {
    if wires == [] then []
    else
      var rest := WiresOf(wires[..|wires| - 1], id);
      if wires[|wires| - 1].key.execution == id then rest + [wires[|wires| - 1]] else rest
  }

  lemma NextQuiet(s: System, e: Event, id: Id)
    requires Safe(s) && Settled(s.core, id)
    ensures WiresOf(Next(s, e).wires, id) == WiresOf(s.wires, id)
  {
    if e.TakeWire? && e.w in s.workers && s.workers[e.w].pc.MayDispatch? {
      SettledIsQuiet(s, e.w, id);
      var pc := s.workers[e.w].pc;
      assert (s.wires + [Wire(pc.key, pc.token, pc.payload)])[..|s.wires|] == s.wires;
    } else {
      CoreKept(s, e);
    }
  }

  lemma {:induction false} SettledSendsNothing(s: System, schedule: seq<Event>, id: Id)
    requires Safe(s) && Settled(s.core, id)
    ensures WiresOf(Run(s, schedule).wires, id) == WiresOf(s.wires, id)
    decreases |schedule|
  {
    if schedule != [] {
      var s' := Next(s, schedule[0]);
      NextSafe(s, schedule[0]);
      NextEvolves(s, schedule[0]);
      NextQuiet(s, schedule[0], id);
      SettledStays(s.core, s'.core, id);
      SettledSendsNothing(s', schedule[1..], id);
    }
  }

  /** Once an execution is checkpointed or committed no schedule sends another request for it. */
  lemma CheckpointedSendsNothing(s: System, schedule: seq<Event>, id: Id)
    requires Reachable(s) && id in s.core.executions
    requires s.core.executions[id].status == Checkpointed || s.core.executions[id].status == Committed
    ensures WiresOf(Run(s, schedule).wires, id) == WiresOf(s.wires, id)
  {
    ReachableSafe(s);
    CheckpointSettles(s.core, id);
    SettledSendsNothing(s, schedule, id);
  }

  // ── A run that lost its lease ────────────────────────────────────────────────

  /** The task is no longer leased to this run. */
  predicate RunGone(c: Core, f: Fence) {
    f.taskId in c.tasks ==> c.tasks[f.taskId].runId != Some(f.runId)
  }

  /** Run ids are drawn fresh: nobody leases the task under that id again. */
  predicate NeverReissues(e: Event, f: Fence) {
    e.Elsewhere? ==>
      match e.change
      case TakeOver(task, _, freshRun, _) => task == f.taskId ==> freshRun != f.runId
      case Edit(task, row) => task == f.taskId ==> row.runId != Some(f.runId)
      case _ => true
  }

  lemma EnsureKeepsGone(c: Core, now: int, g: Fence, a: Attempt, ledger: Ledger, f: Fence)
    requires RunGone(c, f)
    ensures RunGone(Ensure(c, now, g, a, ledger).0, f)
  {
  }

  lemma ClaimKeepsGone(c: Core, now: int, g: Fence, k: JobKey, t: Token, reauthorised: bool, f: Fence)
    requires RunGone(c, f)
    ensures RunGone(Claim(c, now, g, k, t, reauthorised).0, f)
  {
  }

  lemma RequestKeepsGone(s: System, r: Request, now: int, ledger: Ledger, reauthorised: bool, f: Fence)
    requires RunGone(s.core, f)
    ensures RunGone(Handled(s, r, now, ledger, reauthorised).core, f)
  {
    match r
    case EnsureRequest(g, a) => EnsureKeepsGone(s.core, now, g, a, ledger, f);
    case ClaimRequest(g, k, t) => ClaimKeepsGone(s.core, now, g, k, t, reauthorised, f);
    case CompleteRequest(_, _, _, _) =>
  }

  lemma NextKeepsGone(s: System, e: Event, f: Fence)
    requires RunGone(s.core, f) && NeverReissues(e, f)
    ensures RunGone(Next(s, e).core, f)
  {
    if e.Handle? {
      RequestKeepsGone(s, e.request, e.now, e.ledger, e.reauthorised, f);
    } else if !e.Elsewhere? {
      CoreKept(s, e);
    }
  }

  /** A run that lost its lease never regains it: in every continuation its requests change nothing and are refused. */
  lemma {:induction false} LostForEver(s: System, schedule: seq<Event>, f: Fence, now: int, a: Attempt, ledger: Ledger,
                                       k: JobKey, t: Token, reauthorised: bool)
    requires RunGone(s.core, f) && forall i :: 0 <= i < |schedule| ==> NeverReissues(schedule[i], f)
    ensures var c := Run(s, schedule).core;
            && RunGone(c, f) && !Fenced(c, f)
            && Ensure(c, now, f, a, ledger).0 == c && Ensure(c, now, f, a, ledger).1.Refused?
            && Claim(c, now, f, k, t, reauthorised).0 == c && Claim(c, now, f, k, t, reauthorised).1.Refused?
    decreases |schedule|
  {
    if schedule == [] {
      StaleFenceChangesNothing(s.core, now, f, a, ledger, k, t, reauthorised);
    } else {
      NextKeepsGone(s, schedule[0], f);
      LostForEver(Next(s, schedule[0]), schedule[1..], f, now, a, ledger, k, t, reauthorised);
    }
  }
}
