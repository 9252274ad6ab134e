/**
 * Core's durable side of an agent task: the task lease, the execution with its checkpoint and commit, and
 * the LLM job rows with their single dispatch grant (apps/core/src/tasks/task-llm-jobs.service.ts and
 * tasks.service.ts). Every operation is one database transaction; a thrown error leaves no trace.
 */
module CoreStore {
  import opened Common
  import opened LlmResult

  type Id = nat
  type Token = nat

  /** A record's fields, each with the JSON text of its value; canonical hashing hides key order. */
  type Facts = map<string, string>

  datatype PlanStep = PlanStep(stepKey: string, route: Route, models: seq<string>)

  datatype Route = Route(kind: JobKind, feature: string, adapter: string, adapterVersion: nat,
                         endpoint: string, provider: string)

  datatype Payload = Payload(model: string, body: string)

  /** One physical provider attempt, as a worker asks Core to authorise it. */
  datatype Attempt = Attempt(stepKey: string, attemptNo: nat, route: Route, model: string,
                             inputCeiling: nat, outputCeiling: nat, payload: Payload)

  /** The unique index of the job table; it also stands for the job's UUID. */
  datatype JobKey = JobKey(execution: Id, stepKey: string, attemptNo: nat)

  /** Everything `operationHash` digests; the record itself stands for its collision-free hash. */
  datatype Operation = Operation(key: JobKey, workflowVersion: nat, adapter: string, adapterVersion: nat,
                                 provider: string, endpoint: string, payload: Payload)

  datatype JobStatus = WaitingBudget | Ready | Dispatching | Succeeded | Rejected | UnknownOutcome | Cancelled

  datatype Job = Job(route: Route, model: string, inputCeiling: nat, outputCeiling: nat, operation: Operation,
                     payload: Option<Payload>, status: JobStatus, token: Option<Token>, dispatches: nat,
                     deadline: int, result: Option<StoredResult>)

  datatype TaskStatus = Todo | InProgress | Done | CancelledTask
  datatype BlockReason = ExecutionUnknown | OtherReason

  datatype Task = Task(agent: Option<string>, runId: Option<Id>, attemptId: Option<Id>, status: TaskStatus,
                       blocked: Option<BlockReason>, inputHash: nat)

  datatype Checkpoint =
    | NoSignalCheckpoint
    | ProposalCheckpoint(action: string, facts: Facts, next: seq<string>)

  datatype CommitKind = NoSignalCommit | NoChangeCommit | ApprovalCommit | ExecutedCommit

  datatype CommitOutcome = CommitOutcome(kind: CommitKind, note: string, action: Option<string>,
                                         facts: Option<Facts>, next: seq<string>, hasTier: bool)

  datatype ExecutionStatus = Active | Checkpointed | Committed | Abandoned

  datatype Execution = Execution(taskId: Id, agent: string, skill: string, status: ExecutionStatus,
                                 inputHash: nat, workflowVersion: nat, plan: seq<PlanStep>,
                                 checkpoint: Option<Checkpoint>, outcome: Option<CommitOutcome>)

  datatype Core = Core(tasks: map<Id, Task>, executions: map<Id, Execution>, jobs: map<JobKey, Job>)

  /** What a worker proves with every request: the run it believes it still owns. */
  datatype Fence = Fence(taskId: Id, agent: string, runId: Id, attemptId: Id)

  datatype Reply<+T> = Ok(value: T) | Refused(status: nat)

  datatype EnsureReply = EnsureReply(key: JobKey, status: JobStatus, operation: Operation,
                                     result: Option<StoredResult>, denied: bool)
  datatype ClaimReply = ClaimReply(granted: bool, status: JobStatus, operation: Operation,
                                   payload: Option<Payload>, result: Option<StoredResult>)
  datatype CompleteReply = CompleteReply(status: JobStatus, result: Option<StoredResult>)

  /** The budget ledger's answer inside the ensure transaction. */
  datatype Ledger = Granted | Denied | Inconsistent | Failed

  const DISPATCH_GRANT_MS := 120000
  const MAX_CEILING := 100000000

  predicate Terminal(s: JobStatus) {
    s == Succeeded || s == Rejected || s == Cancelled
  }

  // ── Guards ───────────────────────────────────────────────────────────────────

  predicate Fenced(c: Core, f: Fence) {
    f.taskId in c.tasks &&
    var t := c.tasks[f.taskId];
    t.agent == Some(f.agent) && t.runId == Some(f.runId) && t.attemptId == Some(f.attemptId) &&
    t.status != Done && t.status != CancelledTask
  }

  predicate OwnExecution(c: Core, f: Fence) {
    f.attemptId in c.executions &&
    c.executions[f.attemptId].taskId == f.taskId && c.executions[f.attemptId].agent == f.agent
  }

  predicate InputUnchanged(c: Core, f: Fence)
    requires f.taskId in c.tasks && f.attemptId in c.executions
  {
    c.executions[f.attemptId].inputHash == c.tasks[f.taskId].inputHash
  }

  function FindStep(plan: seq<PlanStep>, stepKey: string): Option<PlanStep> {
    if plan == [] then None
    else if plan[0].stepKey == stepKey then Some(plan[0])
    else FindStep(plan[1..], stepKey)
  }

  predicate Planned(plan: seq<PlanStep>, stepKey: string, attemptNo: nat, route: Route, model: string) {
    var step := FindStep(plan, stepKey);
    step.Some? && step.value.route == route &&
    1 <= attemptNo <= |step.value.models| && step.value.models[attemptNo - 1] == model
  }

  function OperationOf(key: JobKey, workflowVersion: nat, route: Route, payload: Payload): Operation {
    Operation(key, workflowVersion, route.adapter, route.adapterVersion, route.provider, route.endpoint, payload)
  }

  function Previous(k: JobKey): JobKey
    requires k.attemptNo > 1
  {
    k.(attemptNo := k.attemptNo - 1)
  }

  // ── Transactions ─────────────────────────────────────────────────────────────

  /** `blockTask`: the lease is dropped and no worker may claim the task until the owner acts. */
  function Block(c: Core, taskId: Id): Core
    requires taskId in c.tasks
  {
    c.(tasks := c.tasks[taskId := c.tasks[taskId].(status := Todo, runId := None, blocked := Some(OtherReason))])
  }

  /** `expireDispatchIfNeeded`: a grant past its deadline has an unknown outcome. */
  function Expire(j: Job, now: int): Job {
    if j.status == Dispatching && j.deadline <= now then j.(status := UnknownOutcome, payload := None) else j
  }

  function PutJob(c: Core, k: JobKey, j: Job): Core {
    c.(jobs := c.jobs[k := j])
  }

  function JobReply(k: JobKey, j: Job): Reply<EnsureReply> {
    if (j.status == Succeeded || j.status == Rejected) && j.result.None? then Refused(409)
    else Ok(EnsureReply(k, j.status, j.operation, if Terminal(j.status) then j.result else None, false))
  }

  function Ensure(c: Core, now: int, f: Fence, a: Attempt, ledger: Ledger): (Core, Reply<EnsureReply>) {
    if a.payload.model != a.model || a.inputCeiling + a.outputCeiling > MAX_CEILING then (c, Refused(400))
    else if f.taskId !in c.tasks then (c, Refused(404))
    else if !Fenced(c, f) then (c, Refused(409))
    else if !OwnExecution(c, f) || c.executions[f.attemptId].status != Active || !InputUnchanged(c, f)
            || !Planned(c.executions[f.attemptId].plan, a.stepKey, a.attemptNo, a.route, a.model) then
      (Block(c, f.taskId), Refused(409))
    else
      var k := JobKey(f.attemptId, a.stepKey, a.attemptNo);
      var op := OperationOf(k, c.executions[f.attemptId].workflowVersion, a.route, a.payload);
      if k in c.jobs then
        var j := c.jobs[k];
        if j.operation != op || j.route != a.route || j.model != a.model
           || j.inputCeiling != a.inputCeiling || j.outputCeiling != a.outputCeiling then
          (Block(c, f.taskId), Refused(409))
        else Authorise(c, f, k, Expire(j, now), ledger)
      else if a.attemptNo > 1 && (Previous(k) !in c.jobs || c.jobs[Previous(k)].status != Rejected) then
        (Block(c, f.taskId), Refused(409))
      else
        Authorise(c, f, k, Job(a.route, a.model, a.inputCeiling, a.outputCeiling, op, Some(a.payload),
                               WaitingBudget, None, 0, 0, None), ledger)
  }

  /** The second half of `ensure`: a job still waiting for budget asks the ledger. */
  function Authorise(c: Core, f: Fence, k: JobKey, j: Job, ledger: Ledger): (Core, Reply<EnsureReply>)
    requires f.taskId in c.tasks
  {
    if j.status != WaitingBudget then
      var reply := JobReply(k, j);
      if reply.Refused? then (c, reply) else (PutJob(c, k, j), reply)
    else match ledger
      case Failed => (c, Refused(500))
      case Inconsistent => (Block(PutJob(c, k, j), f.taskId), Refused(409))
      case Denied => (PutJob(c, k, j), Ok(EnsureReply(k, WaitingBudget, j.operation, None, true)))
      case Granted => (PutJob(c, k, j.(status := Ready)), Ok(EnsureReply(k, Ready, j.operation, None, false)))
  }

  /** The stored payload may leave for the provider only if it still hashes to the operation. */
  predicate PayloadVerified(c: Core, k: JobKey, j: Job)
    requires k.execution in c.executions
  {
    j.payload.Some? && j.payload.value.model == j.model &&
    j.operation == OperationOf(k, c.executions[k.execution].workflowVersion, j.route, j.payload.value)
  }

  /** `claimDispatch`: compare-and-set of the single dispatch grant. */
  function Claim(c: Core, now: int, f: Fence, k: JobKey, token: Token, reauthorised: bool): (Core, Reply<ClaimReply>) {
    if f.taskId !in c.tasks then (c, Refused(404))
    else if !Fenced(c, f) then (c, Refused(409))
    else if !OwnExecution(c, f) || c.executions[f.attemptId].status != Active || !InputUnchanged(c, f) then
      (Block(c, f.taskId), Refused(409))
    else if k !in c.jobs then (c, Refused(404))
    else
      var j := c.jobs[k];
      if k.execution != f.attemptId
         || !Planned(c.executions[f.attemptId].plan, k.stepKey, k.attemptNo, j.route, j.model) then
        (Block(c, f.taskId), Refused(409))
      else if (j.status == Ready || j.status == Dispatching) && !PayloadVerified(c, k, j) then
        (Block(c, f.taskId), Refused(409))
      else
        var e := Expire(j, now);
        if e.status == Succeeded || e.status == Rejected || e.status == UnknownOutcome then
          if e.token != Some(token) then (PutJob(c, k, e), Refused(409))
          else if e.status != UnknownOutcome && e.result.None? then (c, Refused(409))
          else (PutJob(c, k, e), Ok(ClaimReply(false, e.status, e.operation, None, e.result)))
        else if e.status == Dispatching then
          if e.token != Some(token) then (c, Refused(409))
          else (c, Ok(ClaimReply(true, Dispatching, e.operation, e.payload, None)))
        else if e.status != Ready then (c, Ok(ClaimReply(false, e.status, e.operation, None, None)))
        else if !reauthorised then (Block(c, f.taskId), Refused(409))
        else if e.dispatches != 0 then (c, Refused(409))
        else
          (PutJob(c, k, e.(status := Dispatching, dispatches := 1, token := Some(token),
                           deadline := now + DISPATCH_GRANT_MS)),
           Ok(ClaimReply(true, Dispatching, e.operation, e.payload, None)))
  }

  /** `complete`: fenced by the token alone, so a late answer still counts; evidence is written once. */
  function Complete(c: Core, taskId: Id, k: JobKey, token: Token, done: Completion): (Core, Reply<CompleteReply>) {
    if (done.outcome == Unknown) != done.result.None? then (c, Refused(400))
    else if k !in c.jobs || taskId !in c.tasks || k.execution !in c.executions
            || c.executions[k.execution].taskId != taskId then
      (c, Refused(404))
    else
      var j := c.jobs[k];
      if j.token != Some(token) || j.dispatches != 1 then (c, Refused(409))
      else if done.outcome == Unknown then
        if j.status == UnknownOutcome then (c, Ok(CompleteReply(UnknownOutcome, None)))
        else if j.status != Dispatching then (c, Refused(409))
        else (PutJob(c, k, j.(status := UnknownOutcome, payload := None)), Ok(CompleteReply(UnknownOutcome, None)))
      else
        var rejected := done.outcome == Rejection;
        var evidence := Canonical(j.route.kind, rejected, done.result.value);
        if evidence.None? then (c, Refused(400))
        else
          var stored := StoredResult(rejected, evidence.value);
          if j.result.Some? then
            if j.result.value != stored then (c, Refused(409)) else (c, Ok(CompleteReply(j.status, j.result)))
          else if j.status != Dispatching && j.status != UnknownOutcome then (c, Refused(409))
          else
            var c' := PutJob(c, k, j.(status := if rejected then Rejected else Succeeded, payload := None,
                                      result := Some(stored)));
            (Unblock(c', taskId, k.execution),
             Ok(CompleteReply(if rejected then Rejected else Succeeded, Some(stored))))
  }

  /** Jobs of one execution. */
  predicate AllTerminal(c: Core, execution: Id) {
    forall k :: k in c.jobs && k.execution == execution ==> Terminal(c.jobs[k].status)
  }

  /** A task blocked only because an outcome was unknown opens again once every outcome is known. */
  function Unblock(c: Core, taskId: Id, execution: Id): Core
    requires taskId in c.tasks && execution in c.executions
  {
    var t := c.tasks[taskId];
    if c.executions[execution].status == Active && t.status == Todo && t.attemptId == Some(execution)
       && t.blocked == Some(ExecutionUnknown) && c.executions[execution].inputHash == t.inputHash
       && AllTerminal(c, execution) then
      c.(tasks := c.tasks[taskId := t.(blocked := None)])
    else c
  }

  /** `claimAgentRun`: a fresh run takes the lease; the execution attempt survives a takeover. */
  function ClaimTask(c: Core, taskId: Id, agent: string, freshRun: Id, freshAttempt: Id): Core {
    if taskId in c.tasks && c.tasks[taskId].agent == Some(agent) && c.tasks[taskId].blocked.None?
       && c.tasks[taskId].status != Done && c.tasks[taskId].status != CancelledTask then
      var t := c.tasks[taskId];
      c.(tasks := c.tasks[taskId := t.(status := InProgress, runId := Some(freshRun),
                                       attemptId := if t.attemptId.Some? then t.attemptId else Some(freshAttempt))])
    else c
  }

  /** `startAgentRun`: the immutable plan is written once per attempt. */
  function Start(c: Core, f: Fence, claimedInputHash: nat, skill: string, version: nat,
                 plan: seq<PlanStep>): (Core, Reply<Execution>) {
    if f.taskId !in c.tasks then (c, Refused(404))
    else if !Fenced(c, f) then (c, Refused(409))
    else if claimedInputHash != c.tasks[f.taskId].inputHash then (Block(c, f.taskId), Refused(409))
    else if f.attemptId in c.executions then
      var e := c.executions[f.attemptId];
      if e.taskId != f.taskId || e.agent != f.agent || e.skill != skill || e.inputHash != claimedInputHash
         || e.workflowVersion != version || e.plan != plan then
        (Block(c, f.taskId), Refused(409))
      else if e.status == Abandoned then (c, Refused(409))
      else (c, Ok(e))
    else
      var e := Execution(f.taskId, f.agent, skill, Active, claimedInputHash, version, plan, None, None);
      (c.(executions := c.executions[f.attemptId := e]), Ok(e))
  }

  /** `checkpointAgentRun`: refused while any provider outcome of this execution is open. */
  function SaveCheckpoint(c: Core, f: Fence, skill: string, cp: Checkpoint): (Core, Reply<Checkpoint>) {
    if f.taskId !in c.tasks then (c, Refused(404))
    else if !Fenced(c, f) then (c, Refused(409))
    else if f.attemptId !in c.executions then (c, Refused(409))
    else if !OwnExecution(c, f) || c.executions[f.attemptId].skill != skill || !InputUnchanged(c, f) then
      (Block(c, f.taskId), Refused(409))
    else if !AllTerminal(c, f.attemptId) then (c, Refused(409))
    else
      var e := c.executions[f.attemptId];
      match e.status
      case Checkpointed => if e.checkpoint == Some(cp) then (c, Ok(cp)) else (c, Refused(409))
      case Committed => (c, Refused(409))
      case Abandoned => (c, Refused(409))
      case Active =>
        (c.(executions := c.executions[f.attemptId := e.(status := Checkpointed, checkpoint := Some(cp))]), Ok(cp))
  }

  /** `assertOutcomeMatchesCheckpoint`. */
  predicate Matches(cp: Option<Checkpoint>, o: CommitOutcome) {
    match cp
    case None => false
    case Some(NoSignalCheckpoint) => o.kind == NoSignalCommit
    case Some(ProposalCheckpoint(action, facts, next)) =>
      o.kind != NoSignalCommit && o.action == Some(action) && o.facts == Some(facts) && o.next == next
      && (o.kind == ApprovalCommit ==> o.hasTier)
  }

  datatype CommitReply = CommittedReply | CappedReply | BlockedReply

  /** `commitAgentRun`: the one atomic outcome of an execution; the exact same commit replays. */
  function Commit(c: Core, f: Fence, o: CommitOutcome, capReached: bool): (Core, Reply<CommitReply>) {
    if f.taskId !in c.tasks then (c, Refused(404))
    else if !OwnExecution(c, f) then (c, Refused(409))
    else
      var e := c.executions[f.attemptId];
      var t := c.tasks[f.taskId];
      if e.status == Committed then
        if e.outcome == Some(o) then (c, Ok(CommittedReply)) else (c, Refused(409))
      else if e.status == Abandoned || !Fenced(c, f) then (c, Refused(409))
      else if !InputUnchanged(c, f) then (Block(c, f.taskId), Ok(BlockedReply))
      else if !Matches(e.checkpoint, o) then (c, Refused(409))
      else if (o.kind == ApprovalCommit || o.kind == ExecutedCommit) && capReached then
        (c.(tasks := c.tasks[f.taskId := t.(status := Todo, runId := None, blocked := None)]), Ok(CappedReply))
      else if e.status != Checkpointed then (c, Refused(409))
      else
        (c.(tasks := c.tasks[f.taskId := t.(status := Done, runId := None, blocked := None)],
            executions := c.executions[f.attemptId := e.(status := Committed, outcome := Some(o))]),
         Ok(CommittedReply))
  }

  /** `releaseAgentRun` as it touches jobs: giving up with an unknown outcome closes open grants as unknown. */
  function Release(c: Core, f: Fence, outcomeUnknown: bool, blocked: Option<BlockReason>, dropAttempt: bool): Core {
    if !Fenced(c, f) then c
    else
      var t := c.tasks[f.taskId];
      var jobs := if outcomeUnknown && f.attemptId in c.executions && c.executions[f.attemptId].status == Active then
                    (map k | k in c.jobs :: if k.execution == f.attemptId && c.jobs[k].status == Dispatching
                                            then c.jobs[k].(status := UnknownOutcome, payload := None) else c.jobs[k])
                  else c.jobs;
      c.(jobs := jobs,
         tasks := c.tasks[f.taskId := t.(status := Todo, runId := None, blocked := blocked,
                                         attemptId := if dropAttempt then None else t.attemptId)])
  }

  /** Why a worker gives its claim back. */
  datatype ReleaseReason = BudgetRefused | OutcomeUnknown | PlanChanged | RouteUnavailable | ActionCapped | Unsupported
                         | SkillFailed

  predicate ActiveRun(c: Core, f: Fence) {
    f.attemptId in c.executions && c.executions[f.attemptId].status == Active
  }

  /** Some job of the active execution still waits for budget. */
  predicate WaitsForBudget(c: Core, f: Fence) {
    ActiveRun(c, f) && exists k :: k in c.jobs && k.execution == f.attemptId && c.jobs[k].status == WaitingBudget
  }

  /** The active execution has jobs, and every outcome is known. */
  predicate OutcomesKnown(c: Core, f: Fence) {
    ActiveRun(c, f) && (exists k :: k in c.jobs && k.execution == f.attemptId) && AllTerminal(c, f.attemptId)
  }

  /** The block that a release leaves on the task. */
  function BlockAfter(c: Core, f: Fence, reason: Option<ReleaseReason>, spent: bool): Option<BlockReason>
    requires f.taskId in c.tasks
  {
    var present := c.tasks[f.taskId].blocked;
    match reason
    case None => present
    case Some(BudgetRefused) => if spent && !WaitsForBudget(c, f) then Some(OtherReason) else None
    case Some(OutcomeUnknown) => if OutcomesKnown(c, f) then present else Some(ExecutionUnknown)
    case Some(RouteUnavailable) => if f.attemptId in c.executions then Some(OtherReason) else None
    case Some(ActionCapped) => None
    case Some(_) => Some(OtherReason)
  }

  /** `releaseAgentRun`; `spent` says whether the ledger knows a started spend of this attempt. */
  function ReleaseFor(c: Core, f: Fence, reason: Option<ReleaseReason>, spent: bool): Core {
    if !Fenced(c, f) then c
    else
      Release(c, f, reason == Some(OutcomeUnknown), BlockAfter(c, f, reason, spent),
              reason == Some(BudgetRefused) && !spent && !WaitsForBudget(c, f))
  }

  /** `retryBlockedAgentExecution`: the owner abandons the attempt; undispatched jobs are cancelled. */
  function OwnerRetry(c: Core, now: int, taskId: Id): Core {
    if taskId !in c.tasks || c.tasks[taskId].blocked.None?
       || c.tasks[taskId].status == Done || c.tasks[taskId].status == CancelledTask then c
    else
      var t := c.tasks[taskId];
      var open := t.(status := Todo, runId := None, blocked := None);
      if t.attemptId.None? || t.attemptId.value !in c.executions
         || c.executions[t.attemptId.value].status == Committed
         || c.executions[t.attemptId.value].status == Abandoned then
        c.(tasks := c.tasks[taskId := open.(attemptId := None)])
      else if exists k :: k in c.jobs && k.execution == t.attemptId.value && c.jobs[k].status == Dispatching
                          && c.jobs[k].deadline > now then c
      else
        var id := t.attemptId.value;
        var e := c.executions[id];
        var expired := map k | k in c.jobs :: if k.execution == id then Expire(c.jobs[k], now) else c.jobs[k];
        if e.status == Active && e.inputHash == t.inputHash && t.blocked == Some(ExecutionUnknown)
           && (exists k :: k in c.jobs && k.execution == id) && AllTerminal(c.(jobs := expired), id) then
          c.(tasks := c.tasks[taskId := open], jobs := expired)
        else
          c.(tasks := c.tasks[taskId := open.(attemptId := None)],
             executions := c.executions[id := e.(status := Abandoned)],
             jobs := map k | k in expired :: if k.execution == id
                                             && (expired[k].status == Ready || expired[k].status == WaitingBudget)
                                             then expired[k].(status := Cancelled, payload := None) else expired[k])
  }

  /** Anything else the owner or another part of Core does to a task row: edit, close, hand over, block. */
  function EditTask(c: Core, taskId: Id, t: Task): Core {
    c.(tasks := c.tasks[taskId := t])
  }

  // ── The invariant of the tables ──────────────────────────────────────────────

  /** Columns that must agree with the status of a job row. */
  predicate RowOk(j: Job) {
    && (j.payload.Some? ==> j.payload.value == j.operation.payload)
    && (j.status == WaitingBudget || j.status == Ready || j.status == Dispatching ==> j.payload.Some?)
    && (if j.status == WaitingBudget || j.status == Ready || j.status == Cancelled
        then j.token.None? && j.dispatches == 0 else j.token.Some? && j.dispatches == 1)
    && (j.status == Succeeded ==> j.result.Some? && !j.result.value.rejected)
    && (j.status == Rejected ==> j.result.Some? && j.result.value.rejected)
    && (j.status != Succeeded && j.status != Rejected ==> j.result.None?)
    && j.operation.payload.model == j.model && j.inputCeiling + j.outputCeiling <= MAX_CEILING
  }

  predicate JobOk(c: Core, k: JobKey)
    requires k in c.jobs
  {
    var j := c.jobs[k];
    && RowOk(j)
    && k.execution in c.executions
    && var e := c.executions[k.execution];
    && j.operation == OperationOf(k, e.workflowVersion, j.route, j.operation.payload)
    && Planned(e.plan, k.stepKey, k.attemptNo, j.route, j.model)
    && (e.status == Checkpointed || e.status == Committed ==> Terminal(j.status))
    && (k.attemptNo > 1 ==> Previous(k) in c.jobs && c.jobs[Previous(k)].status == Rejected)
  }

  predicate ExecutionOk(e: Execution) {
    && (e.status == Active ==> e.checkpoint.None?)
    && (e.status == Checkpointed || e.status == Committed ==> e.checkpoint.Some?)
    && (e.status == Committed <==> e.outcome.Some?)
    && (e.outcome.Some? ==> Matches(e.checkpoint, e.outcome.value))
  }

  predicate Inv(c: Core) {
    && (forall k {:trigger JobOk(c, k)} :: k in c.jobs ==> JobOk(c, k))
    && (forall id :: id in c.executions ==> ExecutionOk(c.executions[id]))
  }

  // ── How the tables may change ────────────────────────────────────────────────

  /** A job row keeps its operation for ever, its token and result once written, and a terminal status. */
  predicate JobMay(j: Job, j': Job) {
    && j'.operation == j.operation && j'.route == j.route && j'.model == j.model
    && j'.inputCeiling == j.inputCeiling && j'.outputCeiling == j.outputCeiling
    && (j.token.Some? ==> j'.token == j.token)
    && (j.result.Some? ==> j'.result == j.result)
    && (Terminal(j.status) ==> j'.status == j.status)
  }

  /** A checkpoint and a committed outcome, once written, stay; an execution never becomes active again. */
  predicate ExecutionMay(e: Execution, e': Execution) {
    && e'.taskId == e.taskId && e'.plan == e.plan && e'.workflowVersion == e.workflowVersion
    && (e.checkpoint.Some? ==> e'.checkpoint == e.checkpoint)
    && (e.outcome.Some? ==> e'.outcome == e.outcome)
    && (e.status != Active ==> e'.status != Active)
  }

  predicate Evolves(c: Core, c': Core) {
    && (forall k :: k in c.jobs ==> k in c'.jobs && JobMay(c.jobs[k], c'.jobs[k]))
    && (forall id :: id in c.executions ==> id in c'.executions && ExecutionMay(c.executions[id], c'.executions[id]))
    && (forall k :: k in c'.jobs && k !in c.jobs && k.execution in c.executions ==>
          c.executions[k.execution].status == Active)
  }

  /** The only token the change wrote, if any, is `t` on job `k`. */
  ghost predicate OnlyToken(c: Core, c': Core, k: JobKey, t: Token) {
    forall h :: h in c'.jobs && c'.jobs[h].token.Some? ==>
      (h in c.jobs && c.jobs[h].token == c'.jobs[h].token) || (h == k && c'.jobs[h].token == Some(t))
  }

  ghost predicate NoNewToken(c: Core, c': Core) {
    forall h :: h in c'.jobs && c'.jobs[h].token.Some? ==> h in c.jobs && c.jobs[h].token == c'.jobs[h].token
  }

  ghost predicate NoNewResult(c: Core, c': Core) {
    forall h :: h in c'.jobs && c'.jobs[h].result.Some? ==> h in c.jobs && c.jobs[h].result == c'.jobs[h].result
  }

  lemma EvolvesTransitive(a: Core, b: Core, c: Core)
    requires Evolves(a, b) && Evolves(b, c)
    ensures Evolves(a, c)
  {
    forall k | k in a.jobs ensures k in c.jobs && JobMay(a.jobs[k], c.jobs[k]) {
      assert k in b.jobs && JobMay(a.jobs[k], b.jobs[k]) && JobMay(b.jobs[k], c.jobs[k]);
    }
    forall id | id in a.executions ensures id in c.executions && ExecutionMay(a.executions[id], c.executions[id]) {
      assert id in b.executions && ExecutionMay(a.executions[id], b.executions[id])
             && ExecutionMay(b.executions[id], c.executions[id]);
    }
  }

  /** Changing only task rows keeps everything. */
  lemma TasksOnly(c: Core, c': Core)
    requires Inv(c) && c'.jobs == c.jobs && c'.executions == c.executions
    ensures Harmless(c, c')
  {
    forall k | k in c'.jobs ensures JobOk(c', k) { assert JobOk(c, k); }
  }

  /** Besides task rows, at most job `k` was written. */
  ghost predicate OneRow(c: Core, c': Core, k: JobKey) {
    c'.executions == c.executions && (c'.jobs == c.jobs || (k in c'.jobs && c'.jobs == c.jobs[k := c'.jobs[k]]))
  }

  lemma OtherRowKept(c: Core, c': Core, k: JobKey, h: JobKey)
    requires OneRow(c, c', k) && k in c'.jobs && h in c.jobs && h != k && JobOk(c, h)
    requires k in c.jobs && Terminal(c.jobs[k].status) ==> c'.jobs[k].status == c.jobs[k].status
    ensures h in c'.jobs && c'.jobs[h] == c.jobs[h] && JobOk(c', h)
  {
  }

  lemma OneRowEvolves(c: Core, c': Core, k: JobKey)
    requires OneRow(c, c', k) && k in c'.jobs
    requires if k in c.jobs then JobMay(c.jobs[k], c'.jobs[k])
             else k.execution in c.executions && c.executions[k.execution].status == Active
    ensures Evolves(c, c')
  {
    forall h | h in c.jobs ensures h in c'.jobs && JobMay(c.jobs[h], c'.jobs[h]) {
      if h != k { assert c'.jobs[h] == c.jobs[h]; }
    }
  }

  /** Writing one row that stays legal keeps the invariant. */
  lemma OneRowSafe(c: Core, c': Core, k: JobKey)
    requires Inv(c) && OneRow(c, c', k) && k in c'.jobs
    requires if k in c.jobs then JobMay(c.jobs[k], c'.jobs[k])
             else k.execution in c.executions && c.executions[k.execution].status == Active
    requires JobOk(c', k)
    ensures Inv(c') && Evolves(c, c')
  {
    OneRowEvolves(c, c', k);
    forall h | h in c'.jobs && h != k ensures JobOk(c', h) {
      assert h in c.jobs && JobOk(c, h);
      OtherRowKept(c, c', k, h);
    }
  }

  /** What `ensure` may do to the row of its attempt. */
  predicate EnsuredRow(c: Core, now: int, f: Fence, a: Attempt, j: Job)
    requires f.attemptId in c.executions
  {
    var k := JobKey(f.attemptId, a.stepKey, a.attemptNo);
    var e := c.executions[f.attemptId];
    && e.status == Active
    && a.payload.model == a.model && a.inputCeiling + a.outputCeiling <= MAX_CEILING
    && Planned(e.plan, a.stepKey, a.attemptNo, a.route, a.model)
    && j.operation == OperationOf(k, e.workflowVersion, a.route, a.payload)
    && (if k in c.jobs then
          j == Expire(c.jobs[k], now) || (c.jobs[k].status == WaitingBudget && j == c.jobs[k].(status := Ready))
        else
          && (a.attemptNo > 1 ==> Previous(k) in c.jobs && c.jobs[Previous(k)].status == Rejected)
          && (j.status == WaitingBudget || j.status == Ready)
          && j == Job(a.route, a.model, a.inputCeiling, a.outputCeiling, j.operation, Some(a.payload), j.status, None,
                      0, 0, None))
  }

  lemma EnsureShape(c: Core, now: int, f: Fence, a: Attempt, ledger: Ledger)
    ensures var (c', r) := Ensure(c, now, f, a, ledger);
            var k := JobKey(f.attemptId, a.stepKey, a.attemptNo);
            && OneRow(c, c', k)
            && (c'.jobs != c.jobs || r.Ok? ==>
                  k in c'.jobs && f.attemptId in c.executions && EnsuredRow(c, now, f, a, c'.jobs[k]))
            && (r.Ok? ==> r.value.key == k && r.value.operation == c'.jobs[k].operation
                          && r.value.status == c'.jobs[k].status
                          && (Terminal(r.value.status) ==> r.value.result == c'.jobs[k].result))
  {
    if f.taskId in c.tasks && Fenced(c, f) && OwnExecution(c, f) {
      var k := JobKey(f.attemptId, a.stepKey, a.attemptNo);
      var op := OperationOf(k, c.executions[f.attemptId].workflowVersion, a.route, a.payload);
      if k in c.jobs {
        AuthoriseShape(c, f, k, Expire(c.jobs[k], now), ledger);
      } else {
        AuthoriseShape(c, f, k, Job(a.route, a.model, a.inputCeiling, a.outputCeiling, op, Some(a.payload),
                                    WaitingBudget, None, 0, 0, None), ledger);
      }
    }
  }

  lemma AuthoriseShape(c: Core, f: Fence, k: JobKey, j: Job, ledger: Ledger)
    requires f.taskId in c.tasks
    ensures var (c', r) := Authorise(c, f, k, j, ledger);
            && OneRow(c, c', k)
            && (c'.jobs != c.jobs || r.Ok? ==>
                  k in c'.jobs && (c'.jobs[k] == j || (j.status == WaitingBudget && c'.jobs[k] == j.(status := Ready))))
            && (r.Ok? ==> r.value.key == k && r.value.operation == c'.jobs[k].operation
                          && r.value.status == c'.jobs[k].status
                          && (Terminal(r.value.status) ==> r.value.result == c'.jobs[k].result))
  {
  }

  /** `ensure` never writes a token or a result, and answers with the very operation that was asked for. */
  lemma EnsureSafe(c: Core, now: int, f: Fence, a: Attempt, ledger: Ledger)
    requires Inv(c)
    ensures var (c', r) := Ensure(c, now, f, a, ledger);
            && Harmless(c, c')
            && (r.Ok? ==>
                  && r.value.key == JobKey(f.attemptId, a.stepKey, a.attemptNo)
                  && Shows(c', r.value.key, r.value.operation, r.value.status, r.value.result)
                  && r.value.operation.payload == a.payload)
  {
    EnsureShape(c, now, f, a, ledger);
    var (c', r) := Ensure(c, now, f, a, ledger);
    var k := JobKey(f.attemptId, a.stepKey, a.attemptNo);
    if c'.jobs == c.jobs {
      TasksOnly(c, c');
    } else {
      EnsuredRowSafe(c, c', now, f, a);
    }
  }

  lemma EnsuredRowSafe(c: Core, c': Core, now: int, f: Fence, a: Attempt)
    requires Inv(c) && f.attemptId in c.executions
    requires var k := JobKey(f.attemptId, a.stepKey, a.attemptNo);
             OneRow(c, c', k) && k in c'.jobs && EnsuredRow(c, now, f, a, c'.jobs[k])
    ensures Harmless(c, c')
  {
    var k := JobKey(f.attemptId, a.stepKey, a.attemptNo);
    if k in c.jobs { assert JobOk(c, k); }
    OneRowSafe(c, c', k);
  }

  /** A reply that reports the row of `k` as it stands in `c`. */
  ghost predicate Shows(c: Core, k: JobKey, op: Operation, status: JobStatus, result: Option<StoredResult>) {
    k in c.jobs && c.jobs[k].operation == op && c.jobs[k].status == status &&
    (Terminal(status) ==> result == c.jobs[k].result)
  }

  /** What `claimDispatch` may do to a row: expire the grant, or write the first one. */
  predicate ClaimedRow(c: Core, now: int, k: JobKey, token: Token, j: Job) {
    && k in c.jobs && k.execution in c.executions && c.executions[k.execution].status == Active
    && (j == Expire(c.jobs[k], now) ||
        (c.jobs[k].status == Ready &&
         j == c.jobs[k].(status := Dispatching, dispatches := 1, token := Some(token),
                         deadline := now + DISPATCH_GRANT_MS)))
  }

  lemma ClaimShape(c: Core, now: int, f: Fence, k: JobKey, token: Token, reauthorised: bool)
    ensures var (c', r) := Claim(c, now, f, k, token, reauthorised);
            && OneRow(c, c', k)
            && (c'.jobs != c.jobs ==> k in c'.jobs && ClaimedRow(c, now, k, token, c'.jobs[k]))
            && (r.Ok? ==> k in c'.jobs && c'.jobs[k].operation == r.value.operation
                          && c'.jobs[k].status == r.value.status
                          && (r.value.status == Succeeded || r.value.status == Rejected ==>
                                r.value.result == c'.jobs[k].result)
                          && (r.value.status == Cancelled ==> r.value.result.None?))
            && (r.Ok? && r.value.granted ==>
                  c'.jobs[k].status == Dispatching && c'.jobs[k].token == Some(token)
                  && r.value.payload == c'.jobs[k].payload)
  {
  }

  lemma ClaimedRowSafe(c: Core, c': Core, now: int, k: JobKey, token: Token)
    requires Inv(c) && OneRow(c, c', k) && k in c'.jobs && ClaimedRow(c, now, k, token, c'.jobs[k])
    ensures Inv(c') && Evolves(c, c') && OnlyToken(c, c', k, token) && NoNewResult(c, c')
  {
    assert JobOk(c, k);
    OneRowSafe(c, c', k);
  }

  /** `claimDispatch` writes at most its own token, and a grant names that token, operation and payload. */
  lemma ClaimSafe(c: Core, now: int, f: Fence, k: JobKey, token: Token, reauthorised: bool)
    requires Inv(c)
    ensures var (c', r) := Claim(c, now, f, k, token, reauthorised);
            && Inv(c') && Evolves(c, c') && OnlyToken(c, c', k, token) && NoNewResult(c, c')
            && (r.Ok? ==> Shows(c', k, r.value.operation, r.value.status, r.value.result))
            && (r.Ok? && r.value.granted ==>
                  c'.jobs[k].token == Some(token) && r.value.payload == Some(c'.jobs[k].operation.payload))
  {
    ClaimShape(c, now, f, k, token, reauthorised);
    var c' := Claim(c, now, f, k, token, reauthorised).0;
    if c'.jobs == c.jobs { TasksOnly(c, c'); } else { ClaimedRowSafe(c, c', now, k, token); }
    if k in c'.jobs { assert JobOk(c', k); }
  }

  /** What `complete` may do to the row of its token's owner: close it as unknown, or write the evidence. */
  predicate CompletedRow(c: Core, k: JobKey, token: Token, done: Completion, j: Job) {
    && k in c.jobs && k.execution in c.executions && c.jobs[k].token == Some(token)
    && (c.jobs[k].status == Dispatching || c.jobs[k].status == UnknownOutcome)
    && (j == c.jobs[k].(status := UnknownOutcome, payload := None) ||
        (Proves(done, j) && j == c.jobs[k].(status := if j.result.value.rejected then Rejected else Succeeded,
                                            payload := None, result := j.result)))
  }

  lemma CompleteShape(c: Core, taskId: Id, k: JobKey, token: Token, done: Completion)
    ensures var (c', r) := Complete(c, taskId, k, token, done);
            && OneRow(c, c', k)
            && (c'.jobs != c.jobs ==> k in c'.jobs && CompletedRow(c, k, token, done, c'.jobs[k]))
            && (r.Ok? ==> k in c'.jobs && c'.jobs[k].token == Some(token) && c'.jobs[k].status == r.value.status
                          && (r.value.status != Cancelled && Terminal(r.value.status) ==>
                                r.value.result == c'.jobs[k].result))
  {
  }

  lemma CompletedRowSafe(c: Core, c': Core, k: JobKey, token: Token, done: Completion)
    requires Inv(c) && OneRow(c, c', k) && k in c'.jobs && CompletedRow(c, k, token, done, c'.jobs[k])
    ensures Inv(c') && Evolves(c, c') && NoNewToken(c, c') && OnlyResult(c, c', k, token, done)
  {
    assert JobOk(c, k);
    OneRowSafe(c, c', k);
  }

  /** `complete` writes at most the canonical evidence it was given, and only for the token's owner. */
  lemma CompleteSafe(c: Core, taskId: Id, k: JobKey, token: Token, done: Completion)
    requires Inv(c)
    ensures var (c', r) := Complete(c, taskId, k, token, done);
            && Inv(c') && Evolves(c, c') && NoNewToken(c, c') && OnlyResult(c, c', k, token, done)
            && (r.Ok? ==> Shows(c', k, c'.jobs[k].operation, r.value.status, r.value.result)
                          && c'.jobs[k].token == Some(token))
  {
    CompleteShape(c, taskId, k, token, done);
    var c' := Complete(c, taskId, k, token, done).0;
    if c'.jobs == c.jobs { TasksOnly(c, c'); } else { CompletedRowSafe(c, c', k, token, done); }
    if k in c'.jobs { assert JobOk(c', k); }
  }

  /** The only result the change wrote, if any, is the evidence of `done` for the holder of `token`. */
  ghost predicate OnlyResult(c: Core, c': Core, k: JobKey, token: Token, done: Completion) {
    forall h :: h in c'.jobs && c'.jobs[h].result.Some? ==>
      (h in c.jobs && c.jobs[h].result == c'.jobs[h].result) ||
      (h == k && c'.jobs[h].token == Some(token) && Proves(done, c'.jobs[h]))
  }

  /** The stored result of `j` is Core's canonical form of the completion `done`. */
  predicate Proves(done: Completion, j: Job) {
    done.outcome != Unknown && done.result.Some? && j.result.Some? &&
    j.result.value.rejected == (done.outcome == Rejection) &&
    Canonical(j.route.kind, done.outcome == Rejection, done.result.value) == Some(j.result.value.payload)
  }

  ghost predicate Harmless(c: Core, c': Core) {
    Inv(c') && Evolves(c, c') && NoNewToken(c, c') && NoNewResult(c, c')
  }

  lemma ClaimTaskSafe(c: Core, taskId: Id, agent: string, freshRun: Id, freshAttempt: Id)
    requires Inv(c)
    ensures Harmless(c, ClaimTask(c, taskId, agent, freshRun, freshAttempt))
  {
    TasksOnly(c, ClaimTask(c, taskId, agent, freshRun, freshAttempt));
  }

  /** Besides task rows, at most execution `id` was written. */
  ghost predicate OneExecution(c: Core, c': Core, id: Id) {
    c'.jobs == c.jobs && (c'.executions == c.executions
                          || (id in c'.executions && c'.executions == c.executions[id := c'.executions[id]]))
  }

  lemma JobUnderExecution(c: Core, c': Core, id: Id, k: JobKey)
    requires k in c.jobs && JobOk(c, k) && OneExecution(c, c', id) && id in c'.executions
    requires id in c.executions ==> ExecutionMay(c.executions[id], c'.executions[id])
    requires c'.executions[id].status == Checkpointed || c'.executions[id].status == Committed ==> AllTerminal(c, id)
    ensures JobOk(c', k)
  {
  }

  lemma OneExecutionEvolves(c: Core, c': Core, id: Id)
    requires OneExecution(c, c', id) && id in c'.executions
    requires id in c.executions ==> ExecutionMay(c.executions[id], c'.executions[id])
    ensures Evolves(c, c') && NoNewToken(c, c') && NoNewResult(c, c')
  {
  }

  lemma OneExecutionSafe(c: Core, c': Core, id: Id)
    requires Inv(c) && OneExecution(c, c', id) && id in c'.executions
    requires id in c.executions ==> ExecutionMay(c.executions[id], c'.executions[id])
    requires ExecutionOk(c'.executions[id])
    requires c'.executions[id].status == Checkpointed || c'.executions[id].status == Committed ==> AllTerminal(c, id)
    ensures Harmless(c, c')
  {
    OneExecutionEvolves(c, c', id);
    forall k | k in c'.jobs ensures JobOk(c', k) {
      assert JobOk(c, k);
      JobUnderExecution(c, c', id, k);
    }
  }

  lemma StartSafe(c: Core, f: Fence, hash: nat, skill: string, version: nat, plan: seq<PlanStep>)
    requires Inv(c)
    ensures Harmless(c, Start(c, f, hash, skill, version, plan).0)
  {
    var c' := Start(c, f, hash, skill, version, plan).0;
    assert OneExecution(c, c', f.attemptId);
    if c'.executions == c.executions { TasksOnly(c, c'); } else { OneExecutionSafe(c, c', f.attemptId); }
  }

  lemma SaveCheckpointSafe(c: Core, f: Fence, skill: string, cp: Checkpoint)
    requires Inv(c)
    ensures Harmless(c, SaveCheckpoint(c, f, skill, cp).0)
  {
    var c' := SaveCheckpoint(c, f, skill, cp).0;
    assert OneExecution(c, c', f.attemptId);
    if c'.executions == c.executions { TasksOnly(c, c'); } else { OneExecutionSafe(c, c', f.attemptId); }
  }

  lemma CommitSafe(c: Core, f: Fence, o: CommitOutcome, capReached: bool)
    requires Inv(c)
    ensures Harmless(c, Commit(c, f, o, capReached).0)
  {
    var c' := Commit(c, f, o, capReached).0;
    assert OneExecution(c, c', f.attemptId);
    if c'.executions == c.executions {
      TasksOnly(c, c');
    } else {
      assert c.executions[f.attemptId].status == Checkpointed;
      forall k | k in c.jobs && k.execution == f.attemptId ensures Terminal(c.jobs[k].status) { assert JobOk(c, k); }
      OneExecutionSafe(c, c', f.attemptId);
    }
  }

  /** What giving up may do to a row: an open grant becomes unknown, an unused row is cancelled. */
  predicate GivenUp(j: Job, j': Job) {
    j' == j
    || (j.status == Dispatching && j' == j.(status := UnknownOutcome, payload := None))
    || ((j.status == Ready || j.status == WaitingBudget) && j' == j.(status := Cancelled, payload := None))
  }

  lemma GivenUpRow(j: Job, j': Job)
    requires RowOk(j) && GivenUp(j, j')
    ensures RowOk(j') && JobMay(j, j')
    ensures Terminal(j.status) ==> j' == j
    ensures j'.token == j.token && j'.result == j.result
  {
  }

  predicate MaybeAbandoned(e: Execution, e': Execution) {
    e' == e || ((e.status == Active || e.status == Checkpointed) && e' == e.(status := Abandoned))
  }

  lemma GivenUpJob(c: Core, c': Core, k: JobKey)
    requires k in c.jobs && JobOk(c, k) && c'.jobs.Keys == c.jobs.Keys
    requires GivenUp(c.jobs[k], c'.jobs[k])
    requires k.execution in c'.executions && MaybeAbandoned(c.executions[k.execution], c'.executions[k.execution])
    requires k.attemptNo > 1 ==> GivenUp(c.jobs[Previous(k)], c'.jobs[Previous(k)])
    ensures JobOk(c', k) && JobMay(c.jobs[k], c'.jobs[k])
    ensures c'.jobs[k].token == c.jobs[k].token && c'.jobs[k].result == c.jobs[k].result
  {
    GivenUpRow(c.jobs[k], c'.jobs[k]);
  }

  lemma AbandonedExecution(e: Execution, e': Execution)
    requires ExecutionOk(e) && MaybeAbandoned(e, e')
    ensures ExecutionOk(e') && ExecutionMay(e, e')
  {
  }

  lemma GivenUpSafe(c: Core, c': Core)
    requires Inv(c) && c'.jobs.Keys == c.jobs.Keys && c'.executions.Keys == c.executions.Keys
    requires forall k :: k in c.jobs ==> GivenUp(c.jobs[k], c'.jobs[k])
    requires forall id :: id in c.executions ==> MaybeAbandoned(c.executions[id], c'.executions[id])
    ensures Harmless(c, c')
  {
    hide RowOk, Planned, JobMay, ExecutionOk, ExecutionMay, GivenUp, MaybeAbandoned;
    forall k | k in c'.jobs
      ensures JobOk(c', k) && JobMay(c.jobs[k], c'.jobs[k])
      ensures c'.jobs[k].token == c.jobs[k].token && c'.jobs[k].result == c.jobs[k].result
    {
      assert k in c.jobs && JobOk(c, k);
      GivenUpJob(c, c', k);
    }
    forall id | id in c'.executions
      ensures ExecutionOk(c'.executions[id]) && ExecutionMay(c.executions[id], c'.executions[id])
    {
      assert id in c.executions;
      AbandonedExecution(c.executions[id], c'.executions[id]);
    }
  }

  /** Giving up loses no token or result; with an unknown outcome exactly the open grants close as unknown. */
  lemma ReleaseSafe(c: Core, f: Fence, outcomeUnknown: bool, blocked: Option<BlockReason>, dropAttempt: bool)
    requires Inv(c)
    ensures var c' := Release(c, f, outcomeUnknown, blocked, dropAttempt);
            && Harmless(c, c')
            && c'.executions == c.executions && c'.jobs.Keys == c.jobs.Keys
            && forall k :: k in c.jobs ==>
                 c'.jobs[k] == if Closes(c, f, outcomeUnknown, k)
                               then c.jobs[k].(status := UnknownOutcome, payload := None)
                               else c.jobs[k]
  {
    GivenUpSafe(c, Release(c, f, outcomeUnknown, blocked, dropAttempt));
  }

  /** An open grant of the fenced run's active execution, given up with an unknown outcome. */
  predicate Closes(c: Core, f: Fence, outcomeUnknown: bool, k: JobKey)
    requires k in c.jobs
  {
    Fenced(c, f) && outcomeUnknown && f.attemptId in c.executions && c.executions[f.attemptId].status == Active
    && k.execution == f.attemptId && c.jobs[k].status == Dispatching
  }

  /** A release for an unknown outcome leaves no grant open, and any other one leaves every job as it is. */
  lemma ReleaseClosesGrants(c: Core, f: Fence, reason: Option<ReleaseReason>, spent: bool)
    requires Inv(c) && Fenced(c, f)
    ensures var c' := ReleaseFor(c, f, reason, spent);
            && Harmless(c, c')
            && (reason == Some(OutcomeUnknown) && ActiveRun(c, f) ==>
                  forall k :: k in c'.jobs && k.execution == f.attemptId ==> c'.jobs[k].status != Dispatching)
            && (reason != Some(OutcomeUnknown) ==> c'.jobs == c.jobs)
  {
    ReleaseSafe(c, f, reason == Some(OutcomeUnknown), BlockAfter(c, f, reason, spent),
                reason == Some(BudgetRefused) && !spent && !WaitsForBudget(c, f));
  }

  /**
   * A released run is fenced off. Where the owner is needed nobody can take the task up; elsewhere the next run goes on
   * with the same execution attempt, unless the budget was refused before anything was spent.
   */
  lemma ReleaseDecides(c: Core, f: Fence, reason: Option<ReleaseReason>, spent: bool, freshRun: Id, freshAttempt: Id)
    requires Fenced(c, f) && c.tasks[f.taskId].blocked.None?
    ensures var c' := ReleaseFor(c, f, reason, spent);
            var next := ClaimTask(c', f.taskId, f.agent, freshRun, freshAttempt);
            var rows := set k | k in c.jobs && k.execution == f.attemptId && ActiveRun(c, f) :: c.jobs[k].status;
            var known := rows != {} && rows <= {Succeeded, Rejected, Cancelled};
            var needsOwner := match reason
                              case None => false
                              case Some(PlanChanged) => true
                              case Some(Unsupported) => true
                              case Some(SkillFailed) => true
                              case Some(ActionCapped) => false
                              case Some(OutcomeUnknown) => !known
                              case Some(RouteUnavailable) => f.attemptId in c.executions
                              case Some(BudgetRefused) => spent && WaitingBudget !in rows;
            var anew := reason == Some(BudgetRefused) && !spent && WaitingBudget !in rows;
            && !Fenced(c', f)
            && if needsOwner then next == c'
               else Fenced(next, f.(runId := freshRun, attemptId := if anew then freshAttempt else f.attemptId))
  {
    RowsOfRun(c, f);
  }

  lemma RowsOfRun(c: Core, f: Fence)
    ensures var rows := set k | k in c.jobs && k.execution == f.attemptId && ActiveRun(c, f) :: c.jobs[k].status;
            && (WaitsForBudget(c, f) <==> WaitingBudget in rows)
            && (OutcomesKnown(c, f) <==> rows != {} && rows <= {Succeeded, Rejected, Cancelled})
  {
    var rows := set k | k in c.jobs && k.execution == f.attemptId && ActiveRun(c, f) :: c.jobs[k].status;
    forall k | k in c.jobs && k.execution == f.attemptId && ActiveRun(c, f) ensures c.jobs[k].status in rows {
    }
    if rows <= {Succeeded, Rejected, Cancelled} && ActiveRun(c, f) {
      forall k | k in c.jobs && k.execution == f.attemptId ensures Terminal(c.jobs[k].status) {
        assert c.jobs[k].status in rows;
      }
    }
  }

  lemma OwnerRetrySafe(c: Core, now: int, taskId: Id)
    requires Inv(c)
    ensures Harmless(c, OwnerRetry(c, now, taskId))
  {
    GivenUpSafe(c, OwnerRetry(c, now, taskId));
  }

  lemma EditTaskSafe(c: Core, taskId: Id, t: Task)
    requires Inv(c)
    ensures Harmless(c, EditTask(c, taskId, t))
  {
    TasksOnly(c, EditTask(c, taskId, t));
  }

  // ── Fencing ──────────────────────────────────────────────────────────────────

  /** A worker whose run lost the lease changes nothing and is told so. */
  lemma StaleFenceChangesNothing(c: Core, now: int, f: Fence, a: Attempt, ledger: Ledger, k: JobKey, token: Token,
                                 reauthorised: bool)
    requires !Fenced(c, f)
    ensures Ensure(c, now, f, a, ledger).0 == c && Ensure(c, now, f, a, ledger).1.Refused?
    ensures Claim(c, now, f, k, token, reauthorised).0 == c && Claim(c, now, f, k, token, reauthorised).1.Refused?
  {
  }

  lemma StaleFenceWritesNoOutcome(c: Core, f: Fence, hash: nat, skill: string, version: nat, plan: seq<PlanStep>,
                                  cp: Checkpoint,
                                  o: CommitOutcome, cap: bool, unknown: bool, blocked: Option<BlockReason>, drop: bool)
    requires !Fenced(c, f)
    ensures Start(c, f, hash, skill, version, plan).0 == c && SaveCheckpoint(c, f, skill, cp).0 == c
    ensures Commit(c, f, o, cap).0 == c && Release(c, f, unknown, blocked, drop) == c
    ensures Commit(c, f, o, cap).1.Ok? ==> c.executions[f.attemptId].outcome == Some(o)
    ensures f.taskId in c.tasks ==> Start(c, f, hash, skill, version, plan).1 == Refused(409)
                                    && SaveCheckpoint(c, f, skill, cp).1 == Refused(409)
                                    && (Commit(c, f, o, cap).1.Ok? || Commit(c, f, o, cap).1 == Refused(409))
  {
  }

  /** A takeover with a new run makes every earlier fence of the task stale, and keeps the attempt. */
  lemma TakeOverFences(c: Core, taskId: Id, agent: string, freshRun: Id, freshAttempt: Id, f: Fence)
    requires ClaimTask(c, taskId, agent, freshRun, freshAttempt) != c && f.taskId == taskId && f.runId != freshRun
    ensures var c' := ClaimTask(c, taskId, agent, freshRun, freshAttempt);
            && !Fenced(c', f)
            && (Fenced(c, f) ==> Fenced(c', f.(runId := freshRun, agent := agent)) && c'.executions == c.executions)
  {
  }

  /** A blocked task cannot be taken up by anyone, and its present run is fenced off. */
  lemma BlockedStays(c: Core, taskId: Id, agent: string, freshRun: Id, freshAttempt: Id, f: Fence)
    requires taskId in c.tasks && f.taskId == taskId
    ensures ClaimTask(Block(c, taskId), taskId, agent, freshRun, freshAttempt) == Block(c, taskId)
    ensures !Fenced(Block(c, taskId), f)
  {
  }

  // ── Exact replay ─────────────────────────────────────────────────────────────

  /** The row was written for this very attempt. */
  predicate SameAttempt(j: Job, a: Attempt) {
    && j.route == a.route && j.model == a.model && j.operation.payload == a.payload
    && j.inputCeiling == a.inputCeiling && j.outputCeiling == a.outputCeiling
  }

  /** The run is still the owner of an active execution on unchanged input. */
  predicate Open(c: Core, f: Fence) {
    && Fenced(c, f) && OwnExecution(c, f)
    && c.executions[f.attemptId].status == Active && InputUnchanged(c, f)
  }

  /** Asking again for an attempt whose outcome is known reports that outcome and leaves Core alone. */
  lemma EnsureReplays(c: Core, now: int, f: Fence, a: Attempt, ledger: Ledger)
    requires var k := JobKey(f.attemptId, a.stepKey, a.attemptNo);
             Inv(c) && Open(c, f) && k in c.jobs && c.jobs[k].result.Some? && SameAttempt(c.jobs[k], a)
    ensures var k := JobKey(f.attemptId, a.stepKey, a.attemptNo);
            var j := c.jobs[k];
            && Ensure(c, now, f, a, ledger) == (c, Ok(EnsureReply(k, j.status, j.operation, j.result, false)))
            && j.status == if j.result.value.rejected then Rejected else Succeeded
  {
    var k := JobKey(f.attemptId, a.stepKey, a.attemptNo);
    assert JobOk(c, k);
    assert PutJob(c, k, c.jobs[k]) == c;
  }

  /** A grant asked for again with its token before its deadline is the same grant. */
  lemma ClaimReplays(c: Core, now: int, f: Fence, k: JobKey, token: Token, reauthorised: bool, later: int, again: bool)
    requires var (c', r) := Claim(c, now, f, k, token, reauthorised);
             r.Ok? && r.value.granted && k in c'.jobs && later < c'.jobs[k].deadline
    ensures var (c', r) := Claim(c, now, f, k, token, reauthorised);
            Claim(c', later, f, k, token, again) == (c', r)
  {
  }

  /** A completion repeated verbatim is confirmed again and changes nothing. */
  lemma CompleteReplays(c: Core, taskId: Id, k: JobKey, token: Token, done: Completion)
    requires Inv(c) && Complete(c, taskId, k, token, done).1.Ok?
    ensures var (c', r) := Complete(c, taskId, k, token, done);
            Complete(c', taskId, k, token, done) == (c', r)
  {
    if k in c.jobs { assert JobOk(c, k); }
  }

  /** The same checkpoint is confirmed again; a different one is refused without a trace. */
  lemma CheckpointReplays(c: Core, f: Fence, skill: string, cp: Checkpoint, other: Checkpoint)
    requires SaveCheckpoint(c, f, skill, cp).1.Ok?
    ensures var c' := SaveCheckpoint(c, f, skill, cp).0;
            && SaveCheckpoint(c', f, skill, cp) == (c', Ok(cp))
            && (other != cp ==> SaveCheckpoint(c', f, skill, other) == (c', Refused(409)))
  {
  }

  /** The same outcome is confirmed again for ever; a different one is refused without a trace. */
  lemma CommitReplays(c: Core, f: Fence, o: CommitOutcome, cap: bool, other: CommitOutcome)
    requires Commit(c, f, o, cap).1 == Ok(CommittedReply)
    ensures var c' := Commit(c, f, o, cap).0;
            && Commit(c', f, o, cap) == (c', Ok(CommittedReply))
            && (other != o ==> Commit(c', f, other, cap) == (c', Refused(409)))
  {
  }

  // ── A fresh attempt ──────────────────────────────────────────────────────────

  /** The run may ask for this attempt now: it is planned, and its row is absent or still waits to be dispatched. */
  predicate Askable(c: Core, f: Fence, a: Attempt) {
    && Open(c, f) && Planned(c.executions[f.attemptId].plan, a.stepKey, a.attemptNo, a.route, a.model)
    && a.payload.model == a.model && a.inputCeiling + a.outputCeiling <= MAX_CEILING
    && var k := JobKey(f.attemptId, a.stepKey, a.attemptNo);
       if k in c.jobs then (c.jobs[k].status == Ready || c.jobs[k].status == WaitingBudget) && SameAttempt(c.jobs[k], a)
       else a.attemptNo > 1 ==> Previous(k) in c.jobs && c.jobs[Previous(k)].status == Rejected
  }

  /** The run still owns its execution, of which at most row `k` has changed. */
  ghost predicate OnlyRowMoved(c: Core, c': Core, f: Fence, k: JobKey) {
    && Open(c', f) && f.attemptId in c.executions && c'.executions[f.attemptId] == c.executions[f.attemptId]
    && forall h: JobKey {:trigger h in c.jobs} {:trigger h in c'.jobs} :: h.execution == f.attemptId && h != k ==>
         (h in c.jobs <==> h in c'.jobs) && (h in c.jobs ==> c'.jobs[h] == c.jobs[h])
  }

  /** With the budget granted, asking makes the row ready and says so. */
  lemma EnsureReadies(c: Core, now: int, f: Fence, a: Attempt)
    requires Inv(c) && Askable(c, f, a)
    ensures var k := JobKey(f.attemptId, a.stepKey, a.attemptNo);
            var (c', r) := Ensure(c, now, f, a, Granted);
            && Inv(c') && k in c'.jobs && c'.jobs[k].status == Ready && SameAttempt(c'.jobs[k], a)
            && r == Ok(EnsureReply(k, Ready, c'.jobs[k].operation, None, false))
            && OnlyRowMoved(c, c', f, k)
  {
    var k := JobKey(f.attemptId, a.stepKey, a.attemptNo);
    if k in c.jobs { assert JobOk(c, k); }
    EnsureSafe(c, now, f, a, Granted);
  }

  /** A ready row is granted to the first token that claims it, with its own payload. */
  lemma ClaimGrants(c: Core, now: int, f: Fence, k: JobKey, token: Token)
    requires Inv(c) && Open(c, f) && k in c.jobs && k.execution == f.attemptId && c.jobs[k].status == Ready
    ensures var (c', r) := Claim(c, now, f, k, token, true);
            var j := c.jobs[k];
            && Inv(c') && k in c'.jobs && OnlyRowMoved(c, c', f, k)
            && c'.jobs[k] == j.(status := Dispatching, dispatches := 1, token := Some(token), deadline := now + 120000)
            && r == Ok(ClaimReply(true, Dispatching, j.operation, Some(j.operation.payload), None))
  {
    assert JobOk(c, k);
    ClaimSafe(c, now, f, k, token, true);
  }

  /** What a row becomes with evidence. */
  function WithEvidence(j: Job, result: StoredResult): Job {
    j.(status := if result.rejected then Rejected else Succeeded, payload := None, result := Some(result))
  }

  lemma CompleteWrites(c: Core, f: Fence, k: JobKey, token: Token, done: Completion)
    requires Open(c, f) && k in c.jobs && k.execution == f.attemptId
    requires c.jobs[k].status == Dispatching && c.jobs[k].token == Some(token)
             && c.jobs[k].dispatches == 1 && c.jobs[k].result.None?
    requires done.outcome != Unknown && done.result.Some?
    ensures var (c', r) := Complete(c, f.taskId, k, token, done);
            var evidence := Canonical(c.jobs[k].route.kind, done.outcome == Rejection, done.result.value);
            if evidence.None? then (c', r) == (c, Refused(400))
            else
              var stored := StoredResult(done.outcome == Rejection, evidence.value);
              && Open(c', f) && c'.executions == c.executions && c'.jobs == c.jobs[k := WithEvidence(c.jobs[k], stored)]
              && r == Ok(CompleteReply(if stored.rejected then Rejected else Succeeded, Some(stored)))
  {
  }

  /** Evidence that Core accepts from the grant's holder is stored and confirmed; other evidence leaves no trace. */
  lemma CompleteStores(c: Core, f: Fence, k: JobKey, token: Token, done: Completion)
    requires Inv(c) && Open(c, f) && k in c.jobs && k.execution == f.attemptId
    requires c.jobs[k].status == Dispatching && c.jobs[k].token == Some(token)
    requires done.outcome != Unknown && done.result.Some?
    ensures var (c', r) := Complete(c, f.taskId, k, token, done);
            var evidence := Canonical(c.jobs[k].route.kind, done.outcome == Rejection, done.result.value);
            if evidence.None? then (c', r) == (c, Refused(400))
            else
              var stored := StoredResult(done.outcome == Rejection, evidence.value);
              && Inv(c') && k in c'.jobs && c'.jobs[k] == WithEvidence(c.jobs[k], stored) && OnlyRowMoved(c, c', f, k)
              && r == Ok(CompleteReply(c'.jobs[k].status, Some(stored)))
  {
    assert JobOk(c, k);
    CompleteWrites(c, f, k, token, done);
    CompleteSafe(c, f.taskId, k, token, done);
  }

  /** Without evidence the row closes as unknown. */
  lemma CompleteCloses(c: Core, f: Fence, k: JobKey, token: Token)
    requires Inv(c) && Open(c, f) && k in c.jobs && k.execution == f.attemptId
    requires c.jobs[k].status == Dispatching && c.jobs[k].token == Some(token)
    ensures var (c', r) := Complete(c, f.taskId, k, token, Completion(Unknown, None));
            && Inv(c') && k in c'.jobs && c'.jobs[k].status == UnknownOutcome && OnlyRowMoved(c, c', f, k)
            && r == Ok(CompleteReply(UnknownOutcome, None))
  {
    assert JobOk(c, k);
    CompleteSafe(c, f.taskId, k, token, Completion(Unknown, None));
  }

  /** Everything in a rejection but its status is in order. */
  predicate RejectionInOrder(e: Evidence) {
    && e.error.Some? && e.error.value.Str? && ErrorWithin(e.error.value.s) && UsageOk(e.usage)
    && (e.requestId.Some? ==> BoundedText(e.requestId, 256))
       && (e.resolvedModel.Some? ==> BoundedText(e.resolvedModel, 192))
    && (e.reportedUsd.Some? ==> NumberField(e.reportedUsd).Some?)
  }

  /** A dispatched job is closed as rejected exactly for a status that proves it; any other one leaves Core alone. */
  lemma StatusDecides(c: Core, taskId: Id, k: JobKey, token: Token, e: Evidence)
    requires Inv(c) && k in c.jobs && c.jobs[k].status == Dispatching && c.jobs[k].token == Some(token)
    requires taskId in c.tasks && k.execution in c.executions && c.executions[k.execution].taskId == taskId
    requires RejectionInOrder(e)
    ensures var (c', r) := Complete(c, taskId, k, token, Completion(Rejection, Some(e)));
            if ProvingStatus(e.statusCode) then
              && k in c'.jobs && c'.jobs[k].status == Rejected && c'.jobs[k].result.Some?
              && r == Ok(CompleteReply(Rejected, c'.jobs[k].result))
              && var stored := c'.jobs[k].result.value;
                 stored.rejected && stored.payload.statusCode == e.statusCode
                 && stored.payload.error == Some(Str(Trim(e.error.value.s)))
            else (c', r) == (c, Refused(400))
  {
    assert JobOk(c, k);
    ProvingStatuses(e.statusCode);
  }

  /** The attempt after this one, with the next model of the plan. */
  predicate Follows(c: Core, f: Fence, k: JobKey, a: Attempt)
    requires f.attemptId in c.executions
  {
    && a.stepKey == k.stepKey && a.attemptNo == k.attemptNo + 1
    && Planned(c.executions[f.attemptId].plan, a.stepKey, a.attemptNo, a.route, a.model)
    && a.payload.model == a.model && a.inputCeiling + a.outputCeiling <= MAX_CEILING
    && JobKey(f.attemptId, a.stepKey, a.attemptNo) !in c.jobs
  }

  /** Such a rejection opens the next planned attempt; after any other status asking for it blocks the task. */
  lemma RejectionOpensNext(c: Core, f: Fence, k: JobKey, token: Token, e: Evidence, now: int, a: Attempt)
    requires Inv(c) && Open(c, f) && k in c.jobs && k.execution == f.attemptId
    requires c.jobs[k].status == Dispatching && c.jobs[k].token == Some(token)
    requires RejectionInOrder(e) && k.attemptNo >= 1 && Follows(c, f, k, a)
    ensures var c' := Complete(c, f.taskId, k, token, Completion(Rejection, Some(e))).0;
            var (c'', r) := Ensure(c', now, f, a, Granted);
            var next := JobKey(f.attemptId, a.stepKey, a.attemptNo);
            if ProvingStatus(e.statusCode) then
              next in c''.jobs && r == Ok(EnsureReply(next, Ready, c''.jobs[next].operation, None, false))
            else r == Refused(409) && !Fenced(c'', f)
  {
    var done := Completion(Rejection, Some(e));
    StatusDecides(c, f.taskId, k, token, e);
    CompleteStores(c, f, k, token, done);
    if ProvingStatus(e.statusCode) {
      var c' := Complete(c, f.taskId, k, token, done).0;
      assert Previous(JobKey(f.attemptId, a.stepKey, a.attemptNo)) == k;
      EnsureReadies(c', now, f, a);
    }
  }

  // ── What is granted, and when ────────────────────────────────────────────────

  /**
   * The ledger decides what becomes of a fresh attempt: a denial leaves it waiting, an inconsistency blocks the task.
   */
  lemma LedgerDecides(c: Core, now: int, f: Fence, a: Attempt, ledger: Ledger)
    requires Inv(c) && Askable(c, f, a)
    requires var k := JobKey(f.attemptId, a.stepKey, a.attemptNo); k in c.jobs ==> c.jobs[k].status == WaitingBudget
    ensures var k := JobKey(f.attemptId, a.stepKey, a.attemptNo);
            var (c', r) := Ensure(c, now, f, a, ledger);
            match ledger
            case Granted => r.Ok? && r.value.status == Ready && k in c'.jobs && c'.jobs[k].status == Ready
            case Denied =>
              r.Ok? && r.value.status == WaitingBudget && r.value.denied && k in c'.jobs
              && c'.jobs[k].status == WaitingBudget && c'.tasks == c.tasks
            case Inconsistent => r == Refused(409) && !Fenced(c', f)
            case Failed => (c', r) == (c, Refused(500))
  {
    var k := JobKey(f.attemptId, a.stepKey, a.attemptNo);
    if k in c.jobs { assert JobOk(c, k); }
  }

  /** Only what the plan says is ever let in: the step, its route, and for each attempt the model of that number. */
  lemma OnlyPlannedIsLetIn(c: Core, now: int, f: Fence, a: Attempt, ledger: Ledger)
    requires Ensure(c, now, f, a, ledger).1.Ok?
    ensures f.attemptId in c.executions && a.payload.model == a.model
    ensures var step := FindStep(c.executions[f.attemptId].plan, a.stepKey);
            && step.Some? && step.value in c.executions[f.attemptId].plan && step.value.stepKey == a.stepKey
            && step.value.route == a.route && 1 <= a.attemptNo <= |step.value.models|
            && step.value.models[a.attemptNo - 1] == a.model
  {
    StepIsPlanned(c.executions[f.attemptId].plan, a.stepKey);
  }

  lemma {:induction false} StepIsPlanned(plan: seq<PlanStep>, stepKey: string)
    ensures FindStep(plan, stepKey).Some? ==>
              FindStep(plan, stepKey).value in plan && FindStep(plan, stepKey).value.stepKey == stepKey
    ensures FindStep(plan, stepKey).None? ==> forall i :: 0 <= i < |plan| ==> plan[i].stepKey != stepKey
  {
    if plan != [] && plan[0].stepKey != stepKey {
      StepIsPlanned(plan[1..], stepKey);
      forall i | FindStep(plan, stepKey).None? && 0 <= i < |plan| ensures plan[i].stepKey != stepKey {
        if i > 0 { assert plan[i] == plan[1..][i - 1]; }
      }
    }
  }

  /** A grant runs out two minutes after it was given: from then on its outcome is unknown, also to its holder. */
  lemma GrantRunsOut(c: Core, now: int, f: Fence, k: JobKey, token: Token, later: int)
    requires Inv(c) && Open(c, f) && k in c.jobs && k.execution == f.attemptId && c.jobs[k].status == Ready
    ensures var c' := Claim(c, now, f, k, token, true).0;
            var (c'', r) := Claim(c', later, f, k, token, true);
            if later < now + 120000 then r.Ok? && r.value.granted && c'' == c'
            else r.Ok? && !r.value.granted && r.value.status == UnknownOutcome
                 && k in c''.jobs && c''.jobs[k].status == UnknownOutcome && c''.jobs[k].payload.None?
  {
    assert JobOk(c, k);
    ClaimGrants(c, now, f, k, token);
    assert JobOk(Claim(c, now, f, k, token, true).0, k);
  }

  // ── The life of a task ───────────────────────────────────────────────────────

  /** A task is taken up exactly by its own agent while nothing blocks or closes it; then the new run owns it. */
  lemma ClaimTaskTakes(c: Core, taskId: Id, agent: string, freshRun: Id, freshAttempt: Id)
    requires taskId in c.tasks && c.tasks[taskId].runId != Some(freshRun)
    ensures var c' := ClaimTask(c, taskId, agent, freshRun, freshAttempt);
            var t := c.tasks[taskId];
            var attempt := if t.attemptId.Some? then t.attemptId.value else freshAttempt;
            Fenced(c', Fence(taskId, agent, freshRun, attempt))
            <==> t.agent == Some(agent) && t.blocked.None? && t.status != Done && t.status != CancelledTask
  {
  }

  /** The first start writes the plan; later ones must repeat it, or the task is blocked. */
  lemma StartKeepsPlan(c: Core, f: Fence, skill: string, version: nat, plan: seq<PlanStep>)
    requires Fenced(c, f)
    ensures var hash := c.tasks[f.taskId].inputHash;
            var (c', r) := Start(c, f, hash, skill, version, plan);
            if f.attemptId !in c.executions then
              && Open(c', f) && c'.executions[f.attemptId].plan == plan && c'.executions[f.attemptId].skill == skill
              && r == Ok(c'.executions[f.attemptId])
            else
              var e := c.executions[f.attemptId];
              if e.taskId == f.taskId && e.agent == f.agent && e.skill == skill && e.inputHash == hash
                 && e.workflowVersion == version && e.plan == plan then
                c' == c && r == if e.status == Abandoned then Refused(409) else Ok(e)
              else r == Refused(409) && !Fenced(c', f)
  {
  }

  /** An open run that knows all its outcomes may record its checkpoint, and no other run may. */
  lemma CheckpointRecorded(c: Core, f: Fence, skill: string, cp: Checkpoint)
    ensures var (c', r) := SaveCheckpoint(c, f, skill, cp);
            && (c' != c && r.Ok? ==>
                  && Open(c, f) && c.executions[f.attemptId].skill == skill && AllTerminal(c, f.attemptId)
                  && c' == c.(executions := c'.executions) && f.attemptId in c'.executions
                  && c'.executions == c.executions[f.attemptId := c'.executions[f.attemptId]])
            && (Open(c, f) && c.executions[f.attemptId].skill == skill && AllTerminal(c, f.attemptId) ==>
                  && r == Ok(cp) && Fenced(c', f) && f.attemptId in c'.executions
                  && c'.executions[f.attemptId].status == Checkpointed
                  && c'.executions[f.attemptId].checkpoint == Some(cp))
            && (r.Refused? ==> r.status == if f.taskId in c.tasks then 409 else 404)
  {
  }

  /** A checkpointed run may commit what its checkpoint says: then the task is done and nobody takes it up again. */
  lemma CommitCloses(c: Core, f: Fence, o: CommitOutcome, agent: string, freshRun: Id, freshAttempt: Id)
    requires Inv(c) && Fenced(c, f) && OwnExecution(c, f) && InputUnchanged(c, f)
    requires c.executions[f.attemptId].status == Checkpointed && Matches(c.executions[f.attemptId].checkpoint, o)
    ensures var (c', r) := Commit(c, f, o, false);
            && r == Ok(CommittedReply) && c'.tasks[f.taskId].status == Done
            && c'.executions[f.attemptId].status == Committed && c'.executions[f.attemptId].outcome == Some(o)
            && ClaimTask(c', f.taskId, agent, freshRun, freshAttempt) == c'
    // Where the daily cap is reached, an action waits for another run of the same attempt instead.
    ensures var (c', r) := Commit(c, f, o, true);
            if o.kind == ApprovalCommit || o.kind == ExecutedCommit then
              && r == Ok(CappedReply) && c'.executions == c.executions && !Fenced(c', f)
              && Fenced(ClaimTask(c', f.taskId, f.agent, freshRun, freshAttempt), f.(runId := freshRun))
            else r == Ok(CommittedReply)
  {
  }

  /**
   * A proposal is committed only as what it is: with its own action, facts and next steps, and an approval with a tier.
   */
  lemma CommitSaysTheProposal(action: string, facts: Facts, next: seq<string>, o: CommitOutcome)
    ensures Matches(Some(ProposalCheckpoint(action, facts, next)), o)
            <==> && o.kind in {NoChangeCommit, ApprovalCommit, ExecutedCommit} && o.action == Some(action)
                 && o.facts == Some(facts) && o.next == next && (o.kind == ApprovalCommit ==> o.hasTier)
    ensures Matches(Some(NoSignalCheckpoint), o) <==> o.kind == NoSignalCommit
    ensures !Matches(None, o)
  {
  }

  /** The owner's retry opens a blocked task again: for the same attempt when all became known, else for a new one. */
  lemma OwnerReopens(c: Core, now: int, taskId: Id, freshRun: Id, freshAttempt: Id)
    requires Inv(c) && taskId in c.tasks && c.tasks[taskId].blocked.Some? && c.tasks[taskId].agent.Some?
    requires c.tasks[taskId].status != Done && c.tasks[taskId].status != CancelledTask
    requires forall k :: k in c.jobs && c.jobs[k].status == Dispatching ==>
                           c.tasks[taskId].attemptId == Some(k.execution) ==> c.jobs[k].deadline <= now
    ensures var t := c.tasks[taskId];
            var c' := ClaimTask(OwnerRetry(c, now, taskId), taskId, t.agent.value, freshRun, freshAttempt);
            var known := t.attemptId.Some? && OutcomesKnown(c, Fence(taskId, t.agent.value, 0, t.attemptId.value))
                         && t.blocked == Some(ExecutionUnknown)
                         && c.executions[t.attemptId.value].inputHash == t.inputHash;
            Fenced(c', Fence(taskId, t.agent.value, freshRun, if known then t.attemptId.value else freshAttempt))
  {
    var t := c.tasks[taskId];
    if t.attemptId.Some? && t.attemptId.value in c.executions { ExpiredStayOpen(c, now, t.attemptId.value); }
  }

  /** Expiring grants makes no outcome known. */
  lemma ExpiredStayOpen(c: Core, now: int, id: Id)
    ensures var expired := map k | k in c.jobs :: if k.execution == id then Expire(c.jobs[k], now) else c.jobs[k];
            AllTerminal(c.(jobs := expired), id) <==> AllTerminal(c, id)
  {
    var expired := map k | k in c.jobs :: if k.execution == id then Expire(c.jobs[k], now) else c.jobs[k];
    assert forall k :: k in c.jobs ==> (Terminal(expired[k].status) <==> Terminal(c.jobs[k].status));
  }

  /** A late answer to the last unknown outcome opens the task again; while another is open it stays blocked. */
  lemma LateAnswerReopens(c: Core, taskId: Id, k: JobKey, token: Token, done: Completion)
    requires Inv(c) && k in c.jobs && c.jobs[k].status == UnknownOutcome && c.jobs[k].token == Some(token)
    requires taskId in c.tasks && k.execution in c.executions && c.executions[k.execution].taskId == taskId
    requires done.outcome != Unknown && done.result.Some?
             && Canonical(c.jobs[k].route.kind, done.outcome == Rejection, done.result.value).Some?
    requires var t := c.tasks[taskId];
             && c.executions[k.execution].status == Active && t.status == Todo && t.attemptId == Some(k.execution)
             && t.blocked == Some(ExecutionUnknown) && c.executions[k.execution].inputHash == t.inputHash
    ensures var (c', r) := Complete(c, taskId, k, token, done);
            && r.Ok? && taskId in c'.tasks
            && (c'.tasks[taskId].blocked.None? <==>
                  forall h :: h in c.jobs && h.execution == k.execution && h != k ==> Terminal(c.jobs[h].status))
  {
    assert JobOk(c, k);
    var c' := Complete(c, taskId, k, token, done).0;
    assert forall h :: h in c.jobs && h != k ==> c'.jobs[h] == c.jobs[h];
    if c'.tasks[taskId].blocked.None? {
      forall h | h in c.jobs && h.execution == k.execution && h != k ensures Terminal(c.jobs[h].status) {
        assert c'.jobs[h] == c.jobs[h];
      }
    }
  }

  /** What the owner's retry does to a row: other executions keep theirs, and of its own nothing stays open. */
  lemma RetryClosesRow(c: Core, now: int, taskId: Id, id: Id, k: JobKey)
    requires taskId in c.tasks && c.tasks[taskId].blocked.Some? && c.tasks[taskId].attemptId == Some(id)
    requires c.tasks[taskId].status != Done && c.tasks[taskId].status != CancelledTask
    requires id in c.executions && c.executions[id].status != Committed && c.executions[id].status != Abandoned
    requires forall h :: h in c.jobs && c.jobs[h].status == Dispatching ==> h.execution == id ==>
               c.jobs[h].deadline <= now
    requires k in c.jobs
    ensures var c' := OwnerRetry(c, now, taskId);
            && k in c'.jobs
            && var j, j' := c.jobs[k], c'.jobs[k];
               if k.execution != id || Terminal(j.status) || j.status == UnknownOutcome then j' == j
               else j' == j.(status := if j.status == Dispatching then UnknownOutcome else Cancelled, payload := None)
  {
    ExpiredStayOpen(c, now, id);
  }

  /** A completion whose outcome and evidence do not fit together is refused without a trace. */
  lemma MalformedCompletion(c: Core, taskId: Id, k: JobKey, token: Token, done: Completion)
    requires done.outcome == Unknown <==> done.result.Some?
    ensures Complete(c, taskId, k, token, done) == (c, Refused(400))
  {
  }
}
