/**
 * The worker loop over an agent's tasks: claim, start, run the skill, then commit or release
 * (apps/agents/src/task-worker.ts). What Core answers is a parameter, every request may throw, and the heartbeat timer
 * may find the lease lost at any point.
 */
module TaskWorker {
  import opened Common
  import opened Policy
  import opened Hooks
  import opened Runner
  import CoreStore

  type TaskId = nat

  /** The requests that end a claim. */
  datatype Call = CommitCall(commit: Commit) | ReleaseCall(reason: Option<CoreStore.ReleaseReason>)

  datatype ResultKind = Done | ReturnedToOwner | ProposedToOwner | SkippedTask
  datatype TaskResult = TaskResult(taskId: TaskId, kind: ResultKind)

  datatype RoundEnd = Pushed(result: TaskResult) | Thrown

  /**
   * One iteration of the loop: the checkpoint found at its start, the run with its own effects, and the closing calls.
   */
  datatype Round = Round(taskId: TaskId, claimed: bool, skill: Option<string>, checkpoint: Option<(string, Checkpoint)>,
                         ran: Option<Result>, lost: bool, effects: seq<Effect>, calls: seq<Call>, accepted: bool,
                         end: RoundEnd)

  datatype ExecutionView = ExecutionView(skill: string, status: CoreStore.ExecutionStatus,
                                         plan: seq<CoreStore.PlanStep>,
                                         checkpoint: Option<(string, Checkpoint)>)

  datatype Claim = Claim(hasInputHash: bool, agentSkill: Option<string>, execution: Option<ExecutionView>,
                         checkpoint: Option<(string, Checkpoint)>)

  datatype CommitStatus = CommittedStatus | CappedStatus | BlockedStatus

  /**
   * What one iteration meets: the answers of Core in the order they are asked for, with `lost…` saying whether the
   * heartbeat has found the generation lost by then. `plan` is None where reading the plan throws, `start` and
   * `closing` where that request throws or is refused.
   */
  datatype Answers = Answers(admitted: bool, claimThrew: bool, taken: bool, claim: Claim, leased: bool, lostEarly: bool,
                             plan: Option<seq<CoreStore.PlanStep>>, start: Option<ExecutionView>, world: World,
                             lostAfter: bool, leasedLate: bool, lostLate: bool, commit: Option<CommitStatus>,
                             release: Option<bool>)

  /** The skill tables of this process: which skills exist, what a title matches, which chat step a skill needs. */
  datatype Registry = Registry(hasSkill: string -> bool, matched: TaskId -> Option<string>,
                               requiredStep: string -> Option<string>)

  /** `resolveTaskSkill`: an explicitly named skill is never replaced by a guess. */
  function ResolveTaskSkill(reg: Registry, id: TaskId, explicitSkill: Option<string>): (r: Option<string>)
    ensures explicitSkill.Some? && explicitSkill.value != "" ==>
              (reg.hasSkill(explicitSkill.value) ==> r == explicitSkill)
              && (!reg.hasSkill(explicitSkill.value) ==> r.None?)
    ensures explicitSkill.None? || explicitSkill.value == "" ==> r == reg.matched(id)
  {
    if explicitSkill.Some? && explicitSkill.value != "" then
      if reg.hasSkill(explicitSkill.value) then explicitSkill else None
    else reg.matched(id)
  }

  function StepsKeyed(plan: seq<CoreStore.PlanStep>, key: string): seq<CoreStore.PlanStep> {
    if plan == [] then []
    else (if plan[0].stepKey == key then [plan[0]] else []) + StepsKeyed(plan[1..], key)
  }

  predicate HasChatStep(plan: seq<CoreStore.PlanStep>, key: string) {
    var matches := StepsKeyed(plan, key);
    |matches| == 1 && matches[0].route.kind.Chat? && matches[0].route.feature == key && matches[0].models != []
  }

  /** Exactly one step of the plan has that key, and it is a chat step of that feature with a model. */
  ghost predicate OneChatStep(plan: seq<CoreStore.PlanStep>, key: string) {
    exists i ::
      0 <= i < |plan| && ChatStep(plan[i], key) && forall j :: 0 <= j < |plan| && j != i ==> plan[j].stepKey != key
  }

  predicate ChatStep(step: CoreStore.PlanStep, key: string) {
    step.stepKey == key && step.route.kind.Chat? && step.route.feature == key && step.models != []
  }

  lemma {:induction false} NoneKeyed(plan: seq<CoreStore.PlanStep>, key: string)
    ensures StepsKeyed(plan, key) == [] <==> forall i :: 0 <= i < |plan| ==> plan[i].stepKey != key
    decreases |plan|
  {
    if plan != [] {
      NoneKeyed(plan[1..], key);
      assert forall i :: 0 < i < |plan| ==> plan[i] == plan[1..][i - 1];
      assert forall i :: 0 <= i < |plan| - 1 ==> plan[1..][i] == plan[i + 1];
    }
  }

  lemma {:induction false} ChatStepExactly(plan: seq<CoreStore.PlanStep>, key: string)
    ensures HasChatStep(plan, key) <==> OneChatStep(plan, key)
    decreases |plan|, 1
  {
    if plan != [] {
      assert forall i :: 0 < i < |plan| ==> plan[i] == plan[1..][i - 1];
      assert forall i :: 0 <= i < |plan| - 1 ==> plan[1..][i] == plan[i + 1];
      if plan[0].stepKey == key { FirstStepKeyed(plan, key); } else { LaterStepKeyed(plan, key); }
    }
  }

  lemma FirstStepKeyed(plan: seq<CoreStore.PlanStep>, key: string)
    requires plan != [] && plan[0].stepKey == key
    ensures HasChatStep(plan, key) <==> OneChatStep(plan, key)
  {
    NoneKeyed(plan[1..], key);
    assert StepsKeyed(plan, key) == [plan[0]] + StepsKeyed(plan[1..], key);
    assert forall i :: 0 < i < |plan| ==> plan[i] == plan[1..][i - 1];
    assert forall i :: 0 <= i < |plan| - 1 ==> plan[1..][i] == plan[i + 1];
    assert HasChatStep(plan, key) <==> ChatStep(plan[0], key) && forall j :: 0 < j < |plan| ==> plan[j].stepKey != key;
  }

  lemma LaterStepKeyed(plan: seq<CoreStore.PlanStep>, key: string)
    requires plan != [] && plan[0].stepKey != key
    ensures HasChatStep(plan, key) <==> OneChatStep(plan, key)
    decreases |plan|, 0
  {
    ChatStepExactly(plan[1..], key);
    if OneChatStep(plan[1..], key) {
      var i :| 0 <= i < |plan| - 1 && ChatStep(plan[1..][i], key)
               && forall j :: 0 <= j < |plan| - 1 && j != i ==> plan[1..][j].stepKey != key;
      assert ChatStep(plan[i + 1], key);
      forall j | 0 <= j < |plan| && j != i + 1 ensures plan[j].stepKey != key {
        if j > 0 { assert plan[j] == plan[1..][j - 1]; }
      }
    }
    if OneChatStep(plan, key) {
      var i :| 0 <= i < |plan| && ChatStep(plan[i], key)
               && forall j :: 0 <= j < |plan| && j != i ==> plan[j].stepKey != key;
      assert i > 0 && ChatStep(plan[1..][i - 1], key);
      assert forall j :: 0 <= j < |plan| - 1 ==> plan[1..][j] == plan[j + 1];
    }
  }

  function ReleaseReasonFor(reason: SkipReason): Option<CoreStore.ReleaseReason> {
    match reason
    case BudgetDenied => Some(CoreStore.BudgetRefused)
    case ExecutionUnknown => Some(CoreStore.OutcomeUnknown)
    case WorkflowChanged => Some(CoreStore.PlanChanged)
    case LlmInvalidOutput => Some(CoreStore.SkillFailed)
    case LlmFailed => Some(CoreStore.SkillFailed)
    case _ => None
  }

  /** The durable checkpoint a commit of this round rests on. */
  function Evidence(r: Round): Option<(string, Checkpoint)> {
    if r.checkpoint.Some? then r.checkpoint
    else if r.effects != [] && r.effects[|r.effects| - 1].CheckpointSaved?
    then Some((r.effects[|r.effects| - 1].skill, r.effects[|r.effects| - 1].checkpoint))
    else None
  }

  /** A commit is the run's own; a release says why the task could not be run, or how the run was skipped. */
  predicate CallFits(r: Round, call: Call) {
    match call
    case CommitCall(commit) => r.ran.Some? && CommitOf(r.ran.value) == Some(commit)
    case ReleaseCall(reason) =>
      if r.skill.None? then r.ran.None? && reason == Some(CoreStore.Unsupported)
      else if r.ran.None? then reason == Some(CoreStore.RouteUnavailable)
      else r.ran.value.Skipped? && r.ran.value.commit.None? && reason == ReleaseReasonFor(r.ran.value.reason)
  }

  /** A skip without a commit, other than the two that must have one. */
  predicate Releasable(r: Result) {
    r.Skipped? && r.commit.None? && r.reason != NoSignalSeen && r.reason != NoChange
  }

  /**
   * What must hold of every iteration; a run that ended in a commit is committed and a run that was skipped for a
   * cause of its own is released, unless the generation was seen to be lost or the iteration throws.
   */
  predicate RoundOk(r: Round) {
    && RoundSoFar(r)
    && (r.ran.Some? && !r.lost && Releasable(r.ran.value) ==>
          r.calls == [ReleaseCall(ReleaseReasonFor(r.ran.value.reason))])
    && (r.ran.Some? && !r.lost && CommitOf(r.ran.value).Some? && r.end.Pushed? ==>
          r.calls == [CommitCall(CommitOf(r.ran.value).value)])
  }

  // ── What an iteration comes to ───────────────────────────────────────────────

  /** The task is claimed and its first lease request is answered. */
  predicate Holds(a: Answers) {
    !a.claimThrew && !a.taken && a.leased
  }

  /** The checkpoint named by the claim; the execution's own one comes first. */
  function Known(a: Answers): Option<(string, Checkpoint)> {
    if a.claim.execution.Some? && a.claim.execution.value.checkpoint.Some? then a.claim.execution.value.checkpoint
    else a.claim.checkpoint
  }

  /** The skill of the iteration: durable evidence before the task's own wish. */
  function SkillOf(reg: Registry, id: TaskId, a: Answers): Option<string> {
    if a.claim.execution.Some? then Some(a.claim.execution.value.skill)
    else if Known(a).Some? then Some(Known(a).value.0)
    else ResolveTaskSkill(reg, id, a.claim.agentSkill)
  }

  /** The plan of the execution, or of the task as Core answers now. */
  function PlanOf(a: Answers): Option<seq<CoreStore.PlanStep>> {
    if a.claim.execution.Some? then Some(a.claim.execution.value.plan) else a.plan
  }

  /** The skill asks for a chat step that the plan does not hold exactly once. */
  predicate LacksRoute(reg: Registry, skill: string, a: Answers) {
    var needed := reg.requiredStep(skill);
    needed.Some? && (PlanOf(a).None? || !HasChatStep(PlanOf(a).value, needed.value))
  }

  /** The task has its input hash, and its plan could be read where the skill does without one. */
  predicate Planned(reg: Registry, skill: string, a: Answers) {
    a.claim.hasInputHash && (PlanOf(a).Some? || reg.requiredStep(skill).Some?)
  }

  /** Core started, or took up again, an execution of this skill. */
  predicate Started(skill: string, a: Answers) {
    && a.start.Some? && a.start.value.skill == skill
    && a.start.value.status != CoreStore.Abandoned && a.start.value.status != CoreStore.Committed
    && (a.start.value.status == CoreStore.Checkpointed ==> a.start.value.checkpoint.Some?)
  }

  /** What holds of an iteration at every point. */
  predicate RoundSoFar(r: Round) {
    // At most one of commit and release.
    && |r.calls| <= 1
    && (!r.claimed ==> r.calls == [] && r.effects == [])
    // A commit says what a durable checkpoint of that skill says; a takeover does not call the skill again.
    && (r.calls != [] && r.calls[0].CommitCall? ==>
          Evidence(r).Some? && r.skill == Some(Evidence(r).value.0)
          && CommitMatches(Evidence(r).value.1, r.calls[0].commit))
    && (r.checkpoint.Some? ==> r.effects == [])
    // The call is the one the run asked for, with the reason that fits.
    && (r.calls != [] ==> CallFits(r, r.calls[0]))
    && (forall i :: 0 <= i < |r.effects| ==> TaskEffect(r.effects[i]))
    // The result tells the truth about the call.
    && (r.end.Pushed? ==>
          && r.end.result.taskId == r.taskId
          && (r.end.result.kind == Done || r.end.result.kind == ProposedToOwner ==>
                |r.calls| == 1 && r.calls[0].CommitCall? && r.accepted
                && (r.end.result.kind == ProposedToOwner <==> r.calls[0].commit.kind == ApprovalCommit))
          && (r.end.result.kind == ReturnedToOwner ==> r.calls == [ReleaseCall(Some(CoreStore.Unsupported))]))
  }

  /**
   * A lease that could not be confirmed after the skill or at a takeover ends in a release without a reason, or in
   * nothing when the generation was seen to be lost.
   */
  lemma UnconfirmedLeaseReleases(r: Round)
    requires RoundOk(r) && r.ran == Some(Skipped(LedgerUnavailable, None))
    ensures if r.lost then r.calls == [] || r.calls == [ReleaseCall(None)] else r.calls == [ReleaseCall(None)]
    ensures r.end.Pushed? ==> r.end.result.kind == SkippedTask
    ensures r.checkpoint.Some? ==> r.effects == []
  {
  }

  /** The reason that each kind of skip is released with. */
  predicate ReleasedAs(r: Round, cause: SkipReason, reason: CoreStore.ReleaseReason) {
    r.ran == Some(Skipped(cause, None)) && !r.lost ==> r.calls == [ReleaseCall(Some(reason))]
  }

  /** A refused budget, an unknown outcome, a changed plan and a failed skill each go back under their own name. */
  predicate Reasoned(r: Round) {
    && ReleasedAs(r, BudgetDenied, CoreStore.BudgetRefused)
    && ReleasedAs(r, ExecutionUnknown, CoreStore.OutcomeUnknown)
    && ReleasedAs(r, WorkflowChanged, CoreStore.PlanChanged)
    && ReleasedAs(r, LlmInvalidOutput, CoreStore.SkillFailed)
    && ReleasedAs(r, LlmFailed, CoreStore.SkillFailed)
  }

  /** The round's release as it reaches Core, if there was one. */
  function Released(r: Round, c: CoreStore.Core, f: CoreStore.Fence, spent: bool): CoreStore.Core {
    if r.calls != [] && r.calls[0].ReleaseCall? then CoreStore.ReleaseFor(c, f, r.calls[0].reason, spent) else c
  }

  /**
   * After a round that ended in an unknown outcome no grant of its active execution is open in Core, and its task waits
   * for the owner until the outcomes are known; after a refused budget every job is as it was.
   */
  lemma CoreHearsWhy(r: Round, c: CoreStore.Core, f: CoreStore.Fence, spent: bool)
    requires Reasoned(r) && !r.lost && CoreStore.Inv(c) && CoreStore.Fenced(c, f)
    ensures var c' := Released(r, c, f, spent);
            && (r.ran == Some(Skipped(ExecutionUnknown, None)) && CoreStore.ActiveRun(c, f) ==>
                  && (forall k :: k in c'.jobs && k.execution == f.attemptId ==>
                        c'.jobs[k].status != CoreStore.Dispatching)
                  && (c'.tasks[f.taskId].blocked == Some(CoreStore.ExecutionUnknown)
                      || CoreStore.AllTerminal(c, f.attemptId)))
            && (r.ran == Some(Skipped(BudgetDenied, None)) ==> c'.jobs == c.jobs)
  {
    if r.calls != [] && r.calls[0].ReleaseCall? { CoreStore.ReleaseClosesGrants(c, f, r.calls[0].reason, spent); }
  }

  // ── The worker's records are Core's ──────────────────────────────────────────

  /** A facts record as Core keeps it: the order of the fields does not matter. */
  function CoreFacts(f: Facts): CoreStore.Facts {
    if f == [] then map[] else CoreFacts(f[..|f| - 1])[f[|f| - 1].key := f[|f| - 1].value]
  }

  function CoreCheckpoint(cp: Checkpoint): CoreStore.Checkpoint {
    match cp
    case NoSignalCheckpoint => CoreStore.NoSignalCheckpoint
    case ProposalCheckpoint(action, facts, next) => CoreStore.ProposalCheckpoint(action, CoreFacts(facts), next)
  }

  /** The commit request; an approval names its tier. */
  function CoreOutcome(c: Commit, note: string): CoreStore.CommitOutcome {
    var kind := match c.kind
                case NoSignalCommit => CoreStore.NoSignalCommit
                case NoChangeCommit => CoreStore.NoChangeCommit
                case ApprovalCommit => CoreStore.ApprovalCommit;
    if c.kind == NoSignalCommit then CoreStore.CommitOutcome(kind, note, None, None, [], false)
    else CoreStore.CommitOutcome(kind, note, Some(c.action), Some(CoreFacts(c.facts)), c.next, c.kind == ApprovalCommit)
  }

  /** What a round commits passes Core's own comparison with the checkpoint it rests on. */
  lemma CoreAcceptsCommit(r: Round, note: string)
    requires RoundOk(r) && r.calls != [] && r.calls[0].CommitCall?
    ensures Evidence(r).Some?
            && CoreStore.Matches(Some(CoreCheckpoint(Evidence(r).value.1)), CoreOutcome(r.calls[0].commit, note))
  {
  }

  /** What a round runs its skill with, and the delta memory it finds. */
  datatype Setting = Setting(agent: Agent, trigger: Trigger, clock: Clock, journal: Journal, memory: Option<Signature>,
                             long: Facts -> bool)

  /** A run that the hooks let start is decided by the record its proposal is compared by. */
  ghost predicate Decided(s: Setting, task: TaskRun, w: World, result: Result) {
    HooksOk(s.agent) && LetStart(s.agent, Context(Some(task), Some(s.trigger), s.clock, w), s.journal) ==>
      TaskDecidedBy(s.memory, task, w, s.long, Returned(result))
  }

  class Worker {
    const runner: SkillRunner
    const reg: Registry

    constructor (runner: SkillRunner, reg: Registry)
      ensures this.runner == runner && this.reg == reg
    {
      this.runner := runner;
      this.reg := reg;
    }

    /** The catch block: a lost lease is somebody else's work, everything else is thrown on. */
    function Caught(id: TaskId, leaseLost: bool): RoundEnd {
      if leaseLost then Pushed(TaskResult(id, SkippedTask)) else Thrown
    }

    /**
     * A confirmed lease is followed by the commit the run asked for; the result reports a call that Core accepted, and
     * throws on one that failed with the lease in hand.
     */
    ghost predicate Told(a: Answers, r: Round) {
      && (a.leasedLate && !r.lost && r.ran.Some? && CommitOf(r.ran.value).Some? ==> r.calls != [])
      && (r.calls != [] ==> ToldCall(a, r, r.calls[0]))
    }

    ghost predicate ToldCall(a: Answers, r: Round, call: Call) {
      match call
      case CommitCall(commit) =>
        && (a.commit == Some(CommittedStatus) ==>
              r.end == Pushed(TaskResult(r.taskId, if commit.kind == ApprovalCommit then ProposedToOwner else Done)))
        && (a.commit.None? ==> r.end == Caught(r.taskId, a.lostLate))
      case ReleaseCall(reason) =>
        && (a.release == Some(true) && reason == Some(CoreStore.Unsupported) && r.ran.None? ==>
              r.end == Pushed(TaskResult(r.taskId, ReturnedToOwner)))
        && (a.release.None? ==> r.end == Caught(r.taskId, a.lostLate))
    }

    /**
     * A task whose plan lacks the chat step its skill needs goes back with that reason; an execution that Core started
     * is run from its newest checkpoint.
     */
    ghost predicate Goes(skill: string, a: Answers, r: Round, s: Setting) {
      if !Planned(reg, skill, a) then Stopped(a, r)
      else
        && r.skill == Some(skill)
        && if LacksRoute(reg, skill, a) then r.calls == [ReleaseCall(Some(CoreStore.RouteUnavailable))]
           else if Started(skill, a) then RunFrom(a, r, s)
           else Stopped(a, r)
    }

    /** Nothing was run or asked of Core, and the error is thrown on unless the generation was lost. */
    ghost predicate Stopped(a: Answers, r: Round) {
      r.ran.None? && r.calls == [] && r.end == Caught(r.taskId, a.lostEarly)
    }

    /** The newest checkpoint is in force, and only a run that throws for a cause leaves no result. */
    ghost predicate RunFrom(a: Answers, r: Round, s: Setting)
      requires a.start.Some?
    {
      && (r.ran.Some? ==> Decided(s, TaskRun(r.checkpoint), a.world, r.ran.value))
      && r.checkpoint == (if a.start.value.checkpoint.Some? then a.start.value.checkpoint else Known(a))
      && (r.ran.None? ==> r.end == Caught(r.taskId, a.lostAfter))
      && (r.ran.None? && r.skill.Some? ==>
            a.world.throws != {} || BreaksDown(r.skill.value, Some(TaskRun(r.checkpoint)), a.world))
    }

    /**
     * A started task that nothing hinders commits exactly what its skill proposed, and the owner is asked unless the
     * memory already holds the record.
     */
    lemma UnhinderedCommits(r: Round, a: Answers, s: Setting, record: Facts)
      requires a.start.Some? && RunFrom(a, r, s) && RoundOk(r) && Told(a, r) && !r.lost && r.skill.Some?
      requires r.checkpoint.None? && a.world.throws == {} && Produces(a.world) && HooksOk(s.agent)
      requires LetStart(s.agent, Context(Some(TaskRun(None)), Some(s.trigger), s.clock, a.world), s.journal)
      requires ComparedBy(a.world.answer.proposal, record) && a.leasedLate && a.commit == Some(CommittedStatus)
      ensures |r.calls| == 1 && r.calls[0].CommitCall? && SaysProposal(r.calls[0].commit, a.world.answer.proposal)
      ensures var known := MatchesSignature(s.memory, record, s.long);
              r.end == Pushed(TaskResult(r.taskId, if known then Done else ProposedToOwner))
    {
    }

    /** One iteration of the loop. */
    method OneTask(agent: Agent, id: TaskId, trigger: Trigger, threshold: Tier, floors: map<string, Tier>, clock: Clock,
                   journal: Journal, a: Answers)
      returns (r: Round)
      requires HooksOk(agent)
      modifies runner
      ensures RoundOk(r) && r.taskId == id && Reasoned(r) && (r.claimed <==> !a.claimThrew && !a.taken)
      ensures Told(a, r) && (r.lost ==> a.lostAfter || a.lostLate)
      // A task without a skill goes back to the owner; any other one goes as its plan and the started execution say.
      ensures Holds(a) && SkillOf(reg, id, a).None? ==> r.calls == [ReleaseCall(Some(CoreStore.Unsupported))]
      ensures Holds(a) && SkillOf(reg, id, a).Some? ==> Goes(SkillOf(reg, id, a).value, a, r,
                     Setting(agent, trigger, clock, journal, old(runner.Recall(agent.name, SkillOf(reg, id, a).value)),
                             runner.long))
      ensures runner.memory == old(runner.memory)
    {
      r := Round(id, false, None, None, None, false, [], [], false, Thrown);
      if a.claimThrew { return; }
      if a.taken { return r.(end := Pushed(TaskResult(id, SkippedTask))); }
      r := r.(claimed := true);
      var claim := a.claim;
      if !a.leased { return r.(end := Caught(id, a.lostEarly)); }
      var known := if claim.execution.Some? && claim.execution.value.checkpoint.Some?
                   then claim.execution.value.checkpoint else claim.checkpoint;
      var durable := if claim.execution.Some? then Some(claim.execution.value.skill)
                     else if known.Some? then Some(known.value.0) else None;
      var skill := if durable.Some? then durable else ResolveTaskSkill(reg, id, claim.agentSkill);
      if skill.None? {
        r := Release(r, Some(CoreStore.Unsupported), ReturnedToOwner, a);
        return;
      }
      r := RunPlanned(r.(skill := skill), agent, skill.value, trigger, threshold, floors, clock, journal, a);
    }

    /** The plan is checked and the execution started before the skill is run. */
    method RunPlanned(r0: Round, agent: Agent, skill: string, trigger: Trigger, threshold: Tier,
                      floors: map<string, Tier>, clock: Clock, journal: Journal, a: Answers)
      returns (r: Round)
      requires RoundSoFar(r0) && r0.calls == [] && r0.effects == [] && r0.ran.None? && r0.claimed && !r0.lost
               && r0.skill == Some(skill) && r0.checkpoint.None? && r0.end.Thrown?
      requires HooksOk(agent)
      modifies runner
      ensures RoundOk(r) && r.taskId == r0.taskId && Told(a, r) && (r.lost ==> a.lostAfter || a.lostLate)
      ensures r.claimed
      ensures Goes(skill, a, r,
                   Setting(agent, trigger, clock, journal, old(runner.Recall(agent.name, skill)), runner.long))
      ensures runner.memory == old(runner.memory)
    {
      r := r0;
      var plan := if a.claim.execution.Some? then Some(a.claim.execution.value.plan) else a.plan;
      var needed := reg.requiredStep(skill);
      if !a.claim.hasInputHash || (plan.None? && needed.None?) {
        r := Stop(r, a);
        return;
      }
      if needed.Some? && (plan.None? || !HasChatStep(plan.value, needed.value)) {
        r := Release(r, Some(CoreStore.RouteUnavailable), SkippedTask, a);
        return;
      }
      r := RunStarted(r, agent, skill, trigger, threshold, floors, clock, journal, a);
    }

    /** The execution is started, or taken up again from its newest checkpoint. */
    method RunStarted(r0: Round, agent: Agent, skill: string, trigger: Trigger, threshold: Tier,
                      floors: map<string, Tier>, clock: Clock, journal: Journal, a: Answers)
      returns (r: Round)
      requires RoundSoFar(r0) && r0.calls == [] && r0.effects == [] && r0.ran.None? && r0.claimed && !r0.lost
               && r0.skill == Some(skill) && r0.checkpoint.None? && r0.end.Thrown?
      requires HooksOk(agent)
      modifies runner
      ensures RoundOk(r) && r.taskId == r0.taskId && Told(a, r) && (r.lost ==> a.lostAfter || a.lostLate)
      ensures r.claimed && (!Started(skill, a) ==> Stopped(a, r))
      ensures r.skill == Some(skill)
              && (Started(skill, a) ==>
                    RunFrom(a, r, Setting(agent, trigger, clock, journal, old(runner.Recall(agent.name, skill)),
                                          runner.long)))
      ensures runner.memory == old(runner.memory)
    {
      r := r0;
      if a.start.None? || a.start.value.skill != skill || a.start.value.status == CoreStore.Abandoned
         || a.start.value.status == CoreStore.Committed
         || (a.start.value.status == CoreStore.Checkpointed && a.start.value.checkpoint.None?) {
        r := Stop(r, a);
        return;
      }
      var known := if a.claim.execution.Some? && a.claim.execution.value.checkpoint.Some?
                   then a.claim.execution.value.checkpoint else a.claim.checkpoint;
      r := r.(checkpoint := if a.start.value.checkpoint.Some? then a.start.value.checkpoint else known);
      r := RunAndClose(r, agent, skill, trigger, threshold, floors, clock, journal, a);
    }

    /** An error before the skill was run. */
    method Stop(r0: Round, a: Answers) returns (r: Round)
      requires RoundSoFar(r0) && r0.calls == [] && r0.ran.None?
      ensures r == r0.(end := Caught(r0.taskId, a.lostEarly)) && RoundOk(r) && Told(a, r)
    {
      r := r0.(end := Caught(r0.taskId, a.lostEarly));
    }

    /** A release that ends the round; an unfenced one only reports the lost generation. */
    method Release(r0: Round, reason: Option<CoreStore.ReleaseReason>, kind: ResultKind, a: Answers) returns (r: Round)
      requires RoundSoFar(r0) && r0.calls == [] && r0.claimed && CallFits(r0, ReleaseCall(reason))
      requires if reason == Some(CoreStore.Unsupported)
               && r0.ran.None? then kind == ReturnedToOwner else kind == SkippedTask
      ensures RoundOk(r) && Keeps(r0, r) && r.lost == r0.lost && r.calls == [ReleaseCall(reason)] && Told(a, r)
    {
      r := r0.(calls := [ReleaseCall(reason)]);
      r := r.(end := match a.release
                     case None => Caught(r.taskId, a.lostLate)
                     case Some(released) => Pushed(TaskResult(r.taskId, if released then kind else SkippedTask)));
    }

    /** The closing calls of a round leave what it found and what it ran. */
    ghost predicate Keeps(r0: Round, r: Round) {
      && r.taskId == r0.taskId && r.claimed == r0.claimed && r.skill == r0.skill && r.checkpoint == r0.checkpoint
      && r.ran == r0.ran && r.effects == r0.effects
    }

    /** The skill run, then exactly one of commit and release, or neither. */
    method RunAndClose(r0: Round, agent: Agent, skill: string, trigger: Trigger, threshold: Tier,
                       floors: map<string, Tier>, clock: Clock, journal: Journal, a: Answers)
      returns (r: Round)
      requires RoundSoFar(r0) && r0.calls == [] && r0.effects == [] && r0.ran.None? && r0.claimed && !r0.lost
               && r0.skill == Some(skill)
      requires HooksOk(agent)
      modifies runner
      ensures RoundOk(r) && r.taskId == r0.taskId && r.claimed && r.skill == r0.skill && r.checkpoint == r0.checkpoint
      ensures Told(a, r) && (r.lost ==> a.lostAfter || a.lostLate)
      ensures r.ran.Some? ==> Decided(Setting(agent, trigger, clock, journal, old(runner.Recall(agent.name, skill)),
                                              runner.long), TaskRun(r0.checkpoint), a.world, r.ran.value)
      ensures r.ran.None? ==> r.end == Caught(r0.taskId, a.lostAfter)
      ensures r.ran.None? ==> a.world.throws != {} || BreaksDown(skill, Some(TaskRun(r0.checkpoint)), a.world)
      ensures runner.memory == old(runner.memory)
    {
      var floor := if skill in floors then Some(floors[skill]) else None;
      var task := TaskRun(r0.checkpoint);
      var mark := |runner.log|;
      var run, _ := runner.RunSkill(agent, skill, threshold, floor, Context(Some(task), Some(trigger), clock, a.world),
                                    journal);
      var effects := runner.log[mark..];
      assert TaskLog(effects, skill, task, run);
      r := r0.(effects := effects);
      if run.Threw? { return r.(end := Caught(r.taskId, a.lostAfter)); }
      r := Close(r.(ran := Some(run.result), lost := a.lostAfter), run.result, a);
    }

    /** What follows a run that returned: nothing for a lost generation, else its commit or a release. */
    method Close(r0: Round, result: Result, a: Answers) returns (r: Round)
      requires RoundSoFar(r0) && r0.calls == [] && r0.ran == Some(result) && r0.claimed && r0.skill.Some?
      requires CommitOf(result).Some? ==>
                 && Evidence(r0).Some? && r0.skill == Some(Evidence(r0).value.0)
                 && CommitMatches(Evidence(r0).value.1, CommitOf(result).value)
      ensures RoundOk(r) && Keeps(r0, r) && Told(a, r) && (r.lost ==> r0.lost || a.lostLate)
    {
      r := r0;
      if r.lost { return r.(end := Pushed(TaskResult(r.taskId, SkippedTask))); }
      var commit := CommitOf(result);
      if commit.Some? {
        r := CommitRound(r, commit.value, a);
        return;
      }
      if !result.Skipped? || result.reason == NoSignalSeen || result.reason == NoChange {
        return r.(end := Caught(r.taskId, false));
      }
      r := Release(r, ReleaseReasonFor(result.reason), SkippedTask, a);
    }

    method CommitRound(r0: Round, commit: Commit, a: Answers) returns (r: Round)
      requires RoundSoFar(r0) && r0.calls == [] && r0.claimed && Evidence(r0).Some?
               && r0.skill == Some(Evidence(r0).value.0)
      requires CallFits(r0, CommitCall(commit)) && CommitMatches(Evidence(r0).value.1, commit)
      ensures RoundOk(r) && Keeps(r0, r) && Told(a, r) && (r.lost ==> r0.lost || a.lostLate)
    {
      r := r0;
      if !a.leasedLate { return r.(lost := r.lost || a.lostLate, end := Caught(r.taskId, a.lostLate)); }
      r := r.(calls := [CommitCall(commit)]);
      assert Evidence(r) == Evidence(r0);
      if a.commit.None? { return r.(end := Caught(r.taskId, a.lostLate)); }
      if a.commit.value == CappedStatus || a.commit.value == BlockedStatus {
        return r.(end := Pushed(TaskResult(r.taskId, SkippedTask)));
      }
      r := r.(accepted := true,
              end := Pushed(TaskResult(r.taskId, if commit.kind == ApprovalCommit then ProposedToOwner else Done)));
    }

    /** `runAgentTasks`: one result per task taken up, in order, unless the loop throws. */
    method RunAgentTasks(agent: Agent, tasks: seq<(TaskId, Trigger)>, threshold: Tier, floors: map<string, Tier>,
                         clock: Clock, journal: Journal, answers: seq<Answers>)
      returns (results: seq<TaskResult>, threw: bool, rounds: seq<Round>)
      requires HooksOk(agent) && |answers| == |tasks|
      modifies runner
      ensures forall i :: 0 <= i < |rounds| ==> RoundOk(rounds[i]) && i < |tasks| && rounds[i].taskId == tasks[i].0
      ensures |rounds| == |results| + (if threw then 1 else 0)
      ensures forall i :: 0 <= i < |results| ==> rounds[i].end == Pushed(results[i])
      ensures threw ==> rounds[|results|].end.Thrown?
      ensures !agent.active ==> results == [] && !threw
      // The loop stops early only where the budget admits no further run.
      ensures agent.active && !threw ==>
                |results| == |tasks| || (|results| < |tasks| && !answers[|results|].admitted)
      ensures runner.memory == old(runner.memory)
    {
      results, threw, rounds := [], false, [];
      if !agent.active { return; }
      for n := 0 to |tasks|
        invariant |rounds| == |results| <= n && !threw
        invariant forall i :: 0 <= i < |rounds| ==>
                    RoundOk(rounds[i]) && rounds[i].taskId == tasks[i].0 && rounds[i].end == Pushed(results[i])
        invariant |rounds| == n
        invariant runner.memory == old(runner.memory)
      {
        if !answers[n].admitted { return; }
        var r := OneTask(agent, tasks[n].0, tasks[n].1, threshold, floors, clock, journal, answers[n]);
        rounds := rounds + [r];
        if r.end.Thrown? {
          threw := true;
          return;
        }
        results := results + [r.end.result];
      }
    }
  }
}
