/**
 * One run of a skill: hooks, delta memory, the daily cap, and the choice between silence, approval and direct
 * execution (apps/agents/src/runner.ts, memory.ts). What the skill, the lease, the cap and the executor answer,
 * and which calls throw, is a parameter.
 */
module Runner {
  import opened Common
  import opened Policy
  import opened Hooks
  import Sorting

  // ── Signatures ───────────────────────────────────────────────────────────────

  /** One field of a facts record, with the JSON text of its value. */
  datatype Pair = Pair(key: string, value: string)

  /** A facts record in the order its fields were written. */
  type Facts = seq<Pair>

  predicate DistinctKeys(f: Facts) {
    forall i, j :: 0 <= i < j < |f| ==> f[i].key != f[j].key
  }

  function ByKey(): (Pair, Pair) -> bool {
    (a: Pair, b: Pair) => AtMost(a.key, b.key)
  }

  /** `canonicalSignature`: the fields in key order; the list stands for its JSON text. */
  function Canonical(f: Facts): Facts {
    Sorting.Sort(f, ByKey())
  }

  /** The canonical order is that of the keys. */
  lemma CanonicalAscends(f: Facts, i: nat, j: nat)
    requires DistinctKeys(f) && i < j < |f|
    ensures |Canonical(f)| == |f| && !Less(Canonical(f)[j].key, Canonical(f)[i].key)
  {
    KeyOrder(f);
    Sorting.SortSorted(f, ByKey());
    assert ByKey()(Canonical(f)[i], Canonical(f)[j]);
  }

  /** A stored signature: the canonical text, its digest, the no-signal mark, or some other old text. */
  datatype Signature = Plain(canonical: Facts) | Digest(canonical: Facts) | NoSignal | Foreign(text: string)

  /** `boundedSignature`: `long` says which canonical texts exceed 512 characters. */
  function Bounded(canonical: Facts, long: Facts -> bool): Signature {
    if long(canonical) then Digest(canonical) else Plain(canonical)
  }

  function Sign(f: Facts, long: Facts -> bool): Signature {
    Bounded(Canonical(f), long)
  }

  /** A long text is never stored itself. */
  lemma LongIsDigested(f: Facts, long: Facts -> bool)
    ensures Sign(f, long) == if long(Canonical(f)) then Digest(Canonical(f)) else Plain(Canonical(f))
  {
  }

  /** `matchesSignature`: also reads signatures from before long texts were hashed. */
  predicate MatchesSignature(stored: Option<Signature>, f: Facts, long: Facts -> bool) {
    stored.Some? && (stored.value == Plain(Canonical(f)) || stored.value == Sign(f, long))
  }

  /** The same record, however its fields are ordered. */
  predicate SameFacts(f: Facts, g: Facts) {
    multiset(f) == multiset(g)
  }

  lemma KeyOrder(f: Facts)
    requires DistinctKeys(f)
    ensures Sorting.OrdersAll(multiset(f), ByKey()) && Sorting.NoTies(multiset(f), ByKey())
  {
    forall a: Pair, b: Pair ensures AtMost(a.key, b.key) || AtMost(b.key, a.key) { LessTotal(a.key, b.key); }
    forall a: Pair, b: Pair, c: Pair | AtMost(a.key, b.key) && AtMost(b.key, c.key) ensures AtMost(a.key, c.key) {
      LessTotal(a.key, b.key);
      LessTotal(b.key, c.key);
      LessTotal(a.key, c.key);
      if Less(c.key, a.key) && Less(a.key, b.key) { LessTransitive(c.key, a.key, b.key); }
    }
    forall a, b | a in multiset(f) && b in multiset(f) && AtMost(a.key, b.key) && AtMost(b.key, a.key) ensures a == b {
      LessTotal(a.key, b.key);
      var i :| 0 <= i < |f| && f[i] == a;
      var j :| 0 <= j < |f| && f[j] == b;
    }
  }

  /** Two records have the same canonical form exactly when they hold the same fields. */
  lemma CanonicalIffSame(f: Facts, g: Facts)
    requires DistinctKeys(f) && DistinctKeys(g)
    ensures Canonical(f) == Canonical(g) <==> SameFacts(f, g)
  {
    if SameFacts(f, g) {
      KeyOrder(f);
      KeyOrder(g);
      Sorting.SortSorted(f, ByKey());
      Sorting.SortSorted(g, ByKey());
      Sorting.SortedUnique(Canonical(f), Canonical(g), ByKey());
    }
  }

  // ── Delta memory over a history of runs ──────────────────────────────────────

  datatype Observation = Nothing | Seen(facts: Facts)

  predicate Submits(memory: Option<Signature>, o: Observation, long: Facts -> bool) {
    o.Seen? && !MatchesSignature(memory, o.facts, long)
  }

  /** What a completed, uncapped cron run leaves in memory. */
  function Remembered(memory: Option<Signature>, o: Observation, long: Facts -> bool): Option<Signature> {
    match o
    case Nothing => if memory.None? || memory == Some(NoSignal) then memory else Some(NoSignal)
    case Seen(facts) => if Submits(memory, o, long) then Some(Sign(facts, long)) else memory
  }

  function MemoryAfter(memory: Option<Signature>, history: seq<Observation>, long: Facts -> bool): Option<Signature> {
    if history == [] then memory
    else Remembered(MemoryAfter(memory, history[..|history| - 1], long), history[|history| - 1], long)
  }

  predicate SameObservation(a: Observation, b: Observation) {
    (a.Nothing? && b.Nothing?) || (a.Seen? && b.Seen? && SameFacts(a.facts, b.facts))
  }

  predicate ProperRecord(o: Observation) {
    o.Seen? ==> DistinctKeys(o.facts)
  }

  /** After an observation the memory matches exactly the records that equal it. */
  lemma MemoryReflects(before: Option<Signature>, o: Observation, next: Observation, long: Facts -> bool)
    requires ProperRecord(o) && ProperRecord(next)
    ensures Submits(Remembered(before, o, long), next, long) <==> next.Seen? && !SameObservation(o, next)
  {
    if o.Seen? && next.Seen? { CanonicalIffSame(o.facts, next.facts); }
  }

  /** Over any history, a run submits exactly when it saw a proposal that differs from what the run before saw. */
  lemma SubmitsExactlyOnChange(memory: Option<Signature>, history: seq<Observation>, k: nat, long: Facts -> bool)
    requires 1 <= k < |history| && forall i :: 0 <= i < |history| ==> ProperRecord(history[i])
    ensures Submits(MemoryAfter(memory, history[..k], long), history[k], long)
            <==> history[k].Seen? && !SameObservation(history[k - 1], history[k])
  {
    assert history[..k][..k - 1] == history[..k - 1];
    MemoryReflects(MemoryAfter(memory, history[..k - 1], long), history[k - 1], history[k], long);
  }

  // ── One run ──────────────────────────────────────────────────────────────────

  datatype Agent = Agent(name: string, active: bool, autonomyDefault: Tier, breakGlass: set<string>,
                         hooks: Option<AgentHooks>)

  datatype Proposal = Proposal(action: string, facts: Facts, signatureFacts: Option<Facts>, next: seq<string>)

  datatype Checkpoint = NoSignalCheckpoint | ProposalCheckpoint(action: string, facts: Facts, next: seq<string>)

  datatype TaskRun = TaskRun(checkpoint: Option<(string, Checkpoint)>)

  datatype Trigger = Cron | OwnerTask | Manual

  /** The calls of a run that may throw. */
  datatype Call = RunEventCall | LeaseCall | CheckpointCall | MemoryRead | CountCall | ExecutorCall | ActionCall
                | ApprovalCall | MemoryWrite

  /**
   * What the run meets: whether the skill exists and what it answers, whether the lease check right after it
   * passes, whether the daily cap is reached, whether an executor exists and verifies its work, which calls throw,
   * and whether a memory write that throws has reached Core.
   */
  datatype World = World(implemented: bool, answer: Produced, leaseHolds: bool, capped: bool, hasExecutor: bool,
                         verified: bool, throws: set<Call>, written: bool)

  datatype Context = Context(task: Option<TaskRun>, trigger: Option<Trigger>, clock: Clock, world: World)

  datatype SkipReason = Inactive | NotImplemented | WorkflowChanged | LlmInvalidOutput | LlmFailed | ExecutionUnknown
                      | BudgetDenied | LedgerUnavailable | NoSignalSeen | NoChange | Capped | HookBlocked

  datatype CommitKind = NoSignalCommit | NoChangeCommit | ApprovalCommit

  /** What a task run asks Core to commit. */
  datatype Commit = Commit(kind: CommitKind, action: string, facts: Facts, next: seq<string>,
                           memorySignature: Option<Signature>)

  datatype Result = Executed | ApprovalRequested(tier: Tier, commit: Option<Commit>)
                  | Skipped(reason: SkipReason, commit: Option<Commit>)

  datatype Ended = Threw | Returned(result: Result)

  datatype Effect = RunEvent | SkillCalled | CheckpointSaved(skill: string, checkpoint: Checkpoint) | ExecutorCalled
                  | ActionEvent | ApprovalAsked(tier: Tier) | MemoryWritten(signature: Signature)

  datatype Produced = Proposed(proposal: Proposal) | NoProposal | Stopped(reason: SkipReason) | Failed

  /** The errors of a skill that end its run quietly; every other error is thrown on. */
  const SkillStops := {WorkflowChanged, LlmInvalidOutput, LlmFailed, ExecutionUnknown, BudgetDenied, LedgerUnavailable}

  /** What the skill's answer amounts to after the lease check: a failed check ends the run quietly. */
  function Checked(w: World): Produced {
    if w.answer.Stopped? && w.answer.reason !in SkillStops then Failed
    else if (w.answer.Proposed? || w.answer.NoProposal?) && !w.leaseHolds then Stopped(LedgerUnavailable)
    else w.answer
  }

  /** The checkpoint that records a produced result. */
  function CheckpointFor(p: Produced): Checkpoint
    requires p.Proposed? || p.NoProposal?
  {
    if p.NoProposal? then NoSignalCheckpoint
    else ProposalCheckpoint(p.proposal.action, p.proposal.facts, p.proposal.next)
  }

  /** What a run taken over resumes with; a blank action is an error. */
  function Resumed(cp: Checkpoint, leaseHolds: bool): Produced {
    if cp.ProposalCheckpoint? && Trim(cp.action) == "" then Failed
    else if !leaseHolds then Stopped(LedgerUnavailable)
    else if cp.NoSignalCheckpoint? then NoProposal
    else Proposed(Proposal(cp.action, cp.facts, None, cp.next))
  }

  /** What a cron run observes. */
  function Observed(w: World): Option<Observation> {
    if !w.implemented then None
    else match Checked(w)
      case NoProposal => Some(Nothing)
      case Proposed(p) => Some(Seen(SignatureFacts(p)))
      case _ => None
  }

  /** Nobody asked for this run, and it takes nothing over: these are the runs that hooks may keep from starting. */
  predicate Scheduled(ctx: Context) {
    && (ctx.trigger.Some? ==> ctx.trigger.value.Cron?)
    && !(ctx.task.Some? && ctx.task.value.checkpoint.Some?)
  }

  /** The hooks let this run start. */
  ghost predicate LetStart(agent: Agent, ctx: Context, journal: Journal)
    requires HooksOk(agent)
  {
    agent.active && (agent.hooks.Some? && Scheduled(ctx) ==> Starts(agent.hooks.value, ctx.clock, journal))
  }

  predicate HooksOk(agent: Agent) {
    agent.hooks.Some? ==> forall i :: 0 <= i < |agent.hooks.value.preRun| ==> WellFormed(agent.hooks.value.preRun[i])
  }

  predicate IsCapped(e: Ended) {
    e == Returned(Skipped(Capped, None))
  }

  predicate TakesPreRun(ctx: Context) {
    (ctx.trigger.None? || ctx.trigger == Some(Cron)) && (ctx.task.Some? ==> ctx.task.value.checkpoint.None?)
  }

  function SignatureFacts(p: Proposal): Facts {
    if p.signatureFacts.Some? then p.signatureFacts.value else p.facts
  }

  function CommitOf(r: Result): Option<Commit> {
    match r case Executed => None case ApprovalRequested(_, c) => c case Skipped(_, c) => c
  }

  /** A commit says exactly what the checkpoint recorded. */
  predicate CommitMatches(cp: Checkpoint, c: Commit) {
    match cp
    case NoSignalCheckpoint => c.kind == NoSignalCommit
    case ProposalCheckpoint(action, facts, next) =>
      c.kind != NoSignalCommit && c.action == action && c.facts == facts && c.next == next
  }

  /** The run itself fails: its skill does, or the checkpoint it takes over is not its own or says nothing. */
  predicate BreaksDown(skill: string, task: Option<TaskRun>, w: World) {
    if task.Some? && task.value.checkpoint.Some? then
      var (owner, cp) := task.value.checkpoint.value;
      owner != skill || (cp.ProposalCheckpoint? && Trim(cp.action) == "")
    else w.implemented && (w.answer.Failed? || (w.answer.Stopped? && w.answer.reason !in SkillStops))
  }

  /** The record a proposal is compared by: the one it declares for that, else its facts. */
  predicate ComparedBy(p: Proposal, s: Facts) {
    p.signatureFacts == Some(s) || (p.signatureFacts.None? && p.facts == s)
  }

  /** A run that produced a proposal and kept its lease. */
  predicate Produces(w: World) {
    w.implemented && w.leaseHolds && w.answer.Proposed?
  }

  /**
   * Whatever else the proposal holds, the record it is compared by decides: outside task mode it is submitted exactly
   * when the memory does not match it and the cap is not reached, and unless it was capped the memory matches it then.
   */
  ghost predicate DecidedBy(before: Option<Signature>, after: Option<Signature>, w: World, long: Facts -> bool,
                            e: Ended)
  {
    Produces(w) && e.Returned? ==>
      forall s {:trigger ComparedBy(w.answer.proposal, s)} :: ComparedBy(w.answer.proposal, s) ==>
        && (MatchesSignature(before, s, long) <==> e.result.Skipped? && e.result.reason == NoChange)
        && (Submitted(e) <==> !MatchesSignature(before, s, long) && !w.capped)
        && (IsCapped(e) <==> !MatchesSignature(before, s, long) && w.capped)
        && if IsCapped(e) then after == before else MatchesSignature(after, s, long)
  }

  predicate SaysProposal(c: Commit, p: Proposal) {
    c.action == p.action && c.facts == p.facts && c.next == p.next
  }

  /** In task mode the record decides between no change and an approval whose commit carries its signature. */
  ghost predicate TaskDecidedBy(memory: Option<Signature>, task: TaskRun, w: World, long: Facts -> bool, e: Ended) {
    Produces(w) && task.checkpoint.None? && e.Returned? ==>
      forall s {:trigger ComparedBy(w.answer.proposal, s)} :: ComparedBy(w.answer.proposal, s) ==>
        && CommitOf(e.result).Some? && SaysProposal(CommitOf(e.result).value, w.answer.proposal)
        && KindFits(CommitOf(e.result).value, e.result)
        && if MatchesSignature(memory, s, long) then e.result.Skipped? && e.result.reason == NoChange
           else e.result.ApprovalRequested? && MatchesSignature(CommitOf(e.result).value.memorySignature, s, long)
  }

  /** The gate of direct execution. */
  predicate MayExecute(agent: Agent, skill: string, threshold: Tier, floor: Option<Tier>, ctx: Context) {
    && ctx.task.None? && agent.active && skill !in agent.breakGlass && threshold != T0
    && AtLeast(threshold, agent.autonomyDefault) && (floor.Some? ==> AtLeast(threshold, floor.value))
  }

  predicate Submitted(e: Ended) {
    e.Returned? && (e.result.Executed? || e.result.ApprovalRequested?)
  }

  predicate KindFits(c: Commit, r: Result) {
    && (c.kind == ApprovalCommit <==> r.ApprovalRequested?)
    && (c.kind == NoChangeCommit <==> r.Skipped? && r.reason == NoChange)
    && (c.kind == ApprovalCommit <==> c.memorySignature.Some?)
  }

  /** What a task run that returns must have returned: a takeover and a first run alike. */
  predicate TaskOutcome(task: TaskRun, w: World, memory: Option<Signature>, long: Facts -> bool, e: Ended) {
    e.Returned? ==>
      if task.checkpoint.None? && !w.implemented then e.result == Skipped(NotImplemented, None)
      else
        match if task.checkpoint.Some? then Resumed(task.checkpoint.value.1, w.leaseHolds) else Checked(w)
        case Failed => false
        case Stopped(reason) => e.result == Skipped(reason, None)
        case NoProposal => e.result.Skipped? && e.result.reason == NoSignalSeen && e.result.commit.Some?
        case Proposed(p) =>
          var facts := SignatureFacts(p);
          if MatchesSignature(memory, facts, long) then e.result.Skipped? && e.result.reason == NoChange
                                                        && e.result.commit.Some?
          else e.result.ApprovalRequested? && e.result.commit.Some?
               && e.result.commit.value.memorySignature == Some(Sign(facts, long))
  }

  /** A run taken over, in words of its checkpoint: a lost lease ends it quietly, else the recorded facts decide. */
  predicate TakeOverOutcome(task: TaskRun, skill: string, w: World, memory: Option<Signature>, long: Facts -> bool,
                            e: Ended) {
    task.checkpoint.Some? && task.checkpoint.value.0 == skill ==>
      var cp := task.checkpoint.value.1;
      var blank := cp.ProposalCheckpoint? && Trim(cp.action) == "";
      && (blank ==> e.Threw?)
      && (!blank && !w.leaseHolds ==> e == Returned(Skipped(LedgerUnavailable, None)))
      && (e.Returned? && w.leaseHolds && cp.NoSignalCheckpoint? ==>
            e.result.Skipped? && e.result.reason == NoSignalSeen)
      && (e.Returned? && w.leaseHolds && cp.ProposalCheckpoint? ==>
            (e.result.ApprovalRequested? <==> !MatchesSignature(memory, cp.facts, long)))
  }

  /** A lease check that fails right after the skill ends a run quietly, whatever the skill answered. */
  predicate LostLeaseIsQuiet(w: World, e: Ended) {
    e.Returned? && w.implemented && !w.leaseHolds && (w.answer.Proposed? || w.answer.NoProposal?) ==>
      e.result == Skipped(LedgerUnavailable, None)
  }

  predicate TaskEffect(e: Effect) {
    e.SkillCalled? || e.CheckpointSaved?
  }

  predicate NoSkillSince(log: seq<Effect>, from: nat) {
    forall i :: from <= i < |log| ==> !log[i].SkillCalled?
  }

  predicate Asked(log: seq<Effect>, from: nat, tier: Tier) {
    exists i :: from <= i < |log| && log[i] == ApprovalAsked(tier)
  }

  predicate NothingAsked(log: seq<Effect>, from: nat) {
    forall i :: from <= i < |log| ==> !log[i].ApprovalAsked?
  }

  predicate Noted(log: seq<Effect>, from: nat) {
    exists i :: from <= i < |log| && log[i].ActionEvent?
  }

  /**
   * The result is what the effects were: an approval was asked for, or the executor ran and nothing was asked; noted
   * either way.
   */
  predicate SubmittedIn(log: seq<Effect>, from: nat, r: Result) {
    && (r.ApprovalRequested? || r.Executed? ==> Noted(log, from))
    && (r.ApprovalRequested? ==> Asked(log, from, r.tier))
    && (r.Executed? ==> !NoExecutorSince(log, from) && NothingAsked(log, from))
    && (r.Skipped? ==> NoExecutorSince(log, from) && NothingAsked(log, from))
  }

  predicate NoExecutorSince(log: seq<Effect>, from: nat) {
    forall i :: from <= i < |log| ==> !log[i].ExecutorCalled?
  }

  /** A task run's own effects: at most the skill call and then its checkpoint, the very values it commits. */
  predicate TaskLog(log: seq<Effect>, skill: string, task: TaskRun, e: Ended) {
    && (forall i :: 0 <= i < |log| ==> TaskEffect(log[i]))
    && (task.checkpoint.Some? ==> log == [])
    && (e.Returned? && CommitOf(e.result).Some? ==>
          if task.checkpoint.Some? then task.checkpoint.value.0 == skill
                                        && CommitMatches(task.checkpoint.value.1, CommitOf(e.result).value)
          else log != [] && log[|log| - 1].CheckpointSaved? && log[|log| - 1].skill == skill
               && CommitMatches(log[|log| - 1].checkpoint, CommitOf(e.result).value))
  }

  class SkillRunner {
    const long: Facts -> bool
    var memory: map<(string, string), Signature>
    var log: seq<Effect>

    constructor (long: Facts -> bool)
      ensures this.long == long && memory == map[] && log == []
    {
      this.long := long;
      memory := map[];
      log := [];
    }

    function Recall(agent: string, skill: string): Option<Signature>
      reads this
    {
      if (agent, skill) in memory then Some(memory[(agent, skill)]) else None
    }

    /** The memory of every other agent and skill is as it was. */
    twostate predicate OthersRemembered(agent: Agent, skill: string)
      reads this
    {
      forall k :: k != (agent.name, skill) ==>
        (k in memory <==> k in old(memory)) && (k in memory ==> memory[k] == old(memory)[k])
    }

    /** `rememberMemory`: a call that throws may or may not have written. */
    method Remember(agent: string, skill: string, s: Signature, w: World) returns (ok: bool)
      modifies this
      ensures ok <==> MemoryWrite !in w.throws
      ensures ok ==> memory == old(memory)[(agent, skill) := s] && log == old(log) + [MemoryWritten(s)]
      ensures memory == old(memory) || memory == old(memory)[(agent, skill) := s]
      ensures log == old(log) || log == old(log) + [MemoryWritten(s)]
    {
      ok := MemoryWrite !in w.throws;
      if ok || w.written {
        memory := memory[(agent, skill) := s];
        log := log + [MemoryWritten(s)];
      }
    }

    /** The skill itself, then in task mode its durable checkpoint; or the checkpoint of the run taken over. */
    method Produce(skill: string, task: Option<TaskRun>, w: World) returns (p: Produced)
      modifies this`log
      ensures old(log) <= log && NoExecutorSince(log, |old(log)|)
      ensures var takenOver := task.Some? && task.value.checkpoint.Some?;
              var due := if takenOver then Resumed(task.value.checkpoint.value.1, w.leaseHolds) else Checked(w);
              p == due || (p == Failed && task.Some? && task.value.checkpoint.None? && CheckpointCall in w.throws)
      ensures task.Some? ==>
                var added := log[|old(log)|..];
                && (forall i :: 0 <= i < |added| ==> TaskEffect(added[i]))
                && (task.value.checkpoint.Some? ==> added == [])
                && (p.Proposed? || p.NoProposal? ==>
                      if task.value.checkpoint.Some? then task.value.checkpoint.value.1 == CheckpointFor(p)
                      else added != [] && added[|added| - 1] == CheckpointSaved(skill, CheckpointFor(p)))
      ensures task.None? ==> log == old(log) + [SkillCalled]
    {
      if task.Some? && task.value.checkpoint.Some? { return Resumed(task.value.checkpoint.value.1, w.leaseHolds); }
      log := log + [SkillCalled];
      p := Checked(w);
      if task.Some? && (p.Proposed? || p.NoProposal?) {
        log := log + [CheckpointSaved(skill, CheckpointFor(p))];
        if CheckpointCall in w.throws { return Failed; }
      }
    }

    /**
     * `runSkillInner` followed by its wrapper's hooks. `seen` is what a cron run that got past the hooks and
     * the skill observed.
     */
    method RunSkill(agent: Agent, skill: string, threshold: Tier, floor: Option<Tier>, ctx: Context, journal: Journal)
      returns (e: Ended, seen: Option<Observation>)
      requires HooksOk(agent)
      modifies this
      ensures old(log) <= log
      // The executor is called only through the gate.
      ensures !NoExecutorSince(log, |old(log)|) ==> MayExecute(agent, skill, threshold, floor, ctx)
      ensures e == Returned(Executed) ==> MayExecute(agent, skill, threshold, floor, ctx)
      // A task run writes nothing but its checkpoint, and commits that checkpoint.
      ensures ctx.task.Some? ==> memory == old(memory) && TaskLog(log[|old(log)|..], skill, ctx.task.value, e)
      ensures ctx.task.None? && e.Returned? ==> CommitOf(e.result).None?
      // An inactive agent does nothing at all; a hook that refuses keeps the skill from being called.
      ensures !agent.active ==> e == Returned(Skipped(Inactive, None)) && log == old(log)
      ensures agent.active && agent.hooks.Some? && Scheduled(ctx)
              && !Starts(agent.hooks.value, ctx.clock, journal) ==>
                NoSkillSince(log, |old(log)|) && (e.Returned? ==> e.result.Skipped? && e.result.reason == HookBlocked)
      ensures e.Returned? && e.result.Skipped? && e.result.reason == HookBlocked ==>
                agent.hooks.Some? && Scheduled(ctx) && !Starts(agent.hooks.value, ctx.clock, journal)
      // What is submitted really was, at the strictest tier.
      ensures e.Returned? && e.result.ApprovalRequested? ==>
                e.result.tier == EffectiveActionTier(agent.autonomyDefault, floor)
      ensures e.Returned? && ctx.task.None? ==> SubmittedIn(log, |old(log)|, e.result)
      // The memory of the delta check.
      ensures OthersRemembered(agent, skill)
      ensures e.Returned? && seen.None? ==> memory == old(memory)
      ensures e.Returned? && e.result.Skipped? && (e.result.reason == Capped || e.result.reason == HookBlocked) ==>
                memory == old(memory)
      ensures ctx.task.None? && e.Returned? ==>
                seen == if LetStart(agent, ctx, journal) then Observed(ctx.world) else None
      ensures ctx.task.None? && e.Returned? && seen.Some? ==>
                && (IsCapped(e) <==> Submits(old(Recall(agent.name, skill)), seen.value, long) && ctx.world.capped)
                && (Submitted(e) <==> Submits(old(Recall(agent.name, skill)), seen.value, long) && !ctx.world.capped)
                && (!IsCapped(e) ==> Recall(agent.name, skill)
                                       == Remembered(old(Recall(agent.name, skill)), seen.value, long))
      ensures ctx.task.None? && Submitted(e) ==>
                seen.Some? && (e.result.Executed? <==>
                                 MayExecute(agent, skill, threshold, floor, ctx) && ctx.world.hasExecutor
                                 && ctx.world.verified)
      // A task run asks for approval exactly when its facts differ from the memory; a failed lease check ends it
      // quietly.
      ensures ctx.task.Some? && LetStart(agent, ctx, journal) ==>
                && TaskOutcome(ctx.task.value, ctx.world, Recall(agent.name, skill), long, e)
                && TakeOverOutcome(ctx.task.value, skill, ctx.world, Recall(agent.name, skill), long, e)
      ensures LetStart(agent, ctx, journal) && (ctx.task.Some? ==> ctx.task.value.checkpoint.None?) ==>
                LostLeaseIsQuiet(ctx.world, e)
      // The record that the proposal is compared by decides.
      ensures ctx.task.None? && LetStart(agent, ctx, journal) ==>
                DecidedBy(old(Recall(agent.name, skill)), Recall(agent.name, skill), ctx.world, long, e)
      ensures ctx.task.Some? && LetStart(agent, ctx, journal) ==>
                TaskDecidedBy(Recall(agent.name, skill), ctx.task.value, ctx.world, long, e)
      // Only a call that throws, or the skill itself, makes a run throw.
      ensures e.Threw? ==> ctx.world.throws != {}
                           || (LetStart(agent, ctx, journal) && BreaksDown(skill, ctx.task, ctx.world))
    {
      seen := None;
      if agent.hooks.Some? && agent.hooks.value.preRun != [] && agent.active && TakesPreRun(ctx) {
        var ok := RunPreRunHooks(agent.hooks.value, ctx.clock, journal);
        assert ok == Starts(agent.hooks.value, ctx.clock, journal);
        if !ok {
          e := HookRefusal(skill, ctx.task, ctx.world);
          return;
        }
      }
      if !agent.active { return Returned(Skipped(Inactive, None)), None; }
      if ctx.task.Some? {
        e := RunTask(agent, skill, floor, ctx.task.value, ctx.world);
      } else {
        e, seen := RunCron(agent, skill, threshold, floor, ctx);
      }
    }

    method HookRefusal(skill: string, task: Option<TaskRun>, w: World) returns (e: Ended)
      requires task.Some? ==> task.value.checkpoint.None?
      modifies this`log
      ensures old(log) <= log && NoExecutorSince(log, |old(log)|)
      ensures e.Returned? ==> e.result.Skipped? && e.result.reason == HookBlocked
      ensures task.Some? ==> TaskLog(log[|old(log)|..], skill, task.value, e)
      ensures task.None? ==> e.Returned? && e.result.commit.None? && log == old(log)
      ensures NoSkillSince(log, |old(log)|) && (e.Threw? ==> w.throws != {})
    {
      if task.None? { return Returned(Skipped(HookBlocked, None)); }
      if LeaseCall in w.throws { return Threw; }
      log := log + [CheckpointSaved(skill, NoSignalCheckpoint)];
      if CheckpointCall in w.throws { return Threw; }
      return Returned(Skipped(HookBlocked, Some(Commit(NoSignalCommit, "", [], [], None))));
    }

    /** The body in task mode: no event, no memory, no executor; the outcome goes into the commit. */
    method RunTask(agent: Agent, skill: string, floor: Option<Tier>, task: TaskRun, w: World) returns (e: Ended)
      modifies this`log
      ensures old(log) <= log && NoExecutorSince(log, |old(log)|)
      ensures e.Returned? ==> !e.result.Executed?
      ensures e.Returned? && e.result.Skipped? ==> e.result.reason != HookBlocked && e.result.reason != Capped
      ensures TaskLog(log[|old(log)|..], skill, task, e)
      ensures e.Returned? && e.result.ApprovalRequested? ==>
                e.result.tier == EffectiveActionTier(agent.autonomyDefault, floor)
      ensures e.Returned? && CommitOf(e.result).Some? ==> KindFits(CommitOf(e.result).value, e.result)
      ensures TaskOutcome(task, w, Recall(agent.name, skill), long, e)
      ensures TakeOverOutcome(task, skill, w, Recall(agent.name, skill), long, e)
      ensures task.checkpoint.None? ==> LostLeaseIsQuiet(w, e)
      ensures TaskDecidedBy(Recall(agent.name, skill), task, w, long, e)
      ensures e.Threw? ==> w.throws != {} || BreaksDown(skill, Some(task), w)
    {
      if task.checkpoint.Some? && task.checkpoint.value.0 != skill { return Threw; }
      if !w.implemented && task.checkpoint.None? { return Returned(Skipped(NotImplemented, None)); }
      var p := Produce(skill, Some(task), w);
      match p {
        case Failed => return Threw;
        case Stopped(reason) => return Returned(Skipped(reason, None));
        case NoProposal => return Returned(Skipped(NoSignalSeen, Some(Commit(NoSignalCommit, "", [], [], None))));
        case Proposed(proposal) =>
          var facts := SignatureFacts(proposal);
          if MemoryRead in w.throws { return Threw; }
          if MatchesSignature(Recall(agent.name, skill), facts, long) {
            return Returned(Skipped(NoChange,
                                    Some(Commit(NoChangeCommit, proposal.action, proposal.facts, proposal.next,
                                                None))));
          }
          var tier := EffectiveActionTier(agent.autonomyDefault, floor);
          return Returned(ApprovalRequested(tier,
                                            Some(Commit(ApprovalCommit, proposal.action, proposal.facts, proposal.next,
                                                              Some(Sign(facts, long))))));
      }
    }

    /** The body outside task mode. */
    method RunCron(agent: Agent, skill: string, threshold: Tier, floor: Option<Tier>, ctx: Context)
      returns (e: Ended, seen: Option<Observation>)
      requires agent.active && ctx.task.None?
      modifies this
      ensures old(log) <= log
      ensures !NoExecutorSince(log, |old(log)|) || e == Returned(Executed) ==>
                MayExecute(agent, skill, threshold, floor, ctx)
      ensures e.Returned? ==> CommitOf(e.result).None?
      ensures OthersRemembered(agent, skill)
      ensures e.Returned? && (seen.None? || IsCapped(e)) ==> memory == old(memory)
      ensures e.Returned? ==> seen == Observed(ctx.world)
      ensures LostLeaseIsQuiet(ctx.world, e)
      ensures e.Returned? && seen.Some? ==>
                && (IsCapped(e) <==> Submits(old(Recall(agent.name, skill)), seen.value, long) && ctx.world.capped)
                && (Submitted(e) <==> Submits(old(Recall(agent.name, skill)), seen.value, long) && !ctx.world.capped)
                && (!IsCapped(e) ==> Recall(agent.name, skill)
                                       == Remembered(old(Recall(agent.name, skill)), seen.value, long))
      ensures Submitted(e) ==>
                seen.Some? && (e.result.Executed? <==>
                                 MayExecute(agent, skill, threshold, floor, ctx) && ctx.world.hasExecutor
                                 && ctx.world.verified)
      ensures e.Returned? && e.result.Skipped? ==> e.result.reason != HookBlocked
      ensures e.Returned? && e.result.ApprovalRequested? ==>
                e.result.tier == EffectiveActionTier(agent.autonomyDefault, floor)
      ensures e.Returned? ==> SubmittedIn(log, |old(log)|, e.result)
      ensures DecidedBy(old(Recall(agent.name, skill)), Recall(agent.name, skill), ctx.world, long, e)
      ensures e.Threw? ==> ctx.world.throws != {} || BreaksDown(skill, ctx.task, ctx.world)
    {
      seen := None;
      log := log + [RunEvent];
      if RunEventCall in ctx.world.throws { return Threw, None; }
      if !ctx.world.implemented { return Returned(Skipped(NotImplemented, None)), None; }
      var p := Produce(skill, None, ctx.world);
      if p.Failed? { return Threw, None; }
      if p.Stopped? { return Returned(Skipped(p.reason, None)), None; }
      seen := Observed(ctx.world);
      e := Weigh(agent, skill, threshold, floor, ctx, p);
    }

    /** What becomes of an observation: the memory decides, then the cap, then the gate. */
    method Weigh(agent: Agent, skill: string, threshold: Tier, floor: Option<Tier>, ctx: Context, p: Produced)
      returns (e: Ended)
      requires agent.active && ctx.task.None? && ctx.world.implemented && p == Checked(ctx.world)
               && (p.Proposed? || p.NoProposal?)
      modifies this
      ensures old(log) <= log
      ensures !NoExecutorSince(log, |old(log)|) || e == Returned(Executed) ==>
                MayExecute(agent, skill, threshold, floor, ctx)
      ensures e.Returned? ==> CommitOf(e.result).None? && SubmittedIn(log, |old(log)|, e.result)
      ensures OthersRemembered(agent, skill)
      ensures e.Returned? ==>
                var o := Observed(ctx.world).value;
                && (IsCapped(e) <==> Submits(old(Recall(agent.name, skill)), o, long) && ctx.world.capped)
                && (Submitted(e) <==> Submits(old(Recall(agent.name, skill)), o, long) && !ctx.world.capped)
                && (IsCapped(e) ==> memory == old(memory))
                && (!IsCapped(e) ==> Recall(agent.name, skill) == Remembered(old(Recall(agent.name, skill)), o, long))
      ensures Submitted(e) ==>
                (e.result.Executed? <==> MayExecute(agent, skill, threshold, floor, ctx) && ctx.world.hasExecutor
                                         && ctx.world.verified)
      ensures e.Returned? && e.result.Skipped? ==> e.result.reason in {NoSignalSeen, NoChange, Capped}
      ensures e.Returned? && e.result.ApprovalRequested? ==>
                e.result.tier == EffectiveActionTier(agent.autonomyDefault, floor)
      ensures DecidedBy(old(Recall(agent.name, skill)), Recall(agent.name, skill), ctx.world, long, e)
      ensures e.Threw? ==> ctx.world.throws != {}
    {
      if MemoryRead in ctx.world.throws { return Threw; }
      var last := Recall(agent.name, skill);
      if p.NoProposal? {
        if last.Some? && last != Some(NoSignal) {
          var ok := Remember(agent.name, skill, NoSignal, ctx.world);
          if !ok { return Threw; }
        }
        return Returned(Skipped(NoSignalSeen, None));
      }
      var facts := SignatureFacts(p.proposal);
      if MatchesSignature(last, facts, long) { return Returned(Skipped(NoChange, None)); }
      if CountCall in ctx.world.throws { return Threw; }
      if ctx.world.capped { return Returned(Skipped(Capped, None)); }
      e := Submit(agent, skill, threshold, floor, Sign(facts, long), ctx);
    }

    /** Direct execution through the gate, otherwise the owner's approval; then the memory. */
    method Submit(agent: Agent, skill: string, threshold: Tier, floor: Option<Tier>, s: Signature, ctx: Context)
      returns (e: Ended)
      requires agent.active && ctx.task.None?
      modifies this
      ensures old(log) <= log
      ensures !NoExecutorSince(log, |old(log)|) || e == Returned(Executed) ==>
                MayExecute(agent, skill, threshold, floor, ctx)
      ensures e.Returned? ==> Submitted(e) && CommitOf(e.result).None?
                              && memory == old(memory)[(agent.name, skill) := s]
      ensures memory == old(memory) || memory == old(memory)[(agent.name, skill) := s]
      ensures e.Returned? ==>
                (e.result.Executed? <==> MayExecute(agent, skill, threshold, floor, ctx) && ctx.world.hasExecutor
                                         && ctx.world.verified)
      ensures e.Returned? && e.result.ApprovalRequested? ==>
                e.result.tier == EffectiveActionTier(agent.autonomyDefault, floor)
      ensures e.Returned? ==> SubmittedIn(log, |old(log)|, e.result)
      ensures e.Threw? ==> ctx.world.throws != {}
    {
      var tier := EffectiveActionTier(agent.autonomyDefault, floor);
      if ctx.world.hasExecutor && skill !in agent.breakGlass && !RequiresApproval(tier, threshold) {
        if LeaseCall in ctx.world.throws { return Threw; }
        log := log + [ExecutorCalled];
        ghost var at := |log| - 1;
        if ExecutorCall in ctx.world.throws { return Threw; }
        if ctx.world.verified {
          log := log + [ActionEvent];
          if ActionCall in ctx.world.throws { return Threw; }
          var ok := Remember(agent.name, skill, s, ctx.world);
          assert log[at].ExecutorCalled? && log[at + 1].ActionEvent?;
          return if ok then Returned(Executed) else Threw;
        }
      }
      e := AskOwner(agent, skill, tier, s, ctx.world);
    }

    /** The owner's approval, the event, and then the memory. */
    method AskOwner(agent: Agent, skill: string, tier: Tier, s: Signature, w: World) returns (e: Ended)
      modifies this
      ensures e.Threw? ==> w.throws != {}
      ensures old(log) <= log && NoExecutorSince(log, |old(log)|)
      ensures e.Returned? ==>
                e.result == ApprovalRequested(tier, None) && Asked(log, |old(log)|, tier) && Noted(log, |old(log)|)
      ensures e.Returned? ==> memory == old(memory)[(agent.name, skill) := s]
      ensures memory == old(memory) || memory == old(memory)[(agent.name, skill) := s]
    {
      log := log + [ApprovalAsked(tier)];
      if ApprovalCall in w.throws { return Threw; }
      log := log + [ActionEvent];
      if ActionCall in w.throws { return Threw; }
      var ok := Remember(agent.name, skill, s, w);
      assert log[|old(log)|] == ApprovalAsked(tier) && log[|old(log)| + 1] == ActionEvent;
      return if ok then Returned(ApprovalRequested(tier, None)) else Threw;
    }
  }

  /** What a run adds to the history of observations: nothing when it was capped, blocked or saw nothing through. */
  ghost function Counted(agent: Agent, ctx: Context, journal: Journal, e: Ended): seq<Observation>
    requires HooksOk(agent)
  {
    if LetStart(agent, ctx, journal) && e.Returned? && !IsCapped(e) && Observed(ctx.world).Some?
    then [Observed(ctx.world).value] else []
  }

  /**
   * A run after history `h` submits exactly when it is not capped and saw a proposal that differs from the last
   * observation.
   */
  ghost predicate SubmitsOnChange(first: Option<Signature>, h: seq<Observation>, ctx: Context, e: Ended, lets: bool,
                                  long: Facts -> bool) {
    var o := Observed(ctx.world);
    Submitted(e) <==>
      && lets && o.Some? && o.value.Seen? && !ctx.world.capped
      && if h == [] then !MatchesSignature(first, o.value.facts, long) else !SameObservation(h[|h| - 1], o.value)
  }

  /** What the skill answers are records: no field twice. */
  predicate ProperAnswer(ctx: Context) {
    Observed(ctx.world).Some? ==> ProperRecord(Observed(ctx.world).value)
  }

  /** A signature that matches a record matches exactly the equal ones. */
  lemma MatchIffSame(stored: Option<Signature>, s: Facts, s': Facts, long: Facts -> bool)
    requires DistinctKeys(s) && DistinctKeys(s') && MatchesSignature(stored, s, long)
    ensures MatchesSignature(stored, s', long) <==> SameFacts(s, s')
  {
    CanonicalIffSame(s, s');
  }

  /** A run outside task mode that nothing keeps from an uncapped proposal compared by `s`. */
  ghost predicate Smooth(agent: Agent, ctx: Context, journal: Journal, s: Facts)
    requires HooksOk(agent)
  {
    && ctx.task.None? && LetStart(agent, ctx, journal) && ctx.world.throws == {}
    && Produces(ctx.world) && !ctx.world.capped && ComparedBy(ctx.world.answer.proposal, s) && DistinctKeys(s)
  }

  /** Of two runs one after the other the second submits exactly when the compared records differ. */
  method RunTwice(runner: SkillRunner, agent: Agent, skill: string, threshold: Tier, floor: Option<Tier>,
                  first: Context,
                  second: Context, journal: Journal, journal': Journal, ghost s: Facts, ghost s': Facts)
    returns (e: Ended, e': Ended)
    requires HooksOk(agent) && Smooth(agent, first, journal, s) && Smooth(agent, second, journal', s')
    modifies runner
    ensures e.Returned? && e'.Returned?
    ensures Submitted(e') <==> !SameFacts(s, s')
    ensures !Submitted(e') ==> e'.result.Skipped? && e'.result.reason == NoChange
  {
    var seen;
    e, seen := runner.RunSkill(agent, skill, threshold, floor, first, journal);
    MatchIffSame(runner.Recall(agent.name, skill), s, s', runner.long);
    e', seen := runner.RunSkill(agent, skill, threshold, floor, second, journal');
  }

  /** Every observation of a history is a proper record. */
  predicate ProperHistory(h: seq<Observation>) {
    forall i :: 0 <= i < |h| ==> ProperRecord(h[i])
  }

  /** One more run after a history whose observations the memory reflects. */
  lemma HistoryStep(first: Option<Signature>, h: seq<Observation>, o: Observation, long: Facts -> bool)
    requires ProperRecord(o) && ProperHistory(h)
    ensures Submits(MemoryAfter(first, h, long), o, long) <==>
              && o.Seen?
              && if h == [] then !MatchesSignature(first, o.facts, long) else !SameObservation(h[|h| - 1], o)
    ensures MemoryAfter(first, h + [o], long) == Remembered(MemoryAfter(first, h, long), o, long)
  {
    assert (h + [o])[..|h|] == h;
    if h != [] {
      var all := h + [o];
      assert all[..|h|] == h;
      SubmitsExactlyOnChange(first, all, |h|, long);
    }
  }

  /** What one returned run does to the history and the memory that reflects it. */
  lemma HistoryGrows(first: Option<Signature>, h: seq<Observation>, agent: Agent, ctx: Context, journal: Journal,
                     e: Ended,
                     seen: Option<Observation>, after: Option<Signature>, long: Facts -> bool)
    requires HooksOk(agent) && ProperAnswer(ctx) && e.Returned? && ProperHistory(h)
    requires seen == if LetStart(agent, ctx, journal) then Observed(ctx.world) else None
    requires seen.None? ==> !Submitted(e) && after == MemoryAfter(first, h, long)
    requires seen.Some? ==>
               var before := MemoryAfter(first, h, long);
               && (IsCapped(e) <==> Submits(before, seen.value, long) && ctx.world.capped)
               && (Submitted(e) <==> Submits(before, seen.value, long) && !ctx.world.capped)
               && after == if IsCapped(e) then before else Remembered(before, seen.value, long)
    ensures var h' := h + Counted(agent, ctx, journal, e);
            && after == MemoryAfter(first, h', long)
            && ProperHistory(h')
            && SubmitsOnChange(first, h, ctx, e, LetStart(agent, ctx, journal), long)
  {
    assert h + [] == h;
    if seen.Some? { HistoryStep(first, h, seen.value, long); }
  }

  /** One run after history `h`, which the memory reflects. */
  method RunAfter(runner: SkillRunner, agent: Agent, skill: string, threshold: Tier, floor: Option<Tier>, ctx: Context,
                  journal: Journal, ghost first: Option<Signature>, ghost h: seq<Observation>)
    returns (e: Ended)
    requires HooksOk(agent) && ctx.task.None? && ProperAnswer(ctx) && ProperHistory(h)
    requires runner.Recall(agent.name, skill) == MemoryAfter(first, h, runner.long)
    modifies runner
    ensures e.Returned? ==>
              && ProperHistory(h + Counted(agent, ctx, journal, e))
              && runner.Recall(agent.name, skill)
                   == MemoryAfter(first, h + Counted(agent, ctx, journal, e), runner.long)
              && SubmitsOnChange(first, h, ctx, e, LetStart(agent, ctx, journal), runner.long)
  {
    var seen;
    e, seen := runner.RunSkill(agent, skill, threshold, floor, ctx, journal);
    if e.Returned? {
      HistoryGrows(first, h, agent, ctx, journal, e, seen, runner.Recall(agent.name, skill), runner.long);
    }
  }

  /**
   * Runs of one skill one after another, with capped, blocked and quiet runs in between, up to the first that
   * throws, each with the journal as it stands then: `histories[k]` is what the runs before run k observed, and run k
   * submits exactly on a change.
   */
  method RunHistory(runner: SkillRunner, agent: Agent, skill: string, threshold: Tier, floor: Option<Tier>,
                    runs: seq<Context>, journals: seq<Journal>)
    returns (ends: seq<Ended>, ghost histories: seq<seq<Observation>>)
    requires HooksOk(agent) && |journals| == |runs|
    requires forall i :: 0 <= i < |runs| ==> runs[i].task.None? && ProperAnswer(runs[i])
    modifies runner
    ensures |ends| <= |runs| && (|ends| < |runs| ==> ends != [] && ends[|ends| - 1].Threw?)
    ensures |histories| == |ends| + 1 && histories[0] == []
    ensures forall k :: 0 <= k < |ends| ==>
              histories[k + 1] == histories[k] + Counted(agent, runs[k], journals[k], ends[k])
    ensures forall k :: 0 <= k < |ends| && ends[k].Returned? ==>
              SubmitsOnChange(old(runner.Recall(agent.name, skill)), histories[k], runs[k], ends[k],
                              LetStart(agent, runs[k], journals[k]), runner.long)
  {
    ends, histories := [], [[]];
    ghost var first := runner.Recall(agent.name, skill);
    for n := 0 to |runs|
      invariant |ends| == n && |histories| == n + 1 && histories[0] == []
      invariant forall k :: 0 <= k < n ==>
                  ends[k].Returned? && histories[k + 1] == histories[k] + Counted(agent, runs[k], journals[k], ends[k])
      invariant ProperHistory(histories[n])
      invariant runner.Recall(agent.name, skill) == MemoryAfter(first, histories[n], runner.long)
      invariant forall k :: 0 <= k < n ==>
                  SubmitsOnChange(first, histories[k], runs[k], ends[k], LetStart(agent, runs[k], journals[k]),
                                  runner.long)
    {
      ghost var h := histories[n];
      var e := RunAfter(runner, agent, skill, threshold, floor, runs[n], journals[n], first, h);
      ends := ends + [e];
      histories := histories + [h + Counted(agent, runs[n], journals[n], e)];
      if e.Threw? { return; }
    }
  }

  /**
   * What the gate means for the skill's files: no file of that name, nor any tool it lists, demands more than the
   * threshold.
   */
  lemma DirectExecutionRespectsFiles(metas: seq<SkillMeta>, floors: map<string, Tier>, agent: Agent, skill: string,
                                     threshold: Tier, ctx: Context)
    requires FloorsOf(metas, floors)
    requires MayExecute(agent, skill, threshold, if skill in floors then Some(floors[skill]) else None, ctx)
    ensures ctx.task.None? && agent.active && skill !in agent.breakGlass && threshold != T0
            && AtLeast(threshold, agent.autonomyDefault)
    ensures forall i :: 0 <= i < |metas| && metas[i].name == skill ==>
              && (metas[i].requiresApproval.Some? ==> AtLeast(threshold, metas[i].requiresApproval.value))
              && (forall j :: 0 <= j < |metas[i].allowedTools| ==>
                    AtLeast(threshold, ToolTypeMin(metas[i].allowedTools[j])))
  {
    forall i | 0 <= i < |metas| && metas[i].name == skill
      ensures metas[i].requiresApproval.Some? ==> AtLeast(threshold, metas[i].requiresApproval.value)
      ensures forall j :: 0 <= j < |metas[i].allowedTools| ==> AtLeast(threshold, ToolTypeMin(metas[i].allowedTools[j]))
    {
      if metas[i].requiresApproval.Some? { assert Demands(metas[i], metas[i].requiresApproval.value); }
      forall j | 0 <= j < |metas[i].allowedTools| ensures AtLeast(threshold, ToolTypeMin(metas[i].allowedTools[j])) {
        assert Demands(metas[i], ToolTypeMin(metas[i].allowedTools[j]));
      }
    }
  }
}
