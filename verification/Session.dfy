/**
 * The decisions `TaskLlmSession.runAttempt` takes between its calls to Core and the provider, and the
 * model list a planned step is bound to (apps/agents/src/task-llm-session.ts).
 */
module Session {
  import opened Common
  import opened LlmResult
  import opened CoreStore

  datatype Failure = Blocked | BudgetDenied | Unavailable | WorkflowChanged

  datatype AttemptEnd = Returned(result: StoredResult) | Threw(failure: Failure)

  /** What the client sees of one request: Core's reply, or nothing (timeout, broken connection). */
  datatype Heard<+T> = Reply(reply: Reply<T>) | Lost

  datatype Verdict = NotTerminal | Durable(result: StoredResult) | Corrupt

  /** `terminalResult`. */
  function TerminalResult(status: JobStatus, result: Option<StoredResult>): Verdict {
    if status != Succeeded && status != Rejected then NotTerminal
    else if result.None? || result.value.rejected != (status == Rejected) then Corrupt
    else Durable(result.value)
  }

  datatype AfterEnsure = EnsureEnds(end: AttemptEnd) | GoClaim(key: JobKey, operation: Operation)

  function OnEnsure(h: Heard<EnsureReply>): AfterEnsure {
    match h
    case Lost => EnsureEnds(Threw(Unavailable))
    case Reply(Refused(status)) => EnsureEnds(Threw(if status == 409 then Blocked else Unavailable))
    case Reply(Ok(r)) =>
      match TerminalResult(r.status, r.result)
      case Durable(result) => EnsureEnds(Returned(result))
      case Corrupt => EnsureEnds(Threw(Blocked))
      case NotTerminal =>
        if r.status == WaitingBudget then EnsureEnds(Threw(if r.denied then BudgetDenied else Unavailable))
        else if r.status != Ready then EnsureEnds(Threw(Blocked))
        else GoClaim(r.key, r.operation)
  }

  /** Only a lost response or a server error may be asked again, and only verbatim. */
  predicate Retryable<T>(h: Heard<T>) {
    h.Lost? || (h.reply.Refused? && h.reply.status >= 500)
  }

  datatype AfterClaim = ClaimAgain | ClaimEnds(end: AttemptEnd) | GoDispatch(payload: Payload)

  function OnClaim(h: Heard<ClaimReply>, retried: bool, ensured: Operation): AfterClaim {
    if Retryable(h) && !retried then ClaimAgain
    else match h
      case Lost => ClaimEnds(Threw(Blocked))
      case Reply(Refused(_)) => ClaimEnds(Threw(Blocked))
      case Reply(Ok(r)) =>
        match TerminalResult(r.status, r.result)
        case Durable(result) => ClaimEnds(Returned(result))
        case Corrupt => ClaimEnds(Threw(Blocked))
        case NotTerminal =>
          if !r.granted || r.status != Dispatching || r.payload.None? || r.operation != ensured then
            ClaimEnds(Threw(Blocked))
          else GoDispatch(r.payload.value)
  }

  /** The provider answered, or the call itself threw. */
  datatype ProviderReply = Answered(outcome: Outcome, result: ProviderResult) | Exploded

  function CompletionFor(p: ProviderReply): Completion {
    if p.Exploded? then Completion(Unknown, None) else CompletionOf(p.outcome, p.result)
  }

  /** After these the attempt is blocked whatever Core says to the completion. */
  predicate Hopeless(p: ProviderReply) {
    p.Exploded? || p.outcome == Unknown
  }

  datatype AfterComplete = CompleteAgain | CompleteEnds(end: AttemptEnd)

  function OnComplete(h: Heard<CompleteReply>, retried: bool, provider: ProviderReply): AfterComplete {
    if Retryable(h) && !retried then CompleteAgain
    else if h.Lost? || h.reply.Refused? || Hopeless(provider) then CompleteEnds(Threw(Blocked))
    else match TerminalResult(h.reply.value.status, h.reply.value.result)
      case Durable(result) => CompleteEnds(Returned(result))
      case _ => CompleteEnds(Threw(Blocked))
  }

  datatype BillingMode = Metered | Subscription | Local

  datatype Gateway = Gateway(billing: BillingMode, adapter: string, adapterVersion: nat, endpoint: string,
                             provider: string)

  /** `plannedStep`: the first step of that kind keyed by its own feature. */
  function PlannedStep(plan: seq<PlanStep>, kind: JobKind, feature: string): Option<PlanStep> {
    if plan == [] then None
    else if plan[0].stepKey == feature && plan[0].route.kind == kind && plan[0].route.feature == feature then
      Some(plan[0])
    else PlannedStep(plan[1..], kind, feature)
  }

  predicate RouteMatches(step: PlanStep, g: Gateway) {
    step.route.provider == g.provider && step.route.adapter == g.adapter
    && step.route.adapterVersion == g.adapterVersion && step.route.endpoint == g.endpoint
  }

  /** A gateway matches exactly when taking over the step's route would change nothing of it. */
  lemma MatchingRoute(step: PlanStep, g: Gateway)
    ensures RouteMatches(step, g)
            <==> g == Gateway(g.billing, step.route.adapter, step.route.adapterVersion, step.route.endpoint,
                              step.route.provider)
  {
  }

  datatype Models = Chain(models: seq<string>) | Changed

  /** `modelsForChat`: a planned chat step fixes the chain; the current configuration no longer counts. */
  function ModelsForChat(plan: seq<PlanStep>, feature: string, g: Gateway, configured: seq<string>): (m: Models)
    ensures PlannedStep(plan, Chat, feature).Some? && m.Chain? ==>
              m.models == PlannedStep(plan, Chat, feature).value.models
    ensures PlannedStep(plan, Chat, feature).None? && g.billing == Metered && m.Chain? ==>
              m.models == [] && configured == []
    ensures m.Changed? <==> if PlannedStep(plan, Chat, feature).Some?
                            then g.billing != Metered || !RouteMatches(PlannedStep(plan, Chat, feature).value, g)
                            else g.billing == Metered && configured != []
  {
    var step := PlannedStep(plan, Chat, feature);
    if step.Some? then
      if g.billing != Metered || !RouteMatches(step.value, g) then Changed else Chain(step.value.models)
    else if g.billing == Metered && configured == [] then Chain([])
    else if g.billing == Metered then Changed
    else Chain(configured)
  }
}
