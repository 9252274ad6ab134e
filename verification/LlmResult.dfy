/**
 * What a provider answered, how the task session turns it into a completion for Core, the evidence Core
 * keeps of it, and how a stored result is read back (apps/agents/src/task-llm-session.ts,
 * apps/core/src/tasks/task-llm-contract.ts).
 */
module LlmResult {
  import opened Common

  /** A JSON value of unchecked shape; objects are only ever read as token usage. */
  datatype Value =
    | Num(n: real)
    | Str(s: string)
    | Flag(b: bool)
    | Null
    | List(items: seq<Value>)
    | Record(usage: RawUsage)

  datatype RawUsage = RawUsage(
    inputTokens: Option<Value>, outputTokens: Option<Value>,
    cacheRead: Option<Value>, cacheCreation: Option<Value>,
    cacheCreation5m: Option<Value>, cacheCreation1h: Option<Value>, codeExecution: Option<Value>)

  datatype TokenUsage = TokenUsage(
    inputTokens: real, outputTokens: real,
    cacheRead: Option<real>, cacheCreation: Option<real>,
    cacheCreation5m: Option<real>, cacheCreation1h: Option<real>, codeExecution: Option<real>)

  datatype Outcome = Success | Rejection | Unknown

  /** The provider's answer to one wire request; a chat answer carries `text`, an embedding `vector`. */
  datatype ProviderResult = ProviderResult(
    text: Option<string>, vector: Option<seq<real>>,
    usage: Option<TokenUsage>, requestId: Option<string>, resolvedModel: Option<string>,
    costUsd: Option<real>, statusCode: Option<nat>, error: Option<string>)

  /** The completion payload and the stored result payload: every field optional, of unchecked shape. */
  datatype Evidence = Evidence(
    text: Option<Value>, vector: Option<Value>, error: Option<Value>, statusCode: Option<Value>,
    usage: Option<Value>, requestId: Option<Value>, resolvedModel: Option<Value>, reportedUsd: Option<Value>)

  datatype Completion = Completion(outcome: Outcome, result: Option<Evidence>)

  datatype JobKind = Chat | Embedding

  datatype StoredResult = StoredResult(rejected: bool, payload: Evidence)

  /** What `callChat` hands to its caller. */
  datatype ModelResult = ModelResult(
    text: string, model: string, ok: bool, usage: Option<TokenUsage>, requestId: Option<string>,
    resolvedModel: Option<string>, costUsd: Option<real>, statusCode: Option<nat>, error: Option<string>)

  function Map<T, U>(o: Option<T>, f: T -> U): Option<U> {
    match o case None => None case Some(v) => Some(f(v))
  }

  function NonEmpty(o: Option<string>): Option<string> {
    if o == Some("") then None else o
  }

  function UsageValue(u: TokenUsage): Value {
    Record(RawUsage(Some(Num(u.inputTokens)), Some(Num(u.outputTokens)),
                    Map(u.cacheRead, n => Num(n)), Map(u.cacheCreation, n => Num(n)),
                    Map(u.cacheCreation5m, n => Num(n)), Map(u.cacheCreation1h, n => Num(n)),
                    Map(u.codeExecution, n => Num(n))))
  }

  function RejectionText(status: nat): string {
    "provider rejected with " + Decimal(status)
  }

  /** `completion`: only a success with a body or a rejection with a status becomes evidence. */
  function CompletionOf(outcome: Outcome, r: ProviderResult): Completion {
    var common := Evidence(None, None, None, None,
                           Map(r.usage, u => UsageValue(u)),
                           Map(NonEmpty(r.requestId), s => Str(s)),
                           Map(NonEmpty(r.resolvedModel), s => Str(s)),
                           Map(r.costUsd, n => Num(n)));
    match outcome
    case Unknown => Completion(Unknown, None)
    case Rejection =>
      if r.statusCode.None? then Completion(Unknown, None)
      else
        var error := if r.error.Some? then r.error.value else RejectionText(r.statusCode.value);
        Completion(Rejection, Some(common.(error := Some(Str(error)),
                                           statusCode := Some(Num(r.statusCode.value as real)))))
    case Success =>
      if r.text.Some? then Completion(Success, Some(common.(text := Some(Str(r.text.value)))))
      else if r.vector.Some? then
        var v := r.vector.value;
        var items := seq(|v|, i requires 0 <= i < |v| => Num(v[i]));
        Completion(Success, Some(common.(vector := Some(List(items)))))
      else Completion(Unknown, None)
  }

  // ── Reading a stored result ──────────────────────────────────────────────────

  function NumberField(v: Option<Value>): Option<real> {
    if v.Some? && v.value.Num? && v.value.n >= 0.0 then Some(v.value.n) else None
  }

  predicate Whole(n: real) {
    n >= 0.0 && n.Floor as real == n
  }

  function TokenField(v: Option<Value>): Option<real> {
    var n := NumberField(v);
    if n.Some? && Whole(n.value) then n else None
  }

  function UsageField(v: Option<Value>): Option<TokenUsage> {
    if v.None? || !v.value.Record? then None
    else
      var raw := v.value.usage;
      var input, output := TokenField(raw.inputTokens), TokenField(raw.outputTokens);
      if input.None? || output.None? then None
      else Some(TokenUsage(input.value, output.value,
                           TokenField(raw.cacheRead), TokenField(raw.cacheCreation),
                           TokenField(raw.cacheCreation5m), TokenField(raw.cacheCreation1h),
                           TokenField(raw.codeExecution)))
  }

  function OptionalString(v: Option<Value>): Option<string> {
    if v.Some? && v.value.Str? then Some(v.value.s) else None
  }

  /** `chatResult`; None is the blocked error. */
  function ChatResult(stored: StoredResult, requestedModel: string): Option<ModelResult> {
    var p := stored.payload;
    var usage, cost := UsageField(p.usage), NumberField(p.reportedUsd);
    var requestId, resolved := NonEmpty(OptionalString(p.requestId)), NonEmpty(OptionalString(p.resolvedModel));
    if stored.rejected then
      var status := TokenField(p.statusCode);
      if status.None? then None
      else
        var code := status.value.Floor as nat;
        var given := OptionalString(p.error);
        var error := if given.Some? then given.value else RejectionText(code);
        Some(ModelResult("", requestedModel, false, usage, requestId, resolved, cost, Some(code), Some(error)))
    else if OptionalString(p.text).None? then None
    else Some(ModelResult(p.text.value.s, requestedModel, true, usage, requestId, resolved, cost, None, None))
  }

  /** The part of a reported usage that survives storage: whole non-negative counts. */
  function KeptUsage(u: TokenUsage): Option<TokenUsage> {
    var kept := (o: Option<real>) => if o.Some? && Whole(o.value) then o else None;
    if Whole(u.inputTokens) && Whole(u.outputTokens) then
      Some(TokenUsage(u.inputTokens, u.outputTokens, kept(u.cacheRead), kept(u.cacheCreation),
                      kept(u.cacheCreation5m), kept(u.cacheCreation1h), kept(u.codeExecution)))
    else None
  }

  /** `chatResult` undoes `completion`: text, usage, request id, resolved model and cost come back. */
  lemma ChatRoundTrip(r: ProviderResult, model: string)
    requires r.text.Some?
    ensures var c := CompletionOf(Success, r);
            c.outcome == Success && c.result.Some? &&
            ChatResult(StoredResult(false, c.result.value), model)
            == Some(ModelResult(r.text.value, model, true,
                                if r.usage.Some? then KeptUsage(r.usage.value) else None,
                                NonEmpty(r.requestId), NonEmpty(r.resolvedModel),
                                if r.costUsd.Some? && r.costUsd.value >= 0.0 then r.costUsd else None, None, None))
  {
    UsageRoundTrip(r.usage);
  }

  /** The same for a definite rejection, whose status and reason come back as well. */
  lemma RejectionRoundTrip(r: ProviderResult, model: string)
    requires r.statusCode.Some?
    ensures var c := CompletionOf(Rejection, r);
            var error := if r.error.Some? then r.error.value else RejectionText(r.statusCode.value);
            c.outcome == Rejection && c.result.Some? &&
            ChatResult(StoredResult(true, c.result.value), model)
            == Some(ModelResult("", model, false,
                                if r.usage.Some? then KeptUsage(r.usage.value) else None,
                                NonEmpty(r.requestId), NonEmpty(r.resolvedModel),
                                if r.costUsd.Some? && r.costUsd.value >= 0.0 then r.costUsd else None,
                                r.statusCode, Some(error)))
  {
    UsageRoundTrip(r.usage);
    var code := r.statusCode.value;
    assert (code as real).Floor == code;
  }

  lemma UsageRoundTrip(u: Option<TokenUsage>)
    ensures UsageField(Map(u, w => UsageValue(w))) == if u.Some? then KeptUsage(u.value) else None
  {
    if u.Some? {
      var raw := UsageValue(u.value).usage;
      assert TokenField(raw.inputTokens) == if Whole(u.value.inputTokens) then Some(u.value.inputTokens) else None;
      assert TokenField(raw.outputTokens) == if Whole(u.value.outputTokens) then Some(u.value.outputTokens) else None;
    }
  }

  // ── Core's canonical evidence ────────────────────────────────────────────────

  const MAX_TOKENS := 100000000.0

  predicate CountOk(v: Option<Value>, max: real) {
    v.None? || (v.value.Num? && Whole(v.value.n) && v.value.n <= max)
  }

  /** `normalizedUsage`: both totals present, every count a bounded whole number. */
  predicate UsageOk(v: Option<Value>) {
    v.None? ||
    (v.value.Record? &&
     var raw := v.value.usage;
     raw.inputTokens.Some? && raw.outputTokens.Some? &&
     CountOk(raw.inputTokens, MAX_TOKENS) && CountOk(raw.outputTokens, MAX_TOKENS) &&
     CountOk(raw.cacheRead, MAX_TOKENS) && CountOk(raw.cacheCreation, MAX_TOKENS) &&
     CountOk(raw.cacheCreation5m, MAX_TOKENS) && CountOk(raw.cacheCreation1h, MAX_TOKENS) &&
     CountOk(raw.codeExecution, 100000.0))
  }

  predicate BoundedText(v: Option<Value>, max: nat) {
    v.Some? && v.value.Str? && 1 <= |Trim(v.value.s)| <= max
  }

  function Trimmed(v: Option<Value>): Option<Value> {
    if v.Some? && v.value.Str? then Some(Str(Trim(v.value.s))) else v
  }

  predicate DefiniteRejection(v: Option<Value>) {
    v.Some? && v.value.Num? && Whole(v.value.n) &&
    v.value.n.Floor in {400, 401, 403, 404, 409, 413, 415, 422, 429}
  }

  predicate VectorOk(v: Option<Value>) {
    v.Some? && v.value.List? && 1 <= |v.value.items| <= 16384 &&
    forall i :: 0 <= i < |v.value.items| ==> v.value.items[i].Num?
  }

  /** `normalizeTaskLlmResultPayload`; None is the 400 refusal. */
  function Canonical(kind: JobKind, rejected: bool, e: Evidence): Option<Evidence> {
    if !UsageOk(e.usage) then None
    else if e.requestId.Some? && !BoundedText(e.requestId, 256) then None
    else if e.resolvedModel.Some? && !BoundedText(e.resolvedModel, 192) then None
    else if e.reportedUsd.Some? && NumberField(e.reportedUsd).None? then None
    else
      var common := Evidence(None, None, None, None, e.usage, Trimmed(e.requestId), Trimmed(e.resolvedModel),
                             e.reportedUsd);
      if rejected then
        if DefiniteRejection(e.statusCode) && BoundedText(e.error, 4000) then
          Some(common.(error := Trimmed(e.error), statusCode := e.statusCode))
        else None
      else if kind == Chat then
        if e.text.Some? && e.text.value.Str? && Trim(e.text.value.s) != "" && |e.text.value.s| <= 256000 then
          Some(common.(text := e.text))
        else None
      else if VectorOk(e.vector) then Some(common.(vector := e.vector))
      else None
  }

  /** Whenever Core accepts a chat success, the reader gets the exact text, usage and cost, and trimmed ids. */
  lemma ChatSurvivesCore(r: ProviderResult, model: string)
    requires r.text.Some?
    requires Canonical(Chat, false, CompletionOf(Success, r).result.value).Some?
    ensures ChatResult(StoredResult(false, Canonical(Chat, false, CompletionOf(Success, r).result.value).value), model)
            == Some(ModelResult(r.text.value, model, true, r.usage,
                                Map(NonEmpty(r.requestId), s => Trim(s)),
                                Map(NonEmpty(r.resolvedModel), s => Trim(s)), r.costUsd, None, None))
  {
    ChatRoundTrip(r, model);
    var e := CompletionOf(Success, r).result.value;
    if r.usage.Some? { AcceptedUsageKept(r.usage.value); }
    IdTrimmed(r.requestId, 256);
    IdTrimmed(r.resolvedModel, 192);
  }

  /** An id Core accepts reads back trimmed. */
  lemma IdTrimmed(id: Option<string>, max: nat)
    requires NonEmpty(id).Some? ==> BoundedText(Map(NonEmpty(id), s => Str(s)), max)
    ensures NonEmpty(OptionalString(Trimmed(Map(NonEmpty(id), s => Str(s))))) == Map(NonEmpty(id), s => Trim(s))
  {
  }

  lemma AcceptedUsageKept(u: TokenUsage)
    requires UsageOk(Some(UsageValue(u)))
    ensures KeptUsage(u) == Some(u)
  {
    var raw := UsageValue(u).usage;
    assert CountOk(raw.cacheRead, MAX_TOKENS) && CountOk(raw.cacheCreation, MAX_TOKENS);
    assert CountOk(raw.cacheCreation5m, MAX_TOKENS) && CountOk(raw.cacheCreation1h, MAX_TOKENS);
    assert CountOk(raw.codeExecution, 100000.0);
  }

  // ── What Core accepts, in numbers ────────────────────────────────────────────

  predicate CountWithin(n: real, max: int) {
    0.0 <= n <= max as real && n.Floor as real == n
  }

  /** Whole token counts up to 10^8, and up to 10^5 code executions. */
  predicate UsageWithin(u: TokenUsage) {
    && CountWithin(u.inputTokens, 100000000) && CountWithin(u.outputTokens, 100000000)
    && (u.cacheRead.Some? ==> CountWithin(u.cacheRead.value, 100000000))
    && (u.cacheCreation.Some? ==> CountWithin(u.cacheCreation.value, 100000000))
    && (u.cacheCreation5m.Some? ==> CountWithin(u.cacheCreation5m.value, 100000000))
    && (u.cacheCreation1h.Some? ==> CountWithin(u.cacheCreation1h.value, 100000000))
    && (u.codeExecution.Some? ==> CountWithin(u.codeExecution.value, 100000))
  }

  /** An absent or empty id is dropped; any other one needs a visible character and a bounded length. */
  predicate IdWithin(id: Option<string>, max: nat) {
    id.None? || id.value == "" || 1 <= |Trim(id.value)| <= max
  }

  /** Usage, ids and cost are such that Core accepts them. */
  predicate Plain(r: ProviderResult) {
    && (r.usage.Some? ==> UsageWithin(r.usage.value))
    && IdWithin(r.requestId, 256) && IdWithin(r.resolvedModel, 192)
    && (r.costUsd.Some? ==> r.costUsd.value >= 0.0)
  }

  predicate TextWithin(text: string) {
    Trim(text) != "" && |text| <= 256000
  }

  predicate ErrorWithin(error: string) {
    1 <= |Trim(error)| <= 4000
  }

  /** The nine statuses by which a provider proves that it did not work. */
  predicate ProvingStatus(v: Option<Value>) {
    v in {Some(Num(400.0)), Some(Num(401.0)), Some(Num(403.0)), Some(Num(404.0)), Some(Num(409.0)), Some(Num(413.0)),
          Some(Num(415.0)), Some(Num(422.0)), Some(Num(429.0))}
  }

  predicate ProvesRejection(status: nat) {
    ProvingStatus(Some(Num(status as real)))
  }

  lemma ProvingStatuses(v: Option<Value>)
    ensures DefiniteRejection(v) <==> ProvingStatus(v)
  {
    if DefiniteRejection(v) { assert v == Some(Num(v.value.n.Floor as real)); }
  }

  lemma UsageAccepted(u: TokenUsage)
    ensures UsageOk(Some(UsageValue(u))) <==> UsageWithin(u)
  {
    var raw := UsageValue(u).usage;
    assert CountOk(raw.inputTokens, MAX_TOKENS) <==> CountWithin(u.inputTokens, 100000000);
    assert CountOk(raw.outputTokens, MAX_TOKENS) <==> CountWithin(u.outputTokens, 100000000);
    assert CountOk(raw.codeExecution, 100000.0) <==> u.codeExecution.Some? ==>
             CountWithin(u.codeExecution.value, 100000);
  }

  lemma CommonAccepted(r: ProviderResult)
    ensures Plain(r) <==>
              var usage, id := Map(r.usage, u => UsageValue(u)), Map(NonEmpty(r.requestId), s => Str(s));
              var model, cost := Map(NonEmpty(r.resolvedModel), s => Str(s)), Map(r.costUsd, n => Num(n));
              && UsageOk(usage) && (id.Some? ==> BoundedText(id, 256)) && (model.Some? ==> BoundedText(model, 192))
              && (cost.Some? ==> NumberField(cost).Some?)
  {
    if r.usage.Some? { UsageAccepted(r.usage.value); }
  }

  /** Core accepts a chat success exactly when its text is visible and not too long, and the rest is plain. */
  lemma SuccessAccepted(r: ProviderResult)
    requires r.text.Some?
    ensures Canonical(Chat, false, CompletionOf(Success, r).result.value).Some?
            <==> Plain(r) && TextWithin(r.text.value)
  {
    CommonAccepted(r);
  }

  /** The reason of a rejection as it is sent to Core. */
  function ReasonOf(r: ProviderResult): string
    requires r.statusCode.Some?
  {
    if r.error.Some? then r.error.value else RejectionText(r.statusCode.value)
  }

  /** Core accepts a rejection exactly for nine statuses, with a visible reason and the rest plain. */
  lemma RejectionAccepted(kind: JobKind, r: ProviderResult)
    requires r.statusCode.Some?
    ensures Canonical(kind, true, CompletionOf(Rejection, r).result.value).Some?
            <==> Plain(r) && ErrorWithin(ReasonOf(r)) && ProvesRejection(r.statusCode.value)
  {
    var code := r.statusCode.value;
    assert (code as real).Floor == code;
    ProvingStatuses(Some(Num(code as real)));
    CommonAccepted(r);
  }

  /** What Core keeps of a rejection. */
  function KeptRejection(r: ProviderResult): Evidence
    requires r.statusCode.Some?
  {
    Evidence(None, None, Some(Str(Trim(ReasonOf(r)))), Some(Num(r.statusCode.value as real)),
             Map(r.usage, u => UsageValue(u)), Map(NonEmpty(r.requestId), s => Str(Trim(s))),
             Map(NonEmpty(r.resolvedModel), s => Str(Trim(s))), Map(r.costUsd, n => Num(n)))
  }

  lemma RejectionKept(kind: JobKind, r: ProviderResult)
    requires r.statusCode.Some?
    requires Plain(r) && ErrorWithin(ReasonOf(r)) && ProvesRejection(r.statusCode.value)
    ensures Canonical(kind, true, CompletionOf(Rejection, r).result.value) == Some(KeptRejection(r))
  {
    RejectionAccepted(kind, r);
  }

  /** A rejection that Core accepted reads back with its status and its trimmed reason. */
  lemma RejectionSurvivesCore(kind: JobKind, r: ProviderResult, model: string)
    requires r.statusCode.Some?
    requires Plain(r) && ErrorWithin(ReasonOf(r)) && ProvesRejection(r.statusCode.value)
    ensures Canonical(kind, true, CompletionOf(Rejection, r).result.value).Some?
    ensures ChatResult(StoredResult(true, Canonical(kind, true, CompletionOf(Rejection, r).result.value).value), model)
            == Some(ModelResult("", model, false, r.usage, Map(NonEmpty(r.requestId), s => Trim(s)),
                                Map(NonEmpty(r.resolvedModel), s => Trim(s)), r.costUsd, r.statusCode,
                                Some(Trim(ReasonOf(r)))))
  {
    var code := r.statusCode.value;
    assert (code as real).Floor == code;
    RejectionKept(kind, r);
    KeptInCore(r);
    IdReads(r.requestId, 256);
    IdReads(r.resolvedModel, 192);
  }

  lemma IdReads(id: Option<string>, max: nat)
    requires IdWithin(id, max)
    ensures NonEmpty(OptionalString(Map(NonEmpty(id), s => Str(Trim(s))))) == Map(NonEmpty(id), s => Trim(s))
  {
  }

  lemma KeptInCore(r: ProviderResult)
    requires Plain(r)
    ensures UsageField(Map(r.usage, u => UsageValue(u))) == r.usage
    ensures NumberField(Map(r.costUsd, n => Num(n))) == r.costUsd
  {
    UsageRoundTrip(r.usage);
    if r.usage.Some? {
      UsageAccepted(r.usage.value);
      AcceptedUsageKept(r.usage.value);
    }
  }

  /** Core accepts an embedding exactly when it is a list of 1 to 16384 numbers and the rest is plain. */
  lemma VectorAccepted(r: ProviderResult)
    requires r.text.None? && r.vector.Some?
    ensures Canonical(Embedding, false, CompletionOf(Success, r).result.value).Some?
            <==> Plain(r) && 1 <= |r.vector.value| <= 16384
  {
    CommonAccepted(r);
  }
}
