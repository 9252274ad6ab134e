/** Draining committed task reports to Notion (apps/agents/src/outbox-dispatcher.ts). */
module Outbox {
  import opened Common

  /** What one publish request ended in: a page, an HTTP refusal with an optional Retry-After, or no answer. */
  datatype Publish = Created | Http(status: int, retryAfterMs: Option<real>) | NoAnswer

  datatype Status = Sent | SkippedDelivery | UnknownDelivery | Dead

  /** One claimed delivery: its publish requests, the pauses between them, and what Core was told last. */
  datatype Delivery = Delivery(published: seq<Publish>, waits: seq<real>, reported: Option<Status>)

  datatype DrainResult = DrainResult(claimed: nat, sent: nat, skipped: nat, unknown: nat, dead: nat)

  const MAX_DELAY := 30000.0

  function Clamp(x: real, lo: real, hi: real): real {
    if x < lo then lo else if x > hi then hi else x
  }

  /** `Math.trunc`. */
  function Truncate(x: real): int {
    if x >= 0.0 then x.Floor else -((-x).Floor)
  }

  /** The whole number next to x on the side of zero. */
  lemma TruncatesTowardZero(x: real)
    ensures x >= 0.0 ==> 0 <= Truncate(x) && Truncate(x) as real <= x < Truncate(x) as real + 1.0
    ensures x < 0.0 ==> Truncate(x) <= 0 && Truncate(x) as real - 1.0 < x <= Truncate(x) as real
  {
    assert x.Floor as real <= x < x.Floor as real + 1.0;
    assert (-x).Floor as real <= -x < (-x).Floor as real + 1.0;
  }

  /** A whole number stays what it is. */
  lemma TruncateWhole(n: int)
    ensures Truncate(n as real) == n
  {
    assert (n as real).Floor == n && (-(n as real)).Floor == -n;
  }

  function Power2(n: nat): real { if n == 0 then 1.0 else 2.0 * Power2(n - 1) }

  function RateLimitDelay(requested: Option<real>, retry: nat, base: real): (ms: real)
    ensures 0.0 <= ms <= MAX_DELAY
    ensures requested.Some? && 0.0 <= requested.value <= MAX_DELAY ==> ms == requested.value
    ensures requested.Some? && requested.value > 30000.0 ==> ms == 30000.0
    ensures requested.Some? && requested.value < 0.0 ==> ms == 0.0
    ensures requested.None? && 0.0 <= base * Power2(retry) <= MAX_DELAY ==> ms == base * Power2(retry)
    ensures requested.None? && base * Power2(retry) > 30000.0 ==> ms == 30000.0
  {
    Clamp(if requested.Some? then requested.value else base * Power2(retry), 0.0, MAX_DELAY)
  }

  predicate Deterministic(status: int) { status in {400, 401, 403, 404} }

  /** Publish was repeated only after a 429, so nothing was created before the last request. */
  predicate Careful(published: seq<Publish>) {
    forall i :: 0 <= i < |published| - 1 ==> published[i].Http? && published[i].status == 429
  }

  /** What holds of every delivery, whatever happened to it. */
  predicate DeliveryOk(d: Delivery, maxRetries: nat, base: real) {
    && Careful(d.published) && |d.published| <= maxRetries + 1
    && |d.waits| <= maxRetries && (d.published != [] ==> |d.waits| == |d.published| - 1)
    // Each pause is what the refusal before it asked for, or the doubled base.
    && (forall i :: 0 <= i < |d.waits| && i < |d.published| ==>
          d.published[i].Http? && d.waits[i] == RateLimitDelay(d.published[i].retryAfterMs, i, base))
    // What Core is told agrees with what the last request proved.
    && (d.reported == Some(Sent) ==> d.published != [] && d.published[|d.published| - 1].Created?)
    && (d.reported == Some(Dead) && d.published != [] ==>
          d.published[|d.published| - 1].Http?
          && (Deterministic(d.published[|d.published| - 1].status) || d.published[|d.published| - 1].status == 429))
    && (d.reported == Some(UnknownDelivery) ==>
          d.published != []
          && (d.published[|d.published| - 1].Http? ==>
                !Deterministic(d.published[|d.published| - 1].status) && d.published[|d.published| - 1].status != 429))
  }

  function Reports(ds: seq<Delivery>, s: Status): nat {
    if ds == [] then 0 else Reports(ds[..|ds| - 1], s) + if ds[|ds| - 1].reported == Some(s) then 1 else 0
  }

  /** The result one more delivery leads to. */
  function Counted(r: DrainResult, reported: Option<Status>): DrainResult {
    var one := r.(claimed := r.claimed + 1);
    match reported
    case None => one
    case Some(Sent) => one.(sent := r.sent + 1)
    case Some(SkippedDelivery) => one.(skipped := r.skipped + 1)
    case Some(UnknownDelivery) => one.(unknown := r.unknown + 1)
    case Some(Dead) => one.(dead := r.dead + 1)
  }

  function Tally(ds: seq<Delivery>): (r: DrainResult)
    ensures r.claimed == |ds|
  {
    if ds == [] then DrainResult(0, 0, 0, 0, 0) else Counted(Tally(ds[..|ds| - 1]), ds[|ds| - 1].reported)
  }

  predicate AllReported(ds: seq<Delivery>) {
    forall i :: 0 <= i < |ds| ==> ds[i].reported.Some?
  }

  /** Every claim is accounted for once, under what Core was told. */
  lemma {:induction false} TallyAdds(ds: seq<Delivery>)
    ensures var r := Tally(ds);
            && r.sent == Reports(ds, Sent) && r.skipped == Reports(ds, SkippedDelivery)
            && r.unknown == Reports(ds, UnknownDelivery) && r.dead == Reports(ds, Dead)
            && (AllReported(ds) ==> r.claimed == r.sent + r.skipped + r.unknown + r.dead)
    decreases |ds|
  {
    if ds != [] { TallyAdds(ds[..|ds| - 1]); }
  }

  /** At most one request of a delivery created a page. */
  lemma AtMostOneCreated(d: Delivery, maxRetries: nat, base: real, i: nat, j: nat)
    requires DeliveryOk(d, maxRetries, base) && i < |d.published| && j < |d.published|
    requires d.published[i].Created? && d.published[j].Created?
    ensures i == j == |d.published| - 1
  {
    assert forall n :: 0 <= n < |d.published| - 1 ==> !d.published[n].Created?;
  }

  /** The number of rounds of `for (index = 0; index < limit; …)`: fractions are not cut off. */
  function Rounds(limit: real): (n: nat)
    requires limit >= 1.0
    ensures n as real >= limit && n as real < limit + 1.0
  {
    var f := limit.Floor;
    if f as real == limit then f else f + 1
  }

  // ── The queue ────────────────────────────────────────────────────────────────

  /**
   * A claimed report: whether its payload is readable, what Notion would answer to each publish request, and whether
   * Core takes the report that it was sent, or any other one.
   */
  datatype Parcel = Parcel(wellFormed: bool, answers: nat -> Publish, confirmed: bool, heard: bool)

  /** What the n-th claim of a drain meets. */
  datatype Claim = Got(parcel: Parcel) | Empty | ClaimThrows

  type Queue = nat -> Claim

  /** How many deliveries a drain of at most `n` rounds claims. */
  function Claimed(queue: Queue, n: nat): (c: nat)
    ensures c <= n
  {
    if n == 0 then 0
    else
      var c := Claimed(queue, n - 1);
      if c == n - 1 && queue(c).Got? then n else c
  }

  lemma {:induction false} ClaimedStops(queue: Queue, i: nat, n: nat)
    requires Claimed(queue, i) == i < n && !queue(i).Got?
    ensures Claimed(queue, n) == i
    decreases n
  {
    if n > i + 1 { ClaimedStops(queue, i, n - 1); }
  }

  /** A queue that never runs empty. */
  function Endless(): Queue {
    (n: nat) => Got(Parcel(true, (i: nat) => Created, true, true))
  }

  lemma {:induction false} EndlessClaimsAll(n: nat)
    ensures Claimed(Endless(), n) == n
  {
    if n > 0 { EndlessClaimsAll(n - 1); }
  }

  /** Whatever the queue holds, the claims of a drain stay within the limit - exactly when the limit is whole. */
  lemma WholeLimits(limit: real)
    requires limit >= 1.0
    ensures (forall queue: Queue :: Claimed(queue, Rounds(limit)) as real <= limit) <==> limit.Floor as real == limit
  {
    EndlessClaimsAll(Rounds(limit));
    if limit.Floor as real == limit { assert Rounds(limit) as real == limit; }
  }

  /** With a limit of 1.5 and two reports waiting, two are claimed. */
  lemma HalfLimitOverruns()
    ensures Claimed(Endless(), Rounds(1.5)) == 2
  {
    assert 1.5.Floor == 1;
    EndlessClaimsAll(2);
  }

  /** The publish requests of a delivery are the ones its report called for, and they stop only where they must. */
  predicate Follows(d: Delivery, configured: bool, parcel: Parcel, maxRetries: nat) {
    && (forall i :: 0 <= i < |d.published| ==> d.published[i] == parcel.answers(i))
    && (d.published != [] <==> configured && parcel.wellFormed)
    && (d.published != [] && d.published[|d.published| - 1].Http? && d.published[|d.published| - 1].status == 429 ==>
          |d.published| == maxRetries + 1)
    && (parcel.heard || (d.published != [] && d.published[|d.published| - 1].Created? && parcel.confirmed) ==>
          d.reported == Some(Verdict(d, configured, parcel)))
    && (d.reported.Some? ==> d.reported == Some(Verdict(d, configured, parcel)))
  }

  /** What Core is to be told: what the last request proved, or why there was none. */
  function Verdict(d: Delivery, configured: bool, parcel: Parcel): Status {
    if !configured then SkippedDelivery
    else if !parcel.wellFormed || d.published == [] then Dead
    else
      match d.published[|d.published| - 1]
      case Created => if parcel.confirmed then Sent else UnknownDelivery
      case NoAnswer => UnknownDelivery
      case Http(status, _) =>
        if status == 400 || status == 401 || status == 403 || status == 404 || status == 429 then Dead
        else UnknownDelivery
  }

  /** One claimed delivery; `threw` when a request to Core threw out of the loop. */
  method Deliver(configured: bool, parcel: Parcel, maxRetries: nat, base: real) returns (d: Delivery, threw: bool)
    ensures DeliveryOk(d, maxRetries, base) && Follows(d, configured, parcel, maxRetries)
    ensures threw <==> d.reported.None?
  {
    d, threw := Delivery([], [], None), false;
    if !configured {
      if parcel.heard { d := d.(reported := Some(SkippedDelivery)); } else { threw := true; }
      return;
    }
    if !parcel.wellFormed {
      if parcel.heard { d := d.(reported := Some(Dead)); } else { threw := true; }
      return;
    }
    var retries := 0;
    while true
      invariant 0 <= retries <= maxRetries
      invariant d.reported.None? && |d.published| == |d.waits| == retries
      invariant forall i :: 0 <= i < |d.published| ==> d.published[i] == parcel.answers(i)
      invariant forall i :: 0 <= i < |d.published| ==> d.published[i].Http? && d.published[i].status == 429
      invariant forall i :: 0 <= i < |d.waits| ==> d.waits[i] == RateLimitDelay(d.published[i].retryAfterMs, i, base)
      decreases maxRetries - retries
    {
      var p := parcel.answers(retries);
      d := d.(published := d.published + [p]);
      if p.Created? && parcel.confirmed { return d.(reported := Some(Sent)), false; }
      if p.Http? && p.status == 429 && retries < maxRetries {
        d := d.(waits := d.waits + [RateLimitDelay(p.retryAfterMs, retries, base)]);
        retries := retries + 1;
        continue;
      }
      var reported := if p.Http? && (Deterministic(p.status) || p.status == 429) then Dead else UnknownDelivery;
      if !parcel.heard { return d, true; }
      return d.(reported := Some(reported)), false;
    }
  }

  /** The configured number of repetitions, within 0..5. */
  function Retries(configured: Option<real>): (n: nat)
    ensures n <= 5
  {
    var wanted := if configured.Some? then Truncate(configured.value) else 2;
    if wanted < 0 then 0 else if wanted > 5 then 5 else wanted
  }

  function BaseDelay(configured: Option<real>): (ms: real)
    ensures 1.0 <= ms <= MAX_DELAY
  {
    Clamp(if configured.Some? then Truncate(configured.value) as real else 1000.0, 1.0, MAX_DELAY)
  }

  function Limit(configured: Option<real>): real {
    Clamp(if configured.Some? then configured.value else 10.0, 1.0, 100.0)
  }

  /** What is not configured: ten deliveries, two repetitions, pauses of one, two and four seconds and so on. */
  lemma Defaults()
    ensures Limit(None) == 10.0 && Retries(None) == 2 && BaseDelay(None) == 1000.0
    ensures RateLimitDelay(None, 0, BaseDelay(None)) == 1000.0 && RateLimitDelay(None, 1, BaseDelay(None)) == 2000.0
    ensures RateLimitDelay(None, 2, BaseDelay(None)) == 4000.0 && RateLimitDelay(None, 3, BaseDelay(None)) == 8000.0
    ensures RateLimitDelay(None, 4, BaseDelay(None)) == 16000.0 && RateLimitDelay(None, 5, BaseDelay(None)) == 30000.0
  {
    assert Power2(5) == 2.0 * Power2(4) == 4.0 * Power2(3) == 8.0 * Power2(2) == 16.0 * Power2(1) == 32.0;
  }

  /** A configured value within its range is taken as it is, and another one as the nearer end of the range. */
  lemma Configured(limit: real, retries: int, ms: nat)
    requires retries >= 0
    ensures 1.0 <= limit <= 100.0 ==> Limit(Some(limit)) == limit
    ensures limit < 1.0 ==> Limit(Some(limit)) == 1.0
    ensures limit > 100.0 ==> Limit(Some(limit)) == 100.0
    ensures Retries(Some(retries as real)) == (if retries > 5 then 5 else retries)
    ensures Retries(Some((-retries) as real)) == 0
    ensures 1 <= ms <= 30000 ==> BaseDelay(Some(ms as real)) == ms as real
    ensures ms > 30000 ==> BaseDelay(Some(ms as real)) == 30000.0
    ensures ms == 0 ==> BaseDelay(Some(ms as real)) == 1.0
  {
    TruncateWhole(retries);
    TruncateWhole(-retries);
    TruncateWhole(ms);
  }

  /** Each delivery came off the queue in turn and was handled with care. */
  predicate Handled(ds: seq<Delivery>, queue: Queue, configured: bool, maxRetries: nat, base: real) {
    forall i :: 0 <= i < |ds| ==> HandledOne(ds[i], queue(i), configured, maxRetries, base)
  }

  predicate HandledOne(d: Delivery, claim: Claim, configured: bool, maxRetries: nat, base: real) {
    claim.Got? && DeliveryOk(d, maxRetries, base) && Follows(d, configured, claim.parcel, maxRetries)
  }

  lemma HandledNext(ds: seq<Delivery>, d: Delivery, queue: Queue, configured: bool, maxRetries: nat, base: real)
    requires Handled(ds, queue, configured, maxRetries, base)
             && HandledOne(d, queue(|ds|), configured, maxRetries, base)
    ensures Handled(ds + [d], queue, configured, maxRetries, base)
  {
  }

  /** `drainNotionOutbox`: it claims all the queue holds up to the limit, and accounts for every claim. */
  method DrainNotionOutbox(configured: bool, queue: Queue, limit: Option<real>, maxRateLimitRetries: Option<real>,
                           baseDelayMs: Option<real>)
    returns (r: DrainResult, threw: bool, deliveries: seq<Delivery>)
    ensures |deliveries| == r.claimed <= Rounds(Limit(limit)) <= 100
    ensures Handled(deliveries, queue, configured, Retries(maxRateLimitRetries), BaseDelay(baseDelayMs))
    ensures !threw ==> r.claimed == Claimed(queue, Rounds(Limit(limit)))
    ensures !threw ==> r == Tally(deliveries) && r.claimed == r.sent + r.skipped + r.unknown + r.dead
  {
    r, threw, deliveries := Drain(configured, queue, Limit(limit), Retries(maxRateLimitRetries),
                                  BaseDelay(baseDelayMs));
  }

  lemma RoundsBound(index: nat, max: real)
    requires max >= 1.0
    ensures index as real < max <==> index < Rounds(max)
  {
  }

  lemma TallyNext(ds: seq<Delivery>, d: Delivery)
    ensures Tally(ds + [d]) == Counted(Tally(ds), d.reported)
  {
    assert (ds + [d])[..|ds|] == ds;
  }

  /** The loop, with its settled parameters. */
  method Drain(configured: bool, queue: Queue, max: real, maxRetries: nat, base: real)
    returns (r: DrainResult, threw: bool, deliveries: seq<Delivery>)
    requires max >= 1.0
    ensures |deliveries| == r.claimed <= Rounds(max)
    ensures Handled(deliveries, queue, configured, maxRetries, base)
    ensures !threw ==> r.claimed == Claimed(queue, Rounds(max))
    ensures !threw ==> r == Tally(deliveries) && r.claimed == r.sent + r.skipped + r.unknown + r.dead
  {
    threw, deliveries := false, [];
    r := Tally(deliveries);
    var index := 0;
    RoundsBound(index, max);
    while index as real < max
      invariant 0 <= index <= Rounds(max) && index == |deliveries| == r.claimed && !threw
      invariant index as real < max <==> index < Rounds(max)
      invariant Claimed(queue, index) == index
      invariant Handled(deliveries, queue, configured, maxRetries, base)
      invariant r == Tally(deliveries) && AllReported(deliveries)
      decreases Rounds(max) - index
    {
      var claim := queue(index);
      if claim.ClaimThrows? { threw := true; return; }
      if claim.Empty? {
        TallyAdds(deliveries);
        ClaimedStops(queue, index, Rounds(max));
        return;
      }
      var d, failed := Deliver(configured, claim.parcel, maxRetries, base);
      TallyNext(deliveries, d);
      HandledNext(deliveries, d, queue, configured, maxRetries, base);
      deliveries := deliveries + [d];
      r := Counted(r, d.reported);
      if failed { threw := true; return; }
      index := index + 1;
      RoundsBound(index, max);
    }
    TallyAdds(deliveries);
  }
}
