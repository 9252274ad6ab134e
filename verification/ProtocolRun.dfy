/** One run of the dispatch protocol from the empty system to a stored answer: its guarantees are not vacuous. */
module ProtocolRun {
  import opened Common
  import opened LlmResult
  import opened CoreStore
  import opened Session
  import opened DispatchSystem

  lemma {:induction false} RunOneMore(s: System, schedule: seq<Event>, e: Event)
    ensures Run(s, schedule + [e]) == Next(Run(s, schedule), e)
    decreases |schedule|
  {
    if schedule == [] {
      assert schedule + [e] == [e] && [e][1..] == [];
    } else {
      assert (schedule + [e])[1..] == schedule[1..] + [e];
      RunOneMore(Next(s, schedule[0]), schedule[1..], e);
    }
  }

  /** Every event leads from a reachable system to a reachable one. */
  lemma ReachableNext(s: System, e: Event)
    requires Reachable(s)
    ensures Reachable(Next(s, e))
  {
    var schedule :| s == Run(Initial, schedule);
    RunOneMore(Initial, schedule, e);
  }

  const route := Route(Chat, "f", "a", 1, "e", "p")
  const plan := [PlanStep("f", route, ["m"])]
  const fence := Fence(0, "agent", 5, 6)
  const payload := Payload("m", "b")
  const attempt := Attempt("f", 1, route, "m", 1, 1, payload)
  const key := JobKey(6, "f", 1)
  const operation := OperationOf(key, 1, route, payload)
  const answer := Answered(Success, ProviderResult(Some("hi"), None, None, None, None, None, None, None))
  const stored := StoredResult(false, Evidence(Some(Str("hi")), None, None, None, None, None, None, None))

  function Row(status: JobStatus, token: Option<Token>, result: Option<StoredResult>): Job {
    Job(route, "m", 1, 1, operation, if result.Some? then None else Some(payload), status, token,
        if token.Some? then 1 else 0, if token.Some? then DISPATCH_GRANT_MS else 0, result)
  }

  function Tables(jobs: map<JobKey, Job>): Core {
    Core(map[0 := Task(Some("agent"), Some(5), Some(6), InProgress, None, 9)],
         map[6 := Execution(0, "agent", "skill", Active, 9, 1, plan, None, None)], jobs)
  }

  lemma PlanHolds()
    ensures Planned(plan, "f", 1, route, "m")
  {
  }

  lemma StartedTables()
    ensures Start(ClaimTask(EditTask(Initial.core, 0, Task(Some("agent"), None, None, Todo, None, 9)),
                            0, "agent", 5, 6),
                  fence, 9, "skill", 1, plan).0 == Tables(map[])
  {
  }

  lemma ReachableChange(s: System, change: CoreChange)
    requires Reachable(s)
    ensures Reachable(s.(core := DispatchSystem.Changed(s.core, change)))
  {
    ReachableNext(s, Elsewhere(change));
  }

  lemma Started() returns (s: System)
    ensures Reachable(s) && s == Initial.(core := Tables(map[]))
  {
    assert Run(Initial, []) == Initial;
    var c0 := Initial.core;
    var row := Task(Some("agent"), None, None, Todo, None, 9);
    ReachableChange(Initial, Edit(0, row));
    var c1 := EditTask(c0, 0, row);
    ReachableChange(Initial.(core := c1), TakeOver(0, "agent", 5, 6));
    var c2 := ClaimTask(c1, 0, "agent", 5, 6);
    ReachableChange(Initial.(core := c2), StartRun(fence, 9, "skill", 1, plan));
    StartedTables();
    s := Initial.(core := Tables(map[]));
  }

  lemma EnsureStep()
    ensures Ensure(Tables(map[]), 0, fence, attempt, Granted)
            == (Tables(map[key := Row(Ready, None, None)]), Ok(EnsureReply(key, Ready, operation, None, false)))
  {
    PlanHolds();
  }

  lemma ClaimStep()
    ensures Claim(Tables(map[key := Row(Ready, None, None)]), 0, fence, key, 7, true)
            == (Tables(map[key := Row(Dispatching, Some(7), None)]),
                Ok(ClaimReply(true, Dispatching, operation, Some(payload), None)))
  {
    PlanHolds();
    var c := Tables(map[key := Row(Ready, None, None)]);
    assert Fenced(c, fence) && OwnExecution(c, fence) && PayloadVerified(c, key, c.jobs[key]);
    assert PutJob(c, key, Row(Dispatching, Some(7), None)) == Tables(map[key := Row(Dispatching, Some(7), None)]);
  }

  lemma CompleteStep()
    ensures Complete(Tables(map[key := Row(Dispatching, Some(7), None)]), 0, key, 7, CompletionFor(answer))
            == (Tables(map[key := Row(Succeeded, Some(7), Some(stored))]), Ok(CompleteReply(Succeeded, Some(stored))))
  {
    TrimFixed("hi");
    var c := Tables(map[key := Row(Dispatching, Some(7), None)]);
    assert Canonical(Chat, false, CompletionFor(answer).result.value) == Some(stored.payload);
    assert PutJob(c, key, Row(Succeeded, Some(7), Some(stored)))
             == Tables(map[key := Row(Succeeded, Some(7), Some(stored))]);
  }

  /** The worker waits for a reply that lies ready in the network. */
  ghost predicate Waits(s: System, core: Core, pc: Pc, x: Exchange) {
    Reachable(s) && s.core == core && 0 in s.workers && s.workers[0] == Worker(fence, attempt, pc) && x in s.exchanges
  }

  lemma Ensured() returns (s: System)
    ensures Waits(s, Tables(map[key := Row(Ready, None, None)]), AwaitEnsure,
                  Exchange(EnsureRequest(fence, attempt),
                           EnsureResponse(Ok(EnsureReply(key, Ready, operation, None, false)))))
    ensures s.tokens == map[] && s.wires == [] && s.replies == map[]
  {
    var s0 := Started();
    var e1 := Begin(0, fence, attempt);
    ReachableNext(s0, e1);
    var s1 := Next(s0, e1);
    var e2 := Handle(EnsureRequest(fence, attempt), 0, Granted, true);
    EnsureStep();
    ReachableNext(s1, e2);
    s := Next(s1, e2);
  }

  lemma Asking() returns (s: System)
    ensures Reachable(s) && s.core == Tables(map[key := Row(Ready, None, None)]) && s.wires == [] && s.replies == map[]
    ensures 0 in s.workers && s.workers[0] == Worker(fence, attempt, AwaitClaim(key, operation, 7, false))
            && ClaimRequest(fence, key, 7) in s.requests
  {
    var s0 := Ensured();
    var e := Hear(0, EnsureResponse(Ok(EnsureReply(key, Ready, operation, None, false))), 7);
    ReachableNext(s0, e);
    s := Next(s0, e);
  }

  lemma Claimed() returns (s: System)
    ensures Waits(s, Tables(map[key := Row(Dispatching, Some(7), None)]), AwaitClaim(key, operation, 7, false),
                  Exchange(ClaimRequest(fence, key, 7),
                           ClaimResponse(Ok(ClaimReply(true, Dispatching, operation, Some(payload), None)))))
    ensures s.wires == [] && s.replies == map[]
  {
    var s0 := Asking();
    var e := Handle(ClaimRequest(fence, key, 7), 0, Granted, true);
    ClaimStep();
    ReachableNext(s0, e);
    s := Next(s0, e);
  }

  lemma MaySend() returns (s: System)
    ensures Reachable(s) && s.core == Tables(map[key := Row(Dispatching, Some(7), None)]) && s.wires == []
            && s.replies == map[]
    ensures 0 in s.workers && s.workers[0] == Worker(fence, attempt, MayDispatch(key, 7, payload))
  {
    var s0 := Claimed();
    var e := Hear(0, ClaimResponse(Ok(ClaimReply(true, Dispatching, operation, Some(payload), None))), 0);
    ReachableNext(s0, e);
    s := Next(s0, e);
  }

  lemma Left() returns (s: System)
    ensures Reachable(s) && s.core == Tables(map[key := Row(Dispatching, Some(7), None)])
    ensures s.wires == [Wire(key, 7, payload)] && s.replies == map[]
    ensures 0 in s.workers && s.workers[0] == Worker(fence, attempt, OnWire(key, 7))
  {
    var s0 := MaySend();
    ReachableNext(s0, TakeWire(0));
    s := Next(s0, TakeWire(0));
  }

  lemma Sent() returns (s: System)
    ensures Reachable(s) && s.core == Tables(map[key := Row(Dispatching, Some(7), None)])
    ensures s.wires == [Wire(key, 7, payload)] && s.replies == map[7 := answer]
    ensures 0 in s.workers && s.workers[0] == Worker(fence, attempt, AwaitComplete(key, 7, false))
    ensures CompleteRequest(0, key, 7, CompletionFor(answer)) in s.requests
  {
    var s0 := Left();
    ReachableNext(s0, Provider(0, answer));
    s := Next(s0, Provider(0, answer));
  }

  lemma Completed() returns (s: System)
    ensures Waits(s, Tables(map[key := Row(Succeeded, Some(7), Some(stored))]), AwaitComplete(key, 7, false),
                  Exchange(CompleteRequest(0, key, 7, CompletionFor(answer)),
                           CompleteResponse(Ok(CompleteReply(Succeeded, Some(stored))))))
    ensures s.wires == [Wire(key, 7, payload)] && s.replies == map[7 := answer]
  {
    var s0 := Sent();
    var e := Handle(CompleteRequest(0, key, 7, CompletionFor(answer)), 0, Granted, true);
    CompleteStep();
    ReachableNext(s0, e);
    s := Next(s0, e);
  }

  lemma HearsAnswer()
    ensures OnComplete(Reply(Ok(CompleteReply(Succeeded, Some(stored)))), false, answer)
              == CompleteEnds(Returned(stored))
  {
  }

  /** Some schedule sends a request to the provider and returns its stored answer to the caller. */
  lemma ARunThatAnswers() returns (s: System)
    ensures Reachable(s) && s.wires == [Wire(key, 7, payload)]
    ensures 0 in s.workers && s.workers[0].pc == Finished(Returned(stored)) && Stored(s.core, key, stored)
  {
    var s0 := Completed();
    HearsAnswer();
    var e := Hear(0, CompleteResponse(Ok(CompleteReply(Succeeded, Some(stored)))), 0);
    ReachableNext(s0, e);
    s := Next(s0, e);
  }
}
