/**
 * The retry buffer for fired cron ticks and the guard that keeps its flushes apart
 * (apps/agents/src/scheduled-occurrence-queue.ts, polling.ts).
 */
module RetryQueue {
  import opened Common

  datatype Key = Key(job: string, scheduledAt: int)

  /** One enqueued object; `serial` is its identity, since `===` compares objects. */
  datatype Occurrence = Occurrence(key: Key, serial: nat)

  /** The occurrences whose outcome was `want`, in order. */
  ghost function Select(s: seq<Occurrence>, ok: seq<bool>, want: bool): seq<Occurrence>
    requires |ok| == |s|
  {
    if s == [] then []
    else
      var n := |s| - 1;
      Select(s[..n], ok[..n], want) + if ok[n] == want then [s[n]] else []
  }

  /** Which of the deliveries succeed. */
  ghost function Outcomes(s: seq<Occurrence>, succeeds: Occurrence -> bool): (ok: seq<bool>)
    ensures |ok| == |s|
  {
    seq(|s|, i requires 0 <= i < |s| => succeeds(s[i]))
  }

  lemma OutcomesNext(s: seq<Occurrence>, n: nat, succeeds: Occurrence -> bool)
    requires n < |s|
    ensures Outcomes(s[..n + 1], succeeds) == Outcomes(s[..n], succeeds) + [succeeds(s[n])]
  {
  }

  lemma SelectNext(s: seq<Occurrence>, ok: seq<bool>, n: nat, last: bool)
    requires |ok| == n < |s|
    ensures forall want ::
              Select(s[..n + 1], ok + [last], want) == Select(s[..n], ok, want) + if last == want then [s[n]] else []
  {
    assert s[..n + 1][..n] == s[..n] && (ok + [last])[..n] == ok;
  }

  /** After the first deliveries of a snapshot, the two result lists hold what succeeded and what failed. */
  ghost predicate Split(s: seq<Occurrence>, ok: seq<bool>, completed: seq<Occurrence>, failed: seq<Occurrence>) {
    && |ok| <= |s|
    && completed == Select(s[..|ok|], ok, true) && failed == Select(s[..|ok|], ok, false)
  }

  lemma SplitNext(s: seq<Occurrence>, ok: seq<bool>, completed: seq<Occurrence>, failed: seq<Occurrence>, last: bool)
    requires |ok| < |s| && Split(s, ok, completed, failed)
    ensures var o := s[|ok|];
            Split(s, ok + [last], if last then completed + [o] else completed, if last then failed else failed + [o])
  {
    SelectNext(s, ok, |ok|, last);
  }

  lemma SplitAll(s: seq<Occurrence>, ok: seq<bool>, completed: seq<Occurrence>, failed: seq<Occurrence>)
    requires |ok| == |s| && Split(s, ok, completed, failed)
    ensures completed == Select(s, ok, true) && failed == Select(s, ok, false)
  {
    assert s[..|ok|] == s;
  }

  /** Completed and failed partition the snapshot: every occurrence of it lands in exactly one of the two. */
  lemma {:induction false} SelectPartitions(s: seq<Occurrence>, ok: seq<bool>)
    requires |ok| == |s|
    ensures multiset(Select(s, ok, true)) + multiset(Select(s, ok, false)) == multiset(s)
    decreases |s|
  {
    if s != [] {
      var n := |s| - 1;
      SelectPartitions(s[..n], ok[..n]);
      assert s == s[..n] + [s[n]];
      OneMore(s[..n], s[n], Select(s[..n], ok[..n], true), Select(s[..n], ok[..n], false), ok[n]);
    }
  }

  lemma OneMore(s: seq<Occurrence>, o: Occurrence, a: seq<Occurrence>, b: seq<Occurrence>, first: bool)
    requires multiset(a) + multiset(b) == multiset(s)
    ensures multiset(if first then a + [o] else a) + multiset(if first then b else b + [o]) == multiset(s + [o])
  {
  }

  /** No key twice. */
  ghost predicate Distinct(s: seq<Occurrence>) {
    forall i, j :: 0 <= i < j < |s| ==> s[i].key != s[j].key
  }

  ghost function SetOf(s: seq<Occurrence>): set<Occurrence> {
    set o | o in s
  }

  lemma SetOfNext(s: seq<Occurrence>, o: Occurrence)
    ensures SetOf(s + [o]) == SetOf(s) + {o}
  {
  }

  class ScheduledOccurrenceRetryQueue {
    var pending: map<Key, Occurrence>
    var serial: nat
    /** The object enqueued last for each key, and every object whose delivery succeeded. */
    ghost var latest: map<Key, Occurrence>
    ghost var delivered: set<Occurrence>

    constructor ()
      ensures Valid() && pending == map[] && latest == map[] && delivered == {}
    {
      pending, serial, latest, delivered := map[], 0, map[], {};
    }

    /** No occurrence is lost: the latest object of a key is pending, or its own delivery succeeded. */
    ghost predicate Valid()
      reads this
    {
      && (forall k :: k in pending ==> pending[k].key == k && k in latest && pending[k] == latest[k])
      && (forall k :: k in latest ==> latest[k].key == k && latest[k].serial < serial)
      && (forall k :: k in latest ==> (k in pending && pending[k] == latest[k]) || latest[k] in delivered)
    }

    method Enqueue(key: Key)
      requires Valid()
      modifies this
      ensures Valid() && serial == old(serial) + 1 && delivered == old(delivered)
      ensures pending == old(pending)[key := Occurrence(key, old(serial))]
      ensures latest == old(latest)[key := Occurrence(key, old(serial))]
    {
      var occurrence := Occurrence(key, serial);
      serial := serial + 1;
      pending := pending[key := occurrence];
      latest := latest[key := occurrence];
    }

    /** What is pending was pending in `before`, as the same object, or was enqueued from serial number `since` on. */
    ghost predicate Since(before: map<Key, Occurrence>, since: nat)
      reads this
    {
      && since <= serial
      && forall k :: k in pending ==> (k in before && pending[k] == before[k]) || since <= pending[k].serial
    }

    /** The object, or one enqueued under its key since, is pending. */
    ghost predicate Waits(o: Occurrence, since: nat)
      reads this
    {
      o.key in pending && (pending[o.key] == o || since <= pending[o.key].serial)
    }

    /** The objects delivered so far are pending no more, and all others wait. */
    ghost predicate Settled(s: seq<Occurrence>, ok: seq<bool>, since: nat)
      reads this
    {
      && |ok| <= |s|
      && forall i :: 0 <= i < |s| ==>
           s[i].serial < since && if i < |ok| && ok[i] then Gone(s[i], since) else Waits(s[i], since)
    }

    /** The object is pending no more, whether or not one enqueued under its key since is. */
    ghost predicate Gone(o: Occurrence, since: nat)
      reads this
    {
      o.key in pending ==> pending[o.key] != o && since <= pending[o.key].serial
    }

    /** Whatever else this process does while `flush` awaits a delivery: any number of enqueues. */
    method Interleave()
      requires Valid()
      modifies this
      ensures Valid() && Since(old(pending), old(serial)) && delivered == old(delivered)
      ensures forall k :: k in old(latest) ==>
                k in latest && (latest[k] == old(latest)[k] || latest[k].serial >= old(serial))
      ensures forall k :: k in old(pending) ==> k in pending
    {
      var times: int := *;
      for i := 0 to if times < 0 then 0 else times
        invariant Valid() && Since(old(pending), old(serial)) && delivered == old(delivered)
        invariant forall k :: k in old(latest) ==>
                    k in latest && (latest[k] == old(latest)[k] || latest[k].serial >= old(serial))
        invariant forall k :: k in old(pending) ==> k in pending
      {
        var key: Key := *;
        Enqueue(key);
      }
    }

    /** `[...this.pending]`: each pending occurrence once, in some order. */
    method Snapshot() returns (s: seq<Occurrence>)
      requires Valid()
      ensures Distinct(s) && SetOf(s) == pending.Values && Settled(s, [], serial)
    {
      s := [];
      var left := pending.Keys;
      while left != {}
        decreases |left|
        invariant left <= pending.Keys
        invariant forall i :: 0 <= i < |s| ==> s[i].key in pending && s[i].key !in left && pending[s[i].key] == s[i]
        invariant forall i, j :: 0 <= i < j < |s| ==> s[i].key != s[j].key
        invariant forall k :: k in pending && k !in left ==> pending[k] in s
      {
        var k :| k in left;
        s := s + [pending[k]];
        left := left - {k};
      }
    }

    /**
     * `flush`, with enqueues at every await: `succeeds` says which deliveries do, and `ok` lists them. Exactly those
     * were delivered and are pending no more, unless their key was enqueued anew; a failed key is still pending.
     */
    method Flush(succeeds: Occurrence -> bool)
      returns (completed: seq<Occurrence>, failed: seq<Occurrence>, ghost snapshot: seq<Occurrence>,
               ghost ok: seq<bool>)
      requires Valid()
      modifies this
      ensures Valid() && ok == Outcomes(snapshot, succeeds)
      ensures Distinct(snapshot) && SetOf(snapshot) == old(pending).Values
      ensures completed == Select(snapshot, ok, true) && failed == Select(snapshot, ok, false)
      ensures delivered == old(delivered) + SetOf(completed)
      ensures Since(old(pending), old(serial))
      ensures Settled(snapshot, ok, old(serial))
    {
      completed, failed, ok := [], [], [];
      var entries := Snapshot();
      snapshot := entries;
      for n := 0 to |entries|
        invariant Valid() && |ok| == n && ok == Outcomes(entries[..n], succeeds)
        invariant Split(entries, ok, completed, failed)
        invariant delivered == old(delivered) + SetOf(completed)
        invariant Since(old(pending), old(serial))
        invariant Settled(entries, ok, old(serial))
      {
        var occurrence := entries[n];
        var succeeded := succeeds(occurrence);
        Attempt(occurrence, succeeded, entries, ok, old(pending), old(serial));
        SplitNext(entries, ok, completed, failed, succeeded);
        OutcomesNext(entries, n, succeeds);
        SetOfNext(completed, occurrence);
        ok := ok + [succeeded];
        if succeeded {
          completed := completed + [occurrence];
        } else {
          failed := failed + [occurrence];
        }
      }
      SplitAll(entries, ok, completed, failed);
      assert entries[..|entries|] == entries;
    }

    /**
     * One delivery: the delivered object goes, a failed one stays, and every other key stays as it is or is renewed.
     */
    method Attempt(occurrence: Occurrence, succeeded: bool, ghost s: seq<Occurrence>, ghost ok: seq<bool>,
                   ghost before: map<Key, Occurrence>, ghost since: nat)
      requires Valid() && Since(before, since)
      requires Distinct(s) && Settled(s, ok, since) && |ok| < |s| && occurrence == s[|ok|]
      modifies this
      ensures Valid() && Since(before, since) && Settled(s, ok + [succeeded], since)
      ensures delivered == if succeeded then old(delivered) + {occurrence} else old(delivered)
    {
      Interleave();
      assert Settled(s, ok, since);
      if succeeded { Delivered(occurrence); }
    }

    /** After a successful delivery only that very object leaves the queue, never a newer one under its key. */
    method Delivered(occurrence: Occurrence)
      requires Valid()
      modifies this`pending, this`delivered
      ensures Valid() && delivered == old(delivered) + {occurrence}
      ensures pending == if occurrence.key in old(pending) && old(pending)[occurrence.key] == occurrence
                         then old(pending) - {occurrence.key} else old(pending)
    {
      delivered := delivered + {occurrence};
      if occurrence.key in pending && pending[occurrence.key] == occurrence {
        pending := pending - {occurrence.key};
      }
    }
  }

  /** `singleFlight` as its timer and its task drive it: ticks start a run, a run ends by success or failure. */
  class SingleFlight {
    var inFlight: Option<nat>
    var runs: nat
    /** Runs of the task that have started and not ended. */
    ghost var running: set<nat>

    constructor ()
      ensures Valid() && running == {}
    {
      inFlight, runs, running := None, 0, {};
    }

    /** At most one run at a time, and the guard is held exactly while it lasts. */
    ghost predicate Valid()
      reads this
    {
      && running == (if inFlight.Some? then {inFlight.value} else {})
      && (inFlight.Some? ==> inFlight.value < runs)
    }

    method Tick() returns (started: bool)
      requires Valid()
      modifies this
      ensures Valid() && started == (old(running) == {})
      ensures running == if started then {old(runs)} else old(running)
      ensures runs == old(runs) + if started then 1 else 0
    {
      if inFlight.Some? { return false; }
      inFlight := Some(runs);
      running := running + {runs};
      runs := runs + 1;
      return true;
    }

    /** The guard is freed whether the run succeeded or failed, so the next tick starts again. */
    method Finish(run: nat, failed: bool)
      requires Valid() && run in running
      modifies this
      ensures Valid() && running == {} && inFlight.None? && runs == old(runs)
    {
      running := running - {run};
      if inFlight == Some(run) { inFlight := None; }
    }
  }
}
