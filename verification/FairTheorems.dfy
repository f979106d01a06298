/** What FairCapacityScheduler promises over whole runs. */
module FairTheorems {
  import opened Counters
  import opened WaitingLine
  import opened FairScheduler
  import opened FairInvariant
  import Permits

  // ---- Work conservation ----

  lemma {:induction false} DrainQuiesces(c: Config, s: State)
    ensures Quiescent(c, Drain(c, s))
    decreases c.maxConcurrent - s.tally.active
  {
    if !Quiescent(c, s) { DrainQuiesces(c, GrantAt(s, First(c, s))); }
  }

  /** Raising counters while leaving the line alone cannot make a waiter startable. */
  lemma QuiescentWhenBusier(c: Config, s: State, t: State)
    requires Quiescent(c, s) && t.line == s.line
    requires s.tally.active <= t.tally.active
    requires forall n: Name :: Count(s.tally.byUser, n) <= Count(t.tally.byUser, n)
    requires forall n: Name :: Count(s.tally.byToken, n) <= Count(t.tally.byToken, n)
    ensures Quiescent(c, t)
  {
    if First(c, t) < |t.line.waiting| { assert HeadCanStart(c, s, First(c, t)); }
  }

  lemma StepKeeps(c: Config, s: State, e: Event)
    requires Inv(c, s) && Quiescent(c, s)
    ensures Inv(c, Step(c, s, e)) && Quiescent(c, Step(c, s, e))
  {
    hide Inv, Quiescent, CanStart;
    match e
    case Acquire(user, token, aborted, patient) =>
      SettleKeepsInv(c, s, 499);
      SettleKeepsInv(c, s, 429);
      QuiescentWhenBusier(c, s, Settle(s, Rejected(499)));
      QuiescentWhenBusier(c, s, Settle(s, Rejected(429)));
      if !c.maxInflight.Reached(Inflight(s, user)) {
        if CanStart(c, s, user, token) {
          DirectGrantKeepsInv(c, s, user, token);
          QuiescentWhenBusier(c, s, DirectGrant(s, user, token));
        }
        if !c.queueMax.Reached(Queued(s.line)) {
          ArriveKeepsInv(c, s, user, token);
          DrainKeepsInv(c, Arrive(s, user, token));
          DrainQuiesces(c, Arrive(s, user, token));
        }
      }
    case Release(id) =>
      if id in s.tally.held {
        FreeKeepsInv(c, s, id);
        DrainKeepsInv(c, Free(s, id));
        DrainQuiesces(c, Free(s, id));
      }
    case Leave(user, id, status) =>
      if IsPending(s.line, user, id) {
        DepartKeepsInv(c, s, user, id, status);
        DrainKeepsInv(c, Depart(s, user, id, status));
        DrainQuiesces(c, Depart(s, user, id, status));
      }
  }

  /** After every event of every run the invariant holds and no head of a queue can start. */
  lemma {:induction false} ReachableStates(c: Config, events: seq<Event>)
    ensures Inv(c, Run(c, Initial, events)) && Quiescent(c, Run(c, Initial, events))
    decreases |events|
  {
    hide Inv, Step;
    if events == [] {
      InitialInv(c);
    } else {
      var last := |events| - 1;
      ReachableStates(c, events[..last]);
      StepKeeps(c, Run(c, Initial, events[..last]), events[last]);
    }
  }

  /** The drain on the queue-full path finds nothing to do, and an immediate grant to a new
      request never passes a waiter that could start. */
  lemma NoOvertakingOnArrival(c: Config, events: seq<Event>, user: Name, token: Name, patient: bool, k: nat)
    ensures var s := Run(c, Initial, events);
            && Drain(c, s) == s
            && (k < |s.line.waiting|
                && AcquireStep(c, s, user, token, false, patient) == DirectGrant(s, user, token) ==>
                  !HeadCanStart(c, s, k))
  {
    ReachableStates(c, events);
  }

  // ---- A request settles once ----

  lemma {:induction false} DrainSettlesOnce(c: Config, s: State)
    requires Inv(c, s)
    ensures Extends(s.settled, Drain(c, s).settled)
    decreases c.maxConcurrent - s.tally.active
  {
    hide Inv;
    if !Quiescent(c, s) {
      hide Extends;
      var k := First(c, s);
      GrantAtKeepsInv(c, s, k);
      DrainSettlesOnce(c, GrantAt(s, k));
      ExtendsInsert(s.settled, Drain(c, s).settled, Queue(s.line, s.line.waiting[k])[0].id, Granted);
    }
  }

  lemma StepSettlesOnce(c: Config, s: State, e: Event)
    requires Inv(c, s) && Quiescent(c, s)
    ensures Extends(s.settled, Step(c, s, e).settled)
  {
    assert s.next !in s.settled && Extends(s.settled, s.settled);
    hide Inv, Extends, Quiescent, CanStart;
    match e
    case Acquire(user, token, aborted, patient) =>
      ExtendsFresh(s.settled, s.next, Rejected(499));
      ExtendsFresh(s.settled, s.next, Rejected(429));
      ExtendsFresh(s.settled, s.next, Granted);
      if !c.maxInflight.Reached(Inflight(s, user)) && !c.queueMax.Reached(Queued(s.line)) {
        ArriveKeepsInv(c, s, user, token);
        DrainSettlesOnce(c, Arrive(s, user, token));
      }
    case Release(id) =>
      if id in s.tally.held {
        FreeKeepsInv(c, s, id);
        DrainSettlesOnce(c, Free(s, id));
      }
    case Leave(user, id, status) =>
      if IsPending(s.line, user, id) {
        DepartKeepsInv(c, s, user, id, status);
        DrainSettlesOnce(c, Depart(s, user, id, status));
        ExtendsInsert(s.settled, Step(c, s, e).settled, id, Rejected(status));
      }
  }

  /** Once a promise has settled, no later event of the run changes its outcome. */
  lemma {:induction false} SettledForGood(c: Config, events: seq<Event>, early: nat)
    requires early <= |events|
    ensures Extends(Run(c, Initial, events[..early]).settled, Run(c, Initial, events).settled)
    decreases |events|
  {
    hide Inv, Step, Quiescent;
    if early == |events| {
      assert events[..early] == events;
    } else {
      var last := |events| - 1;
      SettledForGood(c, events[..last], early);
      assert events[..last][..early] == events[..early];
      ReachableStates(c, events[..last]);
      StepSettlesOnce(c, Run(c, Initial, events[..last]), events[last]);
    }
  }

  lemma {:induction false} DrainHoldsOnce(c: Config, s: State, id: Id)
    requires Inv(c, s) && id in s.settled && id !in s.tally.held
    ensures id !in Drain(c, s).tally.held
    decreases c.maxConcurrent - s.tally.active
  {
    if !Quiescent(c, s) {
      hide Inv;
      var k := First(c, s);
      GrantAtKeepsInv(c, s, k);
      DrainHoldsOnce(c, GrantAt(s, k), id);
    }
  }

  /** A request that settled without holding a permit never comes to hold one. */
  lemma StepHoldsOnce(c: Config, s: State, e: Event, id: Id)
    requires Inv(c, s) && Quiescent(c, s) && id in s.settled && id !in s.tally.held
    ensures id !in Step(c, s, e).tally.held
  {
    hide Inv, Quiescent, AcquireStep;
    match e
    case Acquire(user, token, aborted, patient) => AcquireHoldsOnce(c, s, user, token, aborted, patient, id);
    case Release(r) =>
      if r in s.tally.held {
        FreeKeepsInv(c, s, r);
        DrainHoldsOnce(c, Free(s, r), id);
      }
    case Leave(user, r, status) =>
      if IsPending(s.line, user, r) {
        DepartKeepsInv(c, s, user, r, status);
        DrainHoldsOnce(c, Depart(s, user, r, status), id);
      }
  }

  lemma AcquireHoldsOnce(c: Config, s: State, user: Name, token: Name, aborted: bool, patient: bool, id: Id)
    requires Inv(c, s) && Quiescent(c, s) && id in s.settled && id !in s.tally.held
    ensures id !in AcquireStep(c, s, user, token, aborted, patient).tally.held
  {
    assert id != s.next;
    hide Inv;
    if !c.maxInflight.Reached(Inflight(s, user)) && !c.queueMax.Reached(Queued(s.line)) {
      ArriveKeepsInv(c, s, user, token);
      DrainHoldsOnce(c, Arrive(s, user, token), id);
    }
  }

  /** Releasing a permit again changes nothing, whatever happened in between. */
  lemma {:induction false} DoubleRelease(c: Config, events: seq<Event>, id: Id, more: seq<Event>)
    requires id in Run(c, Initial, events).settled
    requires id !in Run(c, Initial, events).tally.held
    ensures id !in Run(c, Initial, events + more).tally.held
    ensures Step(c, Run(c, Initial, events + more), Release(id)) == Run(c, Initial, events + more)
    decreases |more|
  {
    if more == [] {
      assert events + more == events;
    } else {
      var last := |more| - 1;
      DoubleRelease(c, events, id, more[..last]);
      var run := events + more[..last];
      assert (events + more)[..|events + more| - 1] == run;
      ReachableStates(c, run);
      SettledForGood(c, run, |events|);
      assert run[..|events|] == events;
      StepHoldsOnce(c, Run(c, Initial, run), more[last], id);
    }
  }
}
