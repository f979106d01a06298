/** What MimoReservationScheduler promises over whole runs. */
module MimoTheorems {
  import opened Counters
  import opened WaitingLine
  import opened MimoScheduler
  import opened MimoInvariant
  import Permits

  // ---- Lane reservation ----

  /** The limits of the lane, the user and the token, without the account-wide test. */
  predicate HasOwnRoom(c: Config, s: State, lane: Lane, user: Name, token: Name) {
    && s.busy.Of(lane) < c.laneLimits.Of(lane)
    && Count(s.tally.byUser, user) < c.perUser
    && (lane == Vision ==> Count(s.vision, user) < c.visionPerUser)
    && Count(s.tally.byToken, token) < c.perToken
  }

  lemma VisionWithinUser(held: Held, user: Name)
    ensures |VisionOf(held, user)| <= |Permits.OfUser(held, user)|
  {
    var rest := Permits.OfUser(held, user) - VisionOf(held, user);
    assert Permits.OfUser(held, user) == VisionOf(held, user) + rest;
  }

  /** A free reserved slot is enough, whatever the other lane's load: the account-wide test
      of `canStart` and the guard of `drain` never block such a request. */
  lemma LaneReservation(c: Config, s: State, lane: Lane, user: Name, token: Name)
    requires ValidConfig(c) && Inv(c, s)
    ensures CanStart(c, s, lane, user, token) <==> HasOwnRoom(c, s, lane, user, token)
    ensures HasOwnRoom(c, s, lane, user, token) ==> s.tally.active < c.maxConcurrent
  {
    hide QueueCounted, WellQueued, Named, Booked, Accounted;
    VisionWithinUser(s.tally.held, user);
  }

  // ---- Work conservation ----

  lemma NoEntryStarts(c: Config, s: State, user: Name, j: nat)
    requires Quiescent(c, s) && user in s.line.waiting && j < |Queue(s.line, user)|
    ensures !EntryCanStart(c, s, user, Queue(s.line, user)[j])
  {
    var k := IndexOf(s.line.waiting, user);
    assert !UserCanStart(c, s, k);
  }

  lemma QuiescentWhenNoneStarts(c: Config, s: State)
    requires forall u, j :: u in s.line.waiting && 0 <= j < |Queue(s.line, u)| ==>
               !EntryCanStart(c, s, u, Queue(s.line, u)[j])
    ensures Quiescent(c, s)
  {
    assert forall k :: 0 <= k < |s.line.waiting| ==> s.line.waiting[k] in s.line.waiting;
  }

  lemma {:induction false} DrainQuiesces(c: Config, s: State)
    ensures Quiescent(c, Drain(c, s))
    decreases c.maxConcurrent - s.tally.active
  {
    if !Quiescent(c, s) { DrainQuiesces(c, GrantNext(c, s)); }
  }

  /** Raising counters while leaving the line alone cannot make a waiter startable. */
  lemma QuiescentWhenBusier(c: Config, s: State, t: State)
    requires Quiescent(c, s) && t.line == s.line
    requires s.tally.active <= t.tally.active && s.busy.media <= t.busy.media && s.busy.vision <= t.busy.vision
    requires forall n: Name :: Count(s.tally.byUser, n) <= Count(t.tally.byUser, n)
    requires forall n: Name :: Count(s.tally.byToken, n) <= Count(t.tally.byToken, n)
    requires forall n: Name :: Count(s.vision, n) <= Count(t.vision, n)
    ensures Quiescent(c, t)
  {
    forall u, j | u in t.line.waiting && 0 <= j < |Queue(t.line, u)|
      ensures !EntryCanStart(c, t, u, Queue(t.line, u)[j])
    {
      NoEntryStarts(c, s, u, j);
    }
    QuiescentWhenNoneStarts(c, t);
  }

  /** The waiter that gives up its seat is counted in its lane, so its seat makes room. */
  lemma SeatIsCounted(s: State, user: Name, i: nat)
    requires QueueCounted(s.line, s.queued) && i < |Queue(s.line, user)|
    ensures s.queued.Of(Queue(s.line, user)[i].lane) > 0
  {
    var lane := Queue(s.line, user)[i].lane;
    QueuedSplit(s.line, user, lane);
    InLaneWithout(Queue(s.line, user), i, lane);
    QueuedNonNegative(Line(s.line.pending - {user}, [], []), lane);
  }

  lemma DepartLeavesRoom(c: Config, s: State, lane: Lane, user: Name, at: Name, i: nat)
    requires !InflightFull(c, s, lane, user) && i < |Queue(s.line, at)|
    ensures !InflightFull(c, Depart(s, at, i, 429), lane, user)
  {
    InLaneWithout(Queue(s.line, at), i, Vision);
    assert Queue(Depart(s, at, i, 429).line, at) == Without(Queue(s.line, at), i);
  }

  lemma SeatExists(line: Line<Lane>, users: seq<Name>, lane: Lane, token: Name)
    ensures var seat := SeatOf(line, users, lane, token);
            seat.Seat? ==>
              && seat.user in users && seat.index < |Queue(line, seat.user)|
              && Queue(line, seat.user)[seat.index].lane == lane
              && Queue(line, seat.user)[seat.index].token == token
    decreases |users|
  {
    if users != [] {
      var q := Queue(line, users[0]);
      if LastOf(q, lane, token, |q|) == |q| { SeatExists(line, users[1..], lane, token); }
    }
  }

  lemma DisplaceKeepsInv(c: Config, s: State, lane: Lane, user: Name, token: Name)
    requires Inv(c, s) && !InflightFull(c, s, lane, user)
    requires Displaced(c, s, lane, token).Seat?
    ensures var seat := Displaced(c, s, lane, token);
            && seat.index < |Queue(s.line, seat.user)|
            && Queue(s.line, seat.user)[seat.index].id !in s.settled
            && Queue(s.line, seat.user)[seat.index].lane == lane
            && Inv(c, Depart(s, seat.user, seat.index, 429))
            && Inv(c, Arrive(Depart(s, seat.user, seat.index, 429), lane, user, token))
  {
    hide Permits.Counted, LaneCounted, QueueCounted, WellQueued, Named, Booked, Accounted;
    var seat := Displaced(c, s, lane, token);
    var ts := LaneTokens(s.line, s.line.order, lane);
    SeatExists(s.line, s.line.order, lane, BestDonor(c, s.tally.byToken, ts, Uniques(ts)).token);
    SeatIsCounted(s, seat.user, seat.index);
    hide Within;
    DepartKeepsInv(c, s, seat.user, seat.index, 429);
    DepartLeavesRoom(c, s, lane, user, seat.user, seat.index);
    LaneBound(c, s);
    ArriveKeepsInv(c, Depart(s, seat.user, seat.index, 429), lane, user, token);
  }

  lemma LaneBound(c: Config, s: State)
    requires Within(c, s)
    ensures s.queued.Of(Media) <= c.laneQueueMax.Of(Media) && s.queued.Of(Vision) <= c.laneQueueMax.Of(Vision)
  {
  }

  lemma WaitStepKeeps(c: Config, s: State, lane: Lane, user: Name, token: Name)
    requires Inv(c, s) && Quiescent(c, s) && !InflightFull(c, s, lane, user)
    ensures Inv(c, WaitStep(c, s, lane, user, token)) && Quiescent(c, WaitStep(c, s, lane, user, token))
  {
    hide Inv, InflightFull, CanStart, Displaced;
    if s.queued.Of(lane) < c.laneQueueMax.Of(lane) {
      ArriveKeepsInv(c, s, lane, user, token);
      DrainKeepsInv(c, Arrive(s, lane, user, token));
      DrainQuiesces(c, Arrive(s, lane, user, token));
    } else if CanStart(c, s, lane, user, token) {
      DirectGrantKeepsInv(c, s, lane, user, token);
      QuiescentWhenBusier(c, s, DirectGrant(s, lane, user, token));
    } else {
      var seat := Displaced(c, s, lane, token);
      if seat.Seat? {
        DisplaceKeepsInv(c, s, lane, user, token);
        var t := Arrive(Depart(s, seat.user, seat.index, 429), lane, user, token);
        DrainKeepsInv(c, t);
        DrainQuiesces(c, t);
      } else {
        SettleKeepsInv(c, s, 429);
        QuiescentWhenBusier(c, s, Settle(s, Rejected(429)));
      }
    }
  }

  lemma StepKeeps(c: Config, s: State, e: Event)
    requires Inv(c, s) && Quiescent(c, s)
    ensures Inv(c, Step(c, s, e)) && Quiescent(c, Step(c, s, e))
  {
    hide Inv, Quiescent, CanStart, InflightFull, WaitStep;
    match e
    case Acquire(lane, user, token, aborted, patient) =>
      SettleKeepsInv(c, s, 499);
      SettleKeepsInv(c, s, 429);
      QuiescentWhenBusier(c, s, Settle(s, Rejected(499)));
      QuiescentWhenBusier(c, s, Settle(s, Rejected(429)));
      if !InflightFull(c, s, lane, user) {
        if CanStart(c, s, lane, user, token) {
          DirectGrantKeepsInv(c, s, lane, user, token);
          QuiescentWhenBusier(c, s, DirectGrant(s, lane, user, token));
        }
        WaitStepKeeps(c, s, lane, user, token);
      }
    case Release(id) =>
      if id in s.tally.held {
        FreeKeepsInv(c, s, id);
        DrainKeepsInv(c, Free(s, id));
        DrainQuiesces(c, Free(s, id));
      }
    case Leave(user, id, status) =>
      if IsPending(s.line, user, id) {
        var t := Depart(s, user, Position(Queue(s.line, user), id), status);
        DepartKeepsInv(c, s, user, Position(Queue(s.line, user), id), status);
        DrainKeepsInv(c, t);
        DrainQuiesces(c, t);
      }
  }

  /** After every event of every run the invariant holds and no waiter can start. */
  lemma {:induction false} ReachableStates(c: Config, events: seq<Event>)
    ensures Inv(c, Run(c, Initial, events)) && Quiescent(c, Run(c, Initial, events))
    decreases |events|
  {
    hide Inv, Step;
    if events == [] {
      InitialInv(c);
    } else {
      var last := |events| - 1;
      ReachableStates(c, events[..last]);
      StepKeeps(c, Run(c, Initial, events[..last]), events[last]);
    }
  }

  /** The drain on the queue-full path finds nothing to do, and an immediate grant to a new
      request never passes a waiter, of either lane, that could start. */
  lemma NoOvertakingOnArrival(c: Config, events: seq<Event>, lane: Lane, user: Name, token: Name, patient: bool,
                              k: nat, j: nat)
    ensures var s := Run(c, Initial, events);
            && Drain(c, s) == s
            && (&& k < |s.line.waiting| && j < |Queue(s.line, s.line.waiting[k])|
                && AcquireStep(c, s, lane, user, token, false, patient) == DirectGrant(s, lane, user, token) ==>
                  !EntryCanStart(c, s, s.line.waiting[k], Queue(s.line, s.line.waiting[k])[j]))
  {
    ReachableStates(c, events);
    var s := Run(c, Initial, events);
    if k < |s.line.waiting| && j < |Queue(s.line, s.line.waiting[k])| { NoEntryStarts(c, s, s.line.waiting[k], j); }
  }

  // ---- A request settles once ----

  lemma {:induction false} DrainSettlesOnce(c: Config, s: State)
    requires Inv(c, s)
    ensures Extends(s.settled, Drain(c, s).settled)
    decreases c.maxConcurrent - s.tally.active
  {
    hide Inv;
    if !Quiescent(c, s) {
      hide Extends;
      var k := First(c, s);
      var i := FirstEntry(c, s, s.line.waiting[k], Queue(s.line, s.line.waiting[k]));
      GrantAtKeepsInv(c, s, k, i);
      DrainSettlesOnce(c, GrantNext(c, s));
      ExtendsInsert(s.settled, Drain(c, s).settled, Queue(s.line, s.line.waiting[k])[i].id, Granted);
    }
  }

  lemma WaitStepSettlesOnce(c: Config, s: State, lane: Lane, user: Name, token: Name)
    requires Inv(c, s) && Quiescent(c, s) && !InflightFull(c, s, lane, user) && s.next !in s.settled
    ensures Extends(s.settled, WaitStep(c, s, lane, user, token).settled)
  {
    hide Inv, InflightFull, CanStart, Displaced, Extends;
    ExtendsFresh(s.settled, s.next, Rejected(429));
    ExtendsFresh(s.settled, s.next, Granted);
    if s.queued.Of(lane) < c.laneQueueMax.Of(lane) {
      ArriveKeepsInv(c, s, lane, user, token);
      DrainSettlesOnce(c, Arrive(s, lane, user, token));
    } else if !CanStart(c, s, lane, user, token) {
      var seat := Displaced(c, s, lane, token);
      if seat.Seat? {
        DisplaceKeepsInv(c, s, lane, user, token);
        var t := Arrive(Depart(s, seat.user, seat.index, 429), lane, user, token);
        DrainSettlesOnce(c, t);
        ExtendsInsert(s.settled, Drain(c, t).settled, Queue(s.line, seat.user)[seat.index].id, Rejected(429));
      }
    }
  }

  lemma FreshOfInv(c: Config, s: State)
    requires Inv(c, s)
    ensures s.next !in s.settled && Extends(s.settled, s.settled)
  {
  }

  lemma StepSettlesOnce(c: Config, s: State, e: Event)
    requires Inv(c, s) && Quiescent(c, s)
    ensures Extends(s.settled, Step(c, s, e).settled)
  {
    hide Inv, Extends, Quiescent, CanStart, InflightFull, WaitStep;
    FreshOfInv(c, s);
    match e
    case Acquire(lane, user, token, aborted, patient) =>
      ExtendsFresh(s.settled, s.next, Rejected(499));
      ExtendsFresh(s.settled, s.next, Rejected(429));
      ExtendsFresh(s.settled, s.next, Granted);
      if !InflightFull(c, s, lane, user) { WaitStepSettlesOnce(c, s, lane, user, token); }
    case Release(id) =>
      if id in s.tally.held {
        FreeKeepsInv(c, s, id);
        DrainSettlesOnce(c, Free(s, id));
      }
    case Leave(user, id, status) =>
      if IsPending(s.line, user, id) {
        var i := Position(Queue(s.line, user), id);
        DepartKeepsInv(c, s, user, i, status);
        DrainSettlesOnce(c, Depart(s, user, i, status));
        ExtendsInsert(s.settled, Step(c, s, e).settled, id, Rejected(status));
      }
  }

  /** Once a promise has settled, no later event of the run changes its outcome. */
  lemma {:induction false} SettledForGood(c: Config, events: seq<Event>, early: nat)
    requires early <= |events|
    ensures Extends(Run(c, Initial, events[..early]).settled, Run(c, Initial, events).settled)
    decreases |events|
  {
    hide Inv, Step, Quiescent;
    if early == |events| {
      assert events[..early] == events;
    } else {
      var last := |events| - 1;
      SettledForGood(c, events[..last], early);
      assert events[..last][..early] == events[..early];
      ReachableStates(c, events[..last]);
      StepSettlesOnce(c, Run(c, Initial, events[..last]), events[last]);
    }
  }

  // ---- Double release ----

  lemma {:induction false} DrainHoldsOnce(c: Config, s: State, id: Id)
    requires Inv(c, s) && id in s.settled && id !in s.tally.held
    ensures id !in Drain(c, s).tally.held
    decreases c.maxConcurrent - s.tally.active
  {
    hide Inv;
    if !Quiescent(c, s) {
      var k := First(c, s);
      GrantAtKeepsInv(c, s, k, FirstEntry(c, s, s.line.waiting[k], Queue(s.line, s.line.waiting[k])));
      DrainHoldsOnce(c, GrantNext(c, s), id);
    }
  }

  lemma WaitStepHoldsOnce(c: Config, s: State, lane: Lane, user: Name, token: Name, id: Id)
    requires Inv(c, s) && Quiescent(c, s) && !InflightFull(c, s, lane, user)
    requires id in s.settled && id !in s.tally.held && id != s.next
    ensures id !in WaitStep(c, s, lane, user, token).tally.held
  {
    hide Inv, InflightFull, CanStart, Displaced;
    if s.queued.Of(lane) < c.laneQueueMax.Of(lane) {
      ArriveKeepsInv(c, s, lane, user, token);
      DrainHoldsOnce(c, Arrive(s, lane, user, token), id);
    } else if !CanStart(c, s, lane, user, token) {
      var seat := Displaced(c, s, lane, token);
      if seat.Seat? {
        DisplaceKeepsInv(c, s, lane, user, token);
        DrainHoldsOnce(c, Arrive(Depart(s, seat.user, seat.index, 429), lane, user, token), id);
      }
    }
  }

  /** A request that settled without holding a permit never comes to hold one. */
  lemma StepHoldsOnce(c: Config, s: State, e: Event, id: Id)
    requires Inv(c, s) && Quiescent(c, s) && id in s.settled && id !in s.tally.held
    ensures id !in Step(c, s, e).tally.held
  {
    hide Inv, Quiescent, CanStart, InflightFull, WaitStep;
    FreshOfInv(c, s);
    match e
    case Acquire(lane, user, token, aborted, patient) =>
      if !InflightFull(c, s, lane, user) { WaitStepHoldsOnce(c, s, lane, user, token, id); }
    case Release(r) =>
      if r in s.tally.held {
        FreeKeepsInv(c, s, r);
        DrainHoldsOnce(c, Free(s, r), id);
      }
    case Leave(user, r, status) =>
      if IsPending(s.line, user, r) {
        DepartKeepsInv(c, s, user, Position(Queue(s.line, user), r), status);
        DrainHoldsOnce(c, Depart(s, user, Position(Queue(s.line, user), r), status), id);
      }
  }

  /** Releasing a permit again changes nothing, whatever happened in between. */
  lemma {:induction false} DoubleRelease(c: Config, events: seq<Event>, id: Id, more: seq<Event>)
    requires id in Run(c, Initial, events).settled
    requires id !in Run(c, Initial, events).tally.held
    ensures id !in Run(c, Initial, events + more).tally.held
    ensures Step(c, Run(c, Initial, events + more), Release(id)) == Run(c, Initial, events + more)
    decreases |more|
  {
    hide Inv;
    if more == [] {
      assert events + more == events;
    } else {
      var last := |more| - 1;
      DoubleRelease(c, events, id, more[..last]);
      var run := events + more[..last];
      assert (events + more)[..|events + more| - 1] == run;
      ReachableStates(c, run);
      SettledForGood(c, run, |events|);
      assert run[..|events|] == events;
      StepHoldsOnce(c, Run(c, Initial, run), more[last], id);
    }
  }
}
