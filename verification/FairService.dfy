/** What each call of FairCapacityScheduler comes to, told by the permits that are out and the
    requests that wait: when a request is granted, refused or made to wait, that no free slot
    is held back, and what a release, a timeout and the drain after them do and leave alone. */
module FairService {
  import opened Counters
  import opened WaitingLine
  import opened FairScheduler
  import opened FairInvariant
  import FairTheorems
  import Permits

  type Held = map<Id, Permits.Holder<()>>

  // ---- Free slots ----

  /** One more permit for this user and token is within all three limits. */
  predicate HasRoom(c: Config, held: Held, user: Name, token: Name) {
    && |held| < c.maxConcurrent
    && |Permits.OfUser(held, user)| < c.perUser
    && |Permits.OfToken(held, token)| < c.perToken
  }

  lemma RoomStarts(c: Config, s: State, user: Name, token: Name)
    requires Permits.Counted(s.tally)
    ensures CanStart(c, s, user, token) <==> HasRoom(c, s.tally.held, user, token)
  {
  }

  lemma CountedInv(c: Config, s: State)
    requires Inv(c, s)
    ensures Permits.Counted(s.tally) && WellQueued(s.line) && s.next !in s.settled && s.next !in s.tally.held
  {
  }

  /** No free slot is held back: while fewer permits are out than there are slots, whoever
      waits is kept waiting by its own user's or its own token's limit. */
  lemma NoSlotHeldBack(c: Config, events: seq<Event>, k: nat)
    requires var s := Run(c, Initial, events); |s.tally.held| < c.maxConcurrent && k < |s.line.waiting|
    ensures var s := Run(c, Initial, events); var q := Queue(s.line, s.line.waiting[k]);
            && q != []
            && (|Permits.OfUser(s.tally.held, s.line.waiting[k])| == c.perUser
                || |Permits.OfToken(s.tally.held, q[0].token)| == c.perToken)
  {
    var s := Run(c, Initial, events);
    FairTheorems.ReachableStates(c, events);
    hide Run, Inv, Quiescent;
    CountedInv(c, s);
    var user := s.line.waiting[k];
    HeadWaits(c, s, k);
    WithinLimits(c, s, user, Queue(s.line, user)[0].token);
    hide Permits.Counted, WellQueued, CanStart;
    RoomStarts(c, s, user, Queue(s.line, user)[0].token);
  }

  lemma HeadWaits(c: Config, s: State, k: nat)
    requires Quiescent(c, s) && WellQueued(s.line) && k < |s.line.waiting|
    ensures var q := Queue(s.line, s.line.waiting[k]); q != [] && !CanStart(c, s, s.line.waiting[k], q[0].token)
  {
    assert !HeadCanStart(c, s, k);
    assert s.line.waiting[k] in s.line.pending;
  }

  lemma WithinLimits(c: Config, s: State, user: Name, token: Name)
    requires Inv(c, s)
    ensures |Permits.OfUser(s.tally.held, user)| <= c.perUser && |Permits.OfToken(s.tally.held, token)| <= c.perToken
  {
    assert Count(s.tally.byUser, user) <= c.perUser && Count(s.tally.byToken, token) <= c.perToken;
  }

  // ---- What becomes of a request ----

  datatype Verdict = Grants | Refuses(status: nat) | Waits

  /** A request that is willing to wait also starts at once when no earlier request of its own
      user waits, or when the queue has no place for it. */
  ghost function Judged(c: Config, s: State, user: Name, token: Name, aborted: bool, patient: bool): Verdict {
    var held := s.tally.held;
    var own := Queue(s.line, user);
    var full := c.queueMax.AtMost? && Queued(s.line) >= c.queueMax.limit;
    if aborted then Refuses(499)
    else if c.maxInflight.AtMost? && |Permits.OfUser(held, user)| + |own| >= c.maxInflight.limit then Refuses(429)
    else if HasRoom(c, held, user, token) && (s.line.waiting == [] || (patient && (full || own == []))) then Grants
    else if !patient || full then Refuses(429)
    else Waits
  }

  /** The states before and after, but for the line. */
  ghost predicate Follows(s: State, t: State, user: Name, token: Name, v: Verdict) {
    && t.next == s.next + 1
    && t.settled == (match v
                     case Grants => s.settled[s.next := Granted]
                     case Refuses(status) => s.settled[s.next := Rejected(status)]
                     case Waits => s.settled)
    && t.tally.held ==
       (if v.Grants? then s.tally.held[s.next := Permits.Holder(user, token, ())] else s.tally.held)
  }

  /** Only a request that waits changes the line: it goes last in its user's queue, and its
      user, unless in line already, goes last in line. */
  ghost predicate LineFollows(a: Line<()>, b: Line<()>, w: Request, waits: bool) {
    if waits then
      && (forall u :: Queue(b, u) == if u == w.user then Queue(a, u) + [w] else Queue(a, u))
      && b.waiting == if w.user in a.waiting then a.waiting else a.waiting + [w.user]
    else b == a
  }

  /** What becomes of a request in every reachable state. */
  lemma AcquireExactly(c: Config, events: seq<Event>, user: Name, token: Name, aborted: bool, patient: bool)
    ensures var s := Run(c, Initial, events);
            var t := Step(c, s, Acquire(user, token, aborted, patient));
            var v := Judged(c, s, user, token, aborted, patient);
            && Follows(s, t, user, token, v)
            && LineFollows(s.line, t.line, Waiter(s.next, user, token, ()), v.Waits?)
  {
    hide Run, Inv, Judged, Follows, LineFollows, AcquireStep;
    FairTheorems.ReachableStates(c, events);
    CountedInv(c, Run(c, Initial, events));
    AcquireIs(c, Run(c, Initial, events), user, token, aborted, patient);
  }

  lemma AcquireIs(c: Config, s: State, user: Name, token: Name, aborted: bool, patient: bool)
    requires Quiescent(c, s) && WellQueued(s.line) && Permits.Counted(s.tally)
    ensures var t := AcquireStep(c, s, user, token, aborted, patient);
            var v := Judged(c, s, user, token, aborted, patient);
            Follows(s, t, user, token, v) && LineFollows(s.line, t.line, Waiter(s.next, user, token, ()), v.Waits?)
  {
    RoomStarts(c, s, user, token);
    InflightIs(s, user);
    NobodyWaits(s, user);
    hide Quiescent, WellQueued, Permits.Counted, CanStart, HasRoom, Drain, Queued, Arrive, DirectGrant, Inflight;
    hide Follows, LineFollows, Queue;
    RefusalFollows(s, user, token, 499);
    RefusalFollows(s, user, token, 429);
    GrantFollows(s, user, token);
    ArrivalFollows(s, user, token);
    ArrivalDrains(c, s, user, token);
  }

  lemma InflightIs(s: State, user: Name)
    requires Permits.Counted(s.tally)
    ensures Inflight(s, user) == |Permits.OfUser(s.tally.held, user)| + |Queue(s.line, user)|
  {
  }

  lemma NobodyWaits(s: State, user: Name)
    requires WellQueued(s.line)
    ensures s.line.waiting == [] ==> Queue(s.line, user) == []
  {
    assert user in s.line.pending ==> user in s.line.waiting;
  }

  lemma RefusalFollows(s: State, user: Name, token: Name, status: nat)
    ensures var t := Settle(s, Rejected(status));
            && Follows(s, t, user, token, Refuses(status))
            && LineFollows(s.line, t.line, Waiter(s.next, user, token, ()), false)
  {
  }

  lemma GrantFollows(s: State, user: Name, token: Name)
    ensures var t := DirectGrant(s, user, token);
            && Follows(s, t, user, token, Grants)
            && LineFollows(s.line, t.line, Waiter(s.next, user, token, ()), false)
  {
  }

  lemma ArrivalFollows(s: State, user: Name, token: Name)
    requires WellQueued(s.line)
    ensures var t := Arrive(s, user, token);
            && Follows(s, t, user, token, Waits)
            && LineFollows(s.line, t.line, Waiter(s.next, user, token, ()), true)
  {
    assert user in s.line.waiting <==> user in s.line.pending;
  }

  /** After an arrival in a quiescent state nothing but the arrival can start. */
  lemma ArrivalDrains(c: Config, s: State, user: Name, token: Name)
    requires Quiescent(c, s) && WellQueued(s.line)
    ensures Drain(c, s) == s
    ensures Drain(c, Arrive(s, user, token)) ==
              if CanStart(c, s, user, token) && Queue(s.line, user) == [] then DirectGrant(s, user, token)
              else Arrive(s, user, token)
  {
    hide Quiescent, WellQueued, CanStart, Queue, Arrive, DirectGrant;
    if Queue(s.line, user) == [] && CanStart(c, s, user, token) {
      NewUserIsServed(c, s, user, token);
    } else {
      ArrivalWaits(c, s, user, token);
    }
  }

  lemma ArrivalWaits(c: Config, s: State, user: Name, token: Name)
    requires Quiescent(c, s) && WellQueued(s.line)
    requires !CanStart(c, s, user, token) || Queue(s.line, user) != []
    ensures Quiescent(c, Arrive(s, user, token))
  {
    var a := Arrive(s, user, token);
    forall k | 0 <= k < |a.line.waiting| ensures !HeadCanStart(c, a, k) {
      if k < |s.line.waiting| {
        assert a.line.waiting[k] == s.line.waiting[k];
        assert !HeadCanStart(c, s, k);
        assert s.line.waiting[k] in s.line.pending;
      }
    }
  }

  lemma NewUserIsServed(c: Config, s: State, user: Name, token: Name)
    requires Quiescent(c, s) && WellQueued(s.line) && Queue(s.line, user) == [] && CanStart(c, s, user, token)
    ensures Drain(c, Arrive(s, user, token)) == DirectGrant(s, user, token)
  {
    var a := Arrive(s, user, token);
    NewUserIsFirst(c, s, user, token);
    NewUserIsGranted(s, user, token);
    hide WellQueued, First, CanStart, Arrive, DirectGrant, GrantAt;
    GrantKeepsQuiet(c, s, user, token);
  }

  lemma GrantKeepsQuiet(c: Config, s: State, user: Name, token: Name)
    requires Quiescent(c, s)
    ensures Quiescent(c, DirectGrant(s, user, token))
  {
    hide Quiescent;
    FairTheorems.QuiescentWhenBusier(c, s, DirectGrant(s, user, token));
  }

  lemma NewUserIsFirst(c: Config, s: State, user: Name, token: Name)
    requires Quiescent(c, s) && WellQueued(s.line) && Queue(s.line, user) == [] && CanStart(c, s, user, token)
    ensures var a := Arrive(s, user, token);
            !Quiescent(c, a) && First(c, a) == |s.line.waiting| == |a.line.waiting| - 1
  {
    var a := Arrive(s, user, token);
    var k := |s.line.waiting|;
    assert user !in s.line.pending;
    forall j | 0 <= j < k ensures !HeadCanStart(c, a, j) {
      assert !HeadCanStart(c, s, j) && s.line.waiting[j] in s.line.pending;
    }
    assert HeadCanStart(c, a, k);
  }

  lemma NewUserIsGranted(s: State, user: Name, token: Name)
    requires WellQueued(s.line) && Queue(s.line, user) == []
    ensures var a := Arrive(s, user, token); var k := |s.line.waiting|;
            && k < |a.line.waiting| && Queue(a.line, a.line.waiting[k]) != []
            && GrantAt(a, k) == DirectGrant(s, user, token)
  {
    assert user !in s.line.pending;
    hide WellQueued, ServeAt;
    LeavesNoTrace(s.line, Waiter(s.next, user, token, ()));
  }

  lemma LeavesNoTrace(line: Line<()>, w: Request)
    requires WellQueued(line) && w.user !in line.pending
    ensures ServeAt(Enqueue(line, w), |line.waiting|, 0) == line
  {
    var e := Enqueue(line, w);
    assert e.waiting[|line.waiting| + 1..] + e.waiting[..|line.waiting|] == line.waiting;
    assert e.pending - {w.user} == line.pending;
    assert IndexOf(e.order, w.user) == |line.order| by { assert w.user !in line.order; }
    assert Without(e.order, |line.order|) == line.order;
  }

  // ---- What a drain does ----

  /** Waiters are granted, each in its turn within its queue, and nothing else happens: no
      permit is lost, no other promise settles and no other request leaves or joins. */
  ghost predicate OnlyServes(s: State, t: State) {
    && t.next == s.next
    && Extends(s.settled, t.settled)
    && (forall id :: id in s.tally.held ==> id in t.tally.held && t.tally.held[id] == s.tally.held[id])
    && (forall u, i: nat, id: Id {:trigger WaitsAt(s.line, u, i, id)} ::
          WaitsAt(s.line, u, i, id) && i < |Queue(s.line, u)| - |Queue(t.line, u)| ==>
            && id in t.tally.held && t.tally.held[id] == Permits.Holder(u, Queue(s.line, u)[i].token, ())
            && id in t.settled && t.settled[id] == Granted)
    && (forall id :: id in t.settled && id !in s.settled ==> id in t.tally.held)
    && (forall id :: id in t.tally.held && id !in s.tally.held ==> Served(s.line, t.line, id))
    && (forall u :: LeftOf(Queue(s.line, u), Queue(t.line, u)))
  }

  predicate LeftOf(early: seq<Request>, late: seq<Request>) {
    |late| <= |early| && late == early[|early| - |late|..]
  }

  ghost predicate Served(early: Line<()>, late: Line<()>, id: Id) {
    exists u, i: nat {:trigger WaitsAt(early, u, i, id)} ::
      WaitsAt(early, u, i, id) && i < |Queue(early, u)| - |Queue(late, u)|
  }

  lemma ServesNothing(s: State)
    ensures OnlyServes(s, s)
  {
  }

  lemma GrantServes(c: Config, s: State, k: nat)
    requires Inv(c, s) && k < |s.line.waiting| && HeadCanStart(c, s, k)
    ensures OnlyServes(s, GrantAt(s, k))
  {
    var user := s.line.waiting[k];
    WaiterIsOpen(s, user, 0);
    ServedQueues(s.line, k);
    hide Inv, HeadCanStart, ServeAt;
    ServedIs(s, GrantAt(s, k), user);
  }

  lemma ServedIs(s: State, t: State, user: Name)
    requires Queue(s.line, user) != []
    requires var w := Queue(s.line, user)[0];
             && w.id !in s.settled && w.id !in s.tally.held
             && t.tally.held == s.tally.held[w.id := Permits.Holder(user, w.token, ())]
             && t.settled == s.settled[w.id := Granted] && t.next == s.next
    requires forall v :: Queue(t.line, v) == if v == user then Queue(s.line, v)[1..] else Queue(s.line, v)
    ensures OnlyServes(s, t)
  {
    hide Queue;
    var w := Queue(s.line, user)[0];
    assert WaitsAt(s.line, user, 0, w.id);
    assert Served(s.line, t.line, w.id);
  }

  lemma {:induction false} ServesMore(s: State, m: State, t: State)
    requires OnlyServes(s, m) && OnlyServes(m, t)
    ensures OnlyServes(s, t)
  {
    hide Queue;
    forall u, i: nat, id: Id {:trigger WaitsAt(s.line, u, i, id)} |
      WaitsAt(s.line, u, i, id) && i < |Queue(s.line, u)| - |Queue(t.line, u)|
      ensures id in t.tally.held && t.tally.held[id] == Permits.Holder(u, Queue(s.line, u)[i].token, ())
      ensures id in t.settled && t.settled[id] == Granted
    {
      ServedLater(s, m, t, u, i, id);
    }
    forall id | id in t.tally.held && id !in s.tally.held ensures Served(s.line, t.line, id) {
      ServedEarlier(s, m, t, id);
    }
    forall u ensures LeftOf(Queue(s.line, u), Queue(t.line, u)) {
      LeftOfLeft(Queue(s.line, u), Queue(m.line, u), Queue(t.line, u));
    }
  }

  lemma LeftOfLeft(a: seq<Request>, b: seq<Request>, c: seq<Request>)
    requires LeftOf(a, b) && LeftOf(b, c)
    ensures LeftOf(a, c)
  {
  }

  lemma ServedLater(s: State, m: State, t: State, u: Name, i: nat, id: Id)
    requires OnlyServes(s, m) && OnlyServes(m, t)
    requires WaitsAt(s.line, u, i, id) && i < |Queue(s.line, u)| - |Queue(t.line, u)|
    ensures id in t.tally.held && t.tally.held[id] == Permits.Holder(u, Queue(s.line, u)[i].token, ())
    ensures id in t.settled && t.settled[id] == Granted
  {
    assert LeftOf(Queue(s.line, u), Queue(m.line, u));
    var gone := |Queue(s.line, u)| - |Queue(m.line, u)|;
    if i >= gone { assert WaitsAt(m.line, u, i - gone, id); }
  }

  lemma ServedEarlier(s: State, m: State, t: State, id: Id)
    requires OnlyServes(s, m) && OnlyServes(m, t) && id in t.tally.held && id !in s.tally.held
    ensures Served(s.line, t.line, id)
  {
    if id in m.tally.held {
      var u, i: nat :| WaitsAt(s.line, u, i, id) && i < |Queue(s.line, u)| - |Queue(m.line, u)|;
      assert LeftOf(Queue(m.line, u), Queue(t.line, u));
    } else {
      assert Served(m.line, t.line, id);
      var u, i: nat :| WaitsAt(m.line, u, i, id) && i < |Queue(m.line, u)| - |Queue(t.line, u)|;
      assert LeftOf(Queue(s.line, u), Queue(m.line, u));
      assert WaitsAt(s.line, u, i + (|Queue(s.line, u)| - |Queue(m.line, u)|), id);
    }
  }

  /** A drain only serves, in order, requests that wait. */
  lemma {:induction false} DrainServes(c: Config, s: State)
    requires Inv(c, s)
    ensures OnlyServes(s, Drain(c, s))
    decreases c.maxConcurrent - s.tally.active
  {
    hide Inv, OnlyServes;
    if Quiescent(c, s) {
      ServesNothing(s);
    } else {
      var k := First(c, s);
      GrantAtKeepsInv(c, s, k);
      GrantServes(c, s, k);
      DrainServes(c, GrantAt(s, k));
      ServesMore(s, GrantAt(s, k), Drain(c, s));
    }
  }

  // ---- Releases, timeouts and aborts ----

  /** One permit, and nothing else, is given back. */
  ghost predicate GivenBack(s: State, t: State, id: Id) {
    && t.tally.held == s.tally.held - {id} && Permits.Counted(t.tally)
    && t.line == s.line && t.settled == s.settled && t.next == s.next
  }

  /** One request, and nothing else, leaves the line, refused with this status. */
  ghost predicate Withdrawn(s: State, t: State, user: Name, i: nat, status: nat) {
    && i < |Queue(s.line, user)|
    && t.tally == s.tally && t.next == s.next
    && t.settled == s.settled[Queue(s.line, user)[i].id := Rejected(status)]
    && (forall u :: Queue(t.line, u) ==
          if u == user then Queue(s.line, u)[..i] + Queue(s.line, u)[i + 1..] else Queue(s.line, u))
  }

  /** A release gives back exactly its permit, and then waiters are served until no free slot
      is held back. */
  lemma ReleaseExactly(c: Config, events: seq<Event>, id: Id)
    requires id in Run(c, Initial, events).tally.held
    ensures var s := Run(c, Initial, events);
            exists m :: GivenBack(s, m, id) && OnlyServes(m, Step(c, s, Release(id)))
  {
    var s := Run(c, Initial, events);
    FairTheorems.ReachableStates(c, events);
    CountedInv(c, s);
    Permits.FreeKeepsCounted(s.tally, id);
    FreeKeepsInv(c, s, id);
    hide Run, Inv, OnlyServes, Permits.Counted;
    DrainServes(c, Free(s, id));
    assert GivenBack(s, Free(s, id), id);
  }

  /** A timeout or an abort refuses exactly its request, and then waiters are served. */
  lemma LeaveExactly(c: Config, events: seq<Event>, user: Name, i: nat, status: nat)
    requires i < |Queue(Run(c, Initial, events).line, user)|
    ensures var s := Run(c, Initial, events);
            var t := Step(c, s, Leave(user, Queue(s.line, user)[i].id, status));
            exists m :: Withdrawn(s, m, user, i, status) && OnlyServes(m, t)
  {
    var s := Run(c, Initial, events);
    FairTheorems.ReachableStates(c, events);
    var id := Queue(s.line, user)[i].id;
    PositionIs(c, s, user, i);
    DepartKeepsInv(c, s, user, id, status);
    WithdrawnBy(s, user, i, status);
    hide Run, Inv, OnlyServes, Withdrawn, Depart;
    DrainServes(c, Depart(s, user, id, status));
  }

  lemma PositionIs(c: Config, s: State, user: Name, i: nat)
    requires Inv(c, s) && i < |Queue(s.line, user)|
    ensures Position(Queue(s.line, user), Queue(s.line, user)[i].id) == i
  {
    var q := Queue(s.line, user);
    var j := Position(q, q[i].id);
    assert WaitsAt(s.line, user, i, q[i].id) && WaitsAt(s.line, user, j, q[i].id);
  }

  lemma WithdrawnBy(s: State, user: Name, i: nat, status: nat)
    requires i < |Queue(s.line, user)| && Position(Queue(s.line, user), Queue(s.line, user)[i].id) == i
    ensures Withdrawn(s, Depart(s, user, Queue(s.line, user)[i].id, status), user, i, status)
  {
  }
}
