/** What each call of MimoReservationScheduler comes to, told by the permits that are out and
    the requests that wait: when a request is granted, refused, made to wait or made to contest
    a seat, that no reserved slot is held back, and what a release or a timeout does. */
module MimoService {
  import opened Counters
  import opened WaitingLine
  import opened MimoScheduler
  import opened MimoInvariant
  import MimoTheorems
  import Permits

  // ---- Reserved slots ----

  /** One more permit of this lane for this user and token is within all limits. */
  predicate HasRoom(c: Config, held: Held, lane: Lane, user: Name, token: Name) {
    && |held| < c.maxConcurrent
    && |OfLane(held, lane)| < (if lane == Media then c.laneLimits.media else c.laneLimits.vision)
    && |Permits.OfUser(held, user)| < c.perUser
    && (lane == Vision ==> |VisionOf(held, user)| < c.visionPerUser)
    && |Permits.OfToken(held, token)| < c.perToken
  }

  /** The counters say what the permits say. */
  ghost predicate Told(s: State) {
    Permits.Counted(s.tally) && LaneCounted(s.tally.held, s.tally.active, s.busy, s.vision)
  }

  lemma InvTold(c: Config, s: State)
    requires Inv(c, s)
    ensures Told(s) && WellQueued(s.line) && QueueCounted(s.line, s.queued)
    ensures Named(s.line, s.settled, s.next) && s.next !in s.settled && s.next !in s.tally.held
  {
  }

  lemma RoomStarts(c: Config, s: State, lane: Lane, user: Name, token: Name)
    requires Told(s)
    ensures CanStart(c, s, lane, user, token) <==> HasRoom(c, s.tally.held, lane, user, token)
  {
    MimoTheorems.VisionWithinUser(s.tally.held, user);
  }

  /** No reserved slot is held back: while a lane has fewer permits out than it has slots,
      whoever waits for it is kept waiting by its own user's, its own vision's or its own
      token's limit, whatever the other lane does. */
  lemma NoSlotHeldBack(c: Config, events: seq<Event>, user: Name, i: nat)
    requires ValidConfig(c) && i < |Queue(Run(c, Initial, events).line, user)|
    requires var s := Run(c, Initial, events); var lane := Queue(s.line, user)[i].lane;
             |OfLane(s.tally.held, lane)| < if lane == Media then c.laneLimits.media else c.laneLimits.vision
    ensures var s := Run(c, Initial, events); var w := Queue(s.line, user)[i];
            || |Permits.OfUser(s.tally.held, user)| >= c.perUser
            || (w.lane == Vision && |VisionOf(s.tally.held, user)| >= c.visionPerUser)
            || |Permits.OfToken(s.tally.held, w.token)| >= c.perToken
  {
    hide Run, Inv, Quiescent, CanStart, Told, WellQueued, Named, QueueCounted, Permits.OfUser, Permits.OfToken;
    var s := Run(c, Initial, events);
    MimoTheorems.ReachableStates(c, events);
    InvTold(c, s);
    LanesWithin(c, s);
    NobodyWaits(s, user);
    var w := Queue(s.line, user)[i];
    RoomStarts(c, s, w.lane, user, w.token);
    MimoTheorems.NoEntryStarts(c, s, user, i);
  }

  lemma LanesWithin(c: Config, s: State)
    requires ValidConfig(c) && Inv(c, s)
    ensures |OfLane(s.tally.held, Media)| < c.laneLimits.media || |OfLane(s.tally.held, Vision)| < c.laneLimits.vision
            ==> |s.tally.held| < c.maxConcurrent
  {
  }

  // ---- What becomes of a request ----

  datatype Verdict = Grants | Refuses(status: nat) | Waits | Contests

  /** A request that is willing to wait starts whenever there is room for it; without room it
      contests a seat if its lane's queue is full. */
  ghost function Judged(c: Config, s: State, lane: Lane, user: Name, token: Name, aborted: bool, patient: bool)
    : Verdict
  {
    var held, own := s.tally.held, Queue(s.line, user);
    var inflight := |Permits.OfUser(held, user)| + |own|;
    var vision := |VisionOf(held, user)| + InLane(own, Vision);
    if aborted then Refuses(499)
    else if inflight >= c.maxInflight || (lane == Vision && vision >= c.visionMaxInflight) then Refuses(429)
    else if HasRoom(c, held, lane, user, token) && (patient || s.line.waiting == []) then Grants
    else if !patient then Refuses(429)
    else if LaneQueued(s.line, lane) < (if lane == Media then c.laneQueueMax.media else c.laneQueueMax.vision)
    then Waits
    else Contests
  }

  ghost predicate Follows(s: State, t: State, h: Permits.Holder<Lane>, v: Verdict) {
    && t.next == s.next + 1
    && t.settled == (match v
                     case Grants => s.settled[s.next := Granted]
                     case Refuses(status) => s.settled[s.next := Rejected(status)]
                     case _ => s.settled)
    && t.tally.held == (if v.Grants? then s.tally.held[s.next := h] else s.tally.held)
    && (forall u :: Queue(t.line, u) == Queue(s.line, u)
          + if v.Waits? && u == h.user then [Waiter(s.next, u, h.token, h.lane)] else [])
  }

  /** Who stands where: a user that starts to wait goes last; one that already waits and is
      granted out of the queue goes last too, and those before it with it. */
  predicate LineFollows(c: Config, s: State, t: State, lane: Lane, user: Name, v: Verdict) {
    if v.Waits? && user !in s.line.waiting then t.line.waiting == s.line.waiting + [user]
    else if v.Grants? && user in s.line.waiting
      && s.queued.Of(lane) < (if lane == Media then c.laneQueueMax.media else c.laneQueueMax.vision) then
      var k := IndexOf(s.line.waiting, user);
      t.line.waiting == s.line.waiting[k + 1..] + s.line.waiting[..k] + [user]
    else t.line.waiting == s.line.waiting
  }

  /** What becomes of a request in every reachable state; a contested seat is the matter of the
      displacement contract. */
  lemma AcquireExactly(c: Config, events: seq<Event>, lane: Lane, user: Name, token: Name, aborted: bool, patient: bool)
    ensures var s := Run(c, Initial, events);
            var t := Step(c, s, Acquire(lane, user, token, aborted, patient));
            var v := Judged(c, s, lane, user, token, aborted, patient);
            !v.Contests? ==> Follows(s, t, Permits.Holder(user, token, lane), v) && LineFollows(c, s, t, lane, user, v)
  {
    hide Run, Inv, Judged, Follows, LineFollows, AcquireStep;
    MimoTheorems.ReachableStates(c, events);
    InvTold(c, Run(c, Initial, events));
    AcquireIs(c, Run(c, Initial, events), lane, user, token, aborted, patient);
  }

  lemma AcquireIs(c: Config, s: State, lane: Lane, user: Name, token: Name, aborted: bool, patient: bool)
    requires Quiescent(c, s) && WellQueued(s.line) && Told(s) && QueueCounted(s.line, s.queued)
    ensures var t := AcquireStep(c, s, lane, user, token, aborted, patient);
            var v := Judged(c, s, lane, user, token, aborted, patient);
            !v.Contests? ==> Follows(s, t, Permits.Holder(user, token, lane), v) && LineFollows(c, s, t, lane, user, v)
  {
    hide Judged, Quiescent, WellQueued, Told, QueueCounted, CanStart, InflightFull, Follows, LineFollows, WaitStep;
    hide DirectGrant;
    JudgedIs(c, s, lane, user, token, aborted, patient);
    if aborted {
      RefusalFollows(c, s, lane, user, token, 499);
    } else if InflightFull(c, s, lane, user)
      || (!patient && !(s.line.waiting == [] && CanStart(c, s, lane, user, token))) {
      RefusalFollows(c, s, lane, user, token, 429);
    } else if s.line.waiting == [] && CanStart(c, s, lane, user, token) {
      GrantFollows(c, s, lane, user, token);
    } else {
      WaitIs(c, s, lane, user, token);
    }
  }

  /** The same verdict in the words of the code. */
  lemma JudgedIs(c: Config, s: State, lane: Lane, user: Name, token: Name, aborted: bool, patient: bool)
    requires Told(s) && QueueCounted(s.line, s.queued)
    ensures Judged(c, s, lane, user, token, aborted, patient) ==
              if aborted then Refuses(499)
              else if InflightFull(c, s, lane, user) then Refuses(429)
              else if CanStart(c, s, lane, user, token) && (patient || s.line.waiting == []) then Grants
              else if !patient then Refuses(429)
              else if s.queued.Of(lane) < c.laneQueueMax.Of(lane) then Waits
              else Contests
  {
    RoomStarts(c, s, lane, user, token);
    FullIs(c, s, lane, user);
    LaneIs(s, lane);
    hide Told, QueueCounted, CanStart, HasRoom, LaneQueued, InflightFull, Queue;
  }

  lemma WaitIs(c: Config, s: State, lane: Lane, user: Name, token: Name)
    requires Quiescent(c, s) && WellQueued(s.line)
    ensures var t := WaitStep(c, s, lane, user, token); var h := Permits.Holder(user, token, lane);
            if CanStart(c, s, lane, user, token)
            then Follows(s, t, h, Grants) && LineFollows(c, s, t, lane, user, Grants)
            else s.queued.Of(lane) < c.laneQueueMax.Of(lane) ==>
              Follows(s, t, h, Waits) && LineFollows(c, s, t, lane, user, Waits)
  {
    hide Quiescent, WellQueued, CanStart, Follows, LineFollows, Drain, Arrive, DirectGrant, FullStep;
    if !CanStart(c, s, lane, user, token) {
      ArrivalFollows(c, s, lane, user, token);
    } else if s.queued.Of(lane) < c.laneQueueMax.Of(lane) {
      QueuedGrantFollows(c, s, lane, user, token);
    } else {
      GrantFollows(c, s, lane, user, token);
      DrainOfQuiet(c, s);
    }
  }

  lemma DrainOfQuiet(c: Config, s: State)
    requires Quiescent(c, s)
    ensures Drain(c, s) == s
  {
  }

  lemma FullIs(c: Config, s: State, lane: Lane, user: Name)
    requires Told(s)
    ensures InflightFull(c, s, lane, user) <==>
              || |Permits.OfUser(s.tally.held, user)| + |Queue(s.line, user)| >= c.maxInflight
              || (lane == Vision
                  && |VisionOf(s.tally.held, user)| + InLane(Queue(s.line, user), Vision) >= c.visionMaxInflight)
  {
  }

  lemma LaneIs(s: State, lane: Lane)
    requires QueueCounted(s.line, s.queued)
    ensures s.queued.Of(lane) == LaneQueued(s.line, lane)
  {
  }

  lemma NobodyWaits(s: State, user: Name)
    requires WellQueued(s.line)
    ensures user in s.line.waiting <==> Queue(s.line, user) != []
  {
    assert user in s.line.pending <==> user in s.line.waiting;
  }

  lemma RefusalFollows(c: Config, s: State, lane: Lane, user: Name, token: Name, status: nat)
    ensures var t := Settle(s, Rejected(status));
            && Follows(s, t, Permits.Holder(user, token, lane), Refuses(status))
            && LineFollows(c, s, t, lane, user, Refuses(status))
  {
  }

  lemma GrantFollows(c: Config, s: State, lane: Lane, user: Name, token: Name)
    requires user !in s.line.waiting || s.queued.Of(lane) >= c.laneQueueMax.Of(lane)
    ensures var t := DirectGrant(s, lane, user, token);
            Follows(s, t, Permits.Holder(user, token, lane), Grants) && LineFollows(c, s, t, lane, user, Grants)
  {
  }

  /** Without room an arrival waits, and the drain after it finds nothing to do. */
  lemma ArrivalFollows(c: Config, s: State, lane: Lane, user: Name, token: Name)
    requires Quiescent(c, s) && WellQueued(s.line) && !CanStart(c, s, lane, user, token)
    ensures var t := Drain(c, Arrive(s, lane, user, token));
            Follows(s, t, Permits.Holder(user, token, lane), Waits) && LineFollows(c, s, t, lane, user, Waits)
  {
    var a := Arrive(s, lane, user, token);
    EnqueueAppends(s.line, Waiter(s.next, user, token, lane));
    NobodyWaits(s, user);
    forall u, j | u in a.line.waiting && 0 <= j < |Queue(a.line, u)|
      ensures !EntryCanStart(c, a, u, Queue(a.line, u)[j])
    {
      ArrivedEntry(c, s, lane, user, token, u, j);
    }
    hide Quiescent, CanStart, Enqueue;
    MimoTheorems.QuiescentWhenNoneStarts(c, a);
    DrainOfQuiet(c, a);
  }

  /** Only the newcomer may be able to start. */
  lemma ArrivedEntry(c: Config, s: State, lane: Lane, user: Name, token: Name, u: Name, j: nat)
    requires Quiescent(c, s) && WellQueued(s.line) && j < |Queue(Arrive(s, lane, user, token).line, u)|
    ensures var a := Arrive(s, lane, user, token);
            EntryCanStart(c, a, u, Queue(a.line, u)[j]) <==>
              u == user && j == |Queue(s.line, user)| && CanStart(c, s, lane, user, token)
  {
    EnqueueAppends(s.line, Waiter(s.next, user, token, lane));
    NobodyWaits(s, u);
    hide Quiescent, CanStart, Enqueue;
    var a := Arrive(s, lane, user, token);
    SameCounters(c, s, a, u, Queue(a.line, u)[j]);
    if j < |Queue(s.line, u)| { MimoTheorems.NoEntryStarts(c, s, u, j); }
  }

  lemma SameCounters(c: Config, s: State, a: State, u: Name, w: Request)
    requires a.tally == s.tally && a.busy == s.busy && a.vision == s.vision
    ensures EntryCanStart(c, a, u, w) <==> EntryCanStart(c, s, u, w)
  {
  }

  // ---- With room, an arrival is served out of the queue ----

  lemma QueuedGrantFollows(c: Config, s: State, lane: Lane, user: Name, token: Name)
    requires Quiescent(c, s) && WellQueued(s.line) && CanStart(c, s, lane, user, token)
    requires s.queued.Of(lane) < c.laneQueueMax.Of(lane)
    ensures var t := Drain(c, Arrive(s, lane, user, token));
            Follows(s, t, Permits.Holder(user, token, lane), Grants) && LineFollows(c, s, t, lane, user, Grants)
  {
    hide Quiescent, WellQueued, CanStart, Arrive, GrantAt, Follows, LineFollows, First, FirstEntry;
    var a := Arrive(s, lane, user, token);
    ArrivalIsNext(c, s, lane, user, token);
    var k := First(c, a);
    var t := GrantAt(a, k, |Queue(s.line, user)|);
    ServedFollows(c, s, lane, user, token, k);
    ServedIsQuiet(c, s, lane, user, token, k);
    DrainOfQuiet(c, t);
  }

  /** The newcomer is the first request that can start. */
  lemma ArrivalIsNext(c: Config, s: State, lane: Lane, user: Name, token: Name)
    requires Quiescent(c, s) && WellQueued(s.line) && CanStart(c, s, lane, user, token)
    ensures var a := Arrive(s, lane, user, token); var k := First(c, a);
            && !Quiescent(c, a) && k < |a.line.waiting| && a.line.waiting[k] == user
            && |Queue(a.line, user)| == |Queue(s.line, user)| + 1
            && FirstEntry(c, a, user, Queue(a.line, user)) == |Queue(s.line, user)|
  {
    var a := Arrive(s, lane, user, token);
    ArrivedQueue(s, lane, user, token);
    hide WellQueued, CanStart, Arrive, Enqueue, Quiescent, EntryCanStart;
    OwnEntry(c, s, lane, user, token);
    forall u | u in a.line.waiting && u != user ensures FirstEntry(c, a, u, Queue(a.line, u)) == |Queue(a.line, u)| {
      OthersBlocked(c, s, lane, user, token, u);
    }
    hide FirstEntry;
    UserIsFirst(c, a, user);
  }

  lemma ArrivedQueue(s: State, lane: Lane, user: Name, token: Name)
    requires WellQueued(s.line)
    ensures var a := Arrive(s, lane, user, token);
            && user in a.line.waiting
            && Queue(a.line, user) == Queue(s.line, user) + [Waiter(s.next, user, token, lane)]
            && forall u :: u != user ==> Queue(a.line, u) == Queue(s.line, u)
  {
    NobodyWaits(s, user);
  }

  lemma OwnEntry(c: Config, s: State, lane: Lane, user: Name, token: Name)
    requires Quiescent(c, s) && WellQueued(s.line) && CanStart(c, s, lane, user, token)
    ensures var a := Arrive(s, lane, user, token);
            FirstEntry(c, a, user, Queue(a.line, user)) == |Queue(s.line, user)|
  {
    var a := Arrive(s, lane, user, token);
    var q := Queue(a.line, user);
    ArrivedQueue(s, lane, user, token);
    hide WellQueued, CanStart, Arrive, Quiescent, EntryCanStart, FirstEntry;
    forall j | 0 <= j < |q| ensures EntryCanStart(c, a, user, q[j]) <==> j == |q| - 1 {
      ArrivedEntry(c, s, lane, user, token, user, j);
    }
    var i := FirstEntry(c, a, user, q);
    assert EntryCanStart(c, a, user, q[|q| - 1]) && i < |q|;
    assert EntryCanStart(c, a, user, q[i]);
  }

  lemma OthersBlocked(c: Config, s: State, lane: Lane, user: Name, token: Name, u: Name)
    requires Quiescent(c, s) && WellQueued(s.line) && u != user
    ensures var a := Arrive(s, lane, user, token); FirstEntry(c, a, u, Queue(a.line, u)) == |Queue(a.line, u)|
  {
    hide WellQueued, CanStart, Arrive, Quiescent, EntryCanStart, FirstEntry;
    var a := Arrive(s, lane, user, token);
    forall j | 0 <= j < |Queue(a.line, u)| ensures !EntryCanStart(c, a, u, Queue(a.line, u)[j]) {
      ArrivedEntry(c, s, lane, user, token, u, j);
    }
  }

  lemma UserIsFirst(c: Config, a: State, user: Name)
    requires user in a.line.waiting
    requires FirstEntry(c, a, user, Queue(a.line, user)) < |Queue(a.line, user)|
    requires forall u :: u in a.line.waiting && u != user ==>
               FirstEntry(c, a, u, Queue(a.line, u)) == |Queue(a.line, u)|
    ensures First(c, a) < |a.line.waiting| && a.line.waiting[First(c, a)] == user
    ensures !Quiescent(c, a)
  {
    hide FirstEntry;
    var k, v := First(c, a), a.line.waiting;
    assert UserCanStart(c, a, IndexOf(v, user));
    assert k < |v| && UserCanStart(c, a, k) && v[k] in v;
  }

  lemma ServedFollows(c: Config, s: State, lane: Lane, user: Name, token: Name, k: nat)
    requires WellQueued(s.line) && s.queued.Of(lane) < c.laneQueueMax.Of(lane)
    requires var a := Arrive(s, lane, user, token);
             k < |a.line.waiting| && a.line.waiting[k] == user && |Queue(a.line, user)| == |Queue(s.line, user)| + 1
    ensures var t := GrantAt(Arrive(s, lane, user, token), k, |Queue(s.line, user)|);
            Follows(s, t, Permits.Holder(user, token, lane), Grants) && LineFollows(c, s, t, lane, user, Grants)
  {
    hide WellQueued, ServeAt, Enqueue, Queue, LineFollows, Follows;
    ArrivedQueue(s, lane, user, token);
    ServedQueues(s, lane, user, token, k);
    NobodyWaits(s, user);
    ArrivedPlace(s, lane, user, token, k);
    var a, i := Arrive(s, lane, user, token), |Queue(s.line, user)|;
    GrantedFrom(s, a, k, i, lane, user, token);
    hide Arrive, IndexOf;
    ServedPlace(c, s, GrantAt(a, k, i), lane, user, k);
  }

  lemma GrantedFrom(s: State, a: State, k: nat, i: nat, lane: Lane, user: Name, token: Name)
    requires a.tally == s.tally && a.settled == s.settled && a.next == s.next + 1
    requires k < |a.line.waiting| && a.line.waiting[k] == user && i < |Queue(a.line, user)|
    requires Queue(a.line, user)[i] == Waiter(s.next, user, token, lane)
    requires forall u :: Queue(ServeAt(a.line, k, i), u) == Queue(s.line, u)
    ensures Follows(s, GrantAt(a, k, i), Permits.Holder(user, token, lane), Grants)
    ensures GrantAt(a, k, i).line == ServeAt(a.line, k, i)
  {
    hide ServeAt, Queue;
  }

  lemma ServedPlace(c: Config, s: State, t: State, lane: Lane, user: Name, k: nat)
    requires s.queued.Of(lane) < c.laneQueueMax.Of(lane)
    requires var v := s.line.waiting;
             if user in v then k == IndexOf(v, user) && t.line.waiting == v[k + 1..] + v[..k] + [user]
             else t.line.waiting == v
    ensures LineFollows(c, s, t, lane, user, Grants)
  {
  }

  /** The line after the newcomer was served out of it. */
  lemma ServedQueues(s: State, lane: Lane, user: Name, token: Name, k: nat)
    requires WellQueued(s.line)
    requires var a := Arrive(s, lane, user, token);
             k < |a.line.waiting| && a.line.waiting[k] == user && |Queue(a.line, user)| == |Queue(s.line, user)| + 1
    ensures var a, own := Arrive(s, lane, user, token), Queue(s.line, user);
            var line, v := ServeAt(a.line, k, |own|), a.line.waiting;
            && (forall u :: Queue(line, u) == Queue(s.line, u))
            && line.waiting == v[k + 1..] + v[..k] + (if own == [] then [] else [user])
            && Queue(a.line, user)[|own|] == Waiter(s.next, user, token, lane)
  {
    var own := Queue(s.line, user);
    ArrivedQueue(s, lane, user, token);
    assert Without(own + [Waiter(s.next, user, token, lane)], |own|) == own;
    var a := Arrive(s, lane, user, token);
    assert a.line.pending[user] == own + [Waiter(s.next, user, token, lane)];
    NobodyWaits(s, user);
    hide WellQueued, Enqueue, Without;
  }

  lemma ArrivedPlace(s: State, lane: Lane, user: Name, token: Name, k: nat)
    requires WellQueued(s.line)
    requires var a := Arrive(s, lane, user, token); k < |a.line.waiting| && a.line.waiting[k] == user
    ensures var v, w := s.line.waiting, Arrive(s, lane, user, token).line.waiting;
            if user in v then w == v && k == IndexOf(v, user) else k == |v| && w[k + 1..] + w[..k] == v
  {
    NobodyWaits(s, user);
    var v := s.line.waiting;
    if user in v { assert v[IndexOf(v, user)] == user == v[k]; }
  }

  lemma ServedIsQuiet(c: Config, s: State, lane: Lane, user: Name, token: Name, k: nat)
    requires Quiescent(c, s) && WellQueued(s.line) && s.queued.Of(lane) < c.laneQueueMax.Of(lane)
    requires var a := Arrive(s, lane, user, token);
             k < |a.line.waiting| && a.line.waiting[k] == user && |Queue(a.line, user)| == |Queue(s.line, user)| + 1
    ensures Quiescent(c, GrantAt(Arrive(s, lane, user, token), k, |Queue(s.line, user)|))
  {
    var t := GrantAt(Arrive(s, lane, user, token), k, |Queue(s.line, user)|);
    ServedFollows(c, s, lane, user, token, k);
    ServedCounts(s, lane, user, token, k);
    assert forall u :: Queue(t.line, u) == Queue(s.line, u);
    hide Quiescent, WellQueued, GrantAt, Arrive, EntryCanStart, LineFollows, Follows;
    forall u, j | u in t.line.waiting && 0 <= j < |Queue(t.line, u)|
      ensures !EntryCanStart(c, t, u, Queue(t.line, u)[j])
    {
      NobodyWaits(s, u);
      MimoTheorems.NoEntryStarts(c, s, u, j);
      BusierBlocks(c, s, t, u, Queue(s.line, u)[j]);
    }
    MimoTheorems.QuiescentWhenNoneStarts(c, t);
  }

  ghost predicate Busier(s: State, t: State) {
    && s.tally.active <= t.tally.active && s.busy.media <= t.busy.media && s.busy.vision <= t.busy.vision
    && (forall n: Name :: Count(s.tally.byUser, n) <= Count(t.tally.byUser, n))
    && (forall n: Name :: Count(s.tally.byToken, n) <= Count(t.tally.byToken, n))
    && (forall n: Name :: Count(s.vision, n) <= Count(t.vision, n))
  }

  lemma BusierBlocks(c: Config, s: State, t: State, u: Name, w: Request)
    requires Busier(s, t) && !EntryCanStart(c, s, u, w)
    ensures !EntryCanStart(c, t, u, w)
  {
  }

  lemma ServedCounts(s: State, lane: Lane, user: Name, token: Name, k: nat)
    requires var a := Arrive(s, lane, user, token);
             k < |a.line.waiting| && a.line.waiting[k] == user && |Queue(a.line, user)| == |Queue(s.line, user)| + 1
    ensures Busier(s, GrantAt(Arrive(s, lane, user, token), k, |Queue(s.line, user)|))
  {
    hide Enqueue, ServeAt, Inc;
  }

  // ---- What a drain does ----

  /** The requests of a queue whose promise is open, in their order. */
  function Still(q: seq<Request>, settled: map<Id, Outcome>): seq<Request> {
    if q == [] then []
    else Still(q[..|q| - 1], settled) + if q[|q| - 1].id in settled then [] else [q[|q| - 1]]
  }

  lemma {:induction false} StillSettled(q: seq<Request>, a: map<Id, Outcome>, b: map<Id, Outcome>)
    requires Extends(a, b)
    ensures Still(Still(q, a), b) == Still(q, b)
  {
    if q != [] {
      var before, last := Still(q[..|q| - 1], a), q[|q| - 1];
      StillSettled(q[..|q| - 1], a, b);
      if last.id !in a { assert (before + [last])[..|before|] == before; } else { assert before + [] == before; }
    }
  }

  lemma {:induction false} StillOpen(q: seq<Request>, settled: map<Id, Outcome>)
    requires forall w :: w in q ==> w.id !in settled
    ensures Still(q, settled) == q
  {
    if q != [] {
      assert forall w :: w in q[..|q| - 1] ==> w in q;
      StillOpen(q[..|q| - 1], settled);
    }
  }

  lemma {:induction false} StillWithout(q: seq<Request>, i: nat, settled: map<Id, Outcome>)
    requires i < |q| && forall j :: 0 <= j < |q| ==> (q[j].id in settled <==> j == i)
    ensures Still(q, settled) == Without(q, i)
  {
    var last := |q| - 1;
    if i == last {
      StillOpen(q[..last], settled);
    } else {
      StillWithout(q[..last], i, settled);
      assert Without(q, i) == Without(q[..last], i) + [q[last]];
    }
  }

  /** Waiters are granted, and nothing else happens: no permit is lost, no other promise
      settles, and the others wait on in their order. */
  ghost predicate OnlyServes(s: State, t: State) {
    && t.next == s.next && Extends(s.settled, t.settled)
    && (forall id :: id in s.tally.held ==> id in t.tally.held && t.tally.held[id] == s.tally.held[id])
    && (forall u, i: nat, id: Id {:trigger WaitsAt(s.line, u, i, id)} :: WaitsAt(s.line, u, i, id) ==>
          id in t.settled ==> GrantedTo(t, id, Queue(s.line, u)[i]) && Queue(s.line, u)[i].user == u)
    && (forall id :: id in t.settled && id !in s.settled ==> Waited(s.line, id))
    && (forall id :: id in t.tally.held && id !in s.tally.held ==> id in t.settled && Waited(s.line, id))
    && (forall u :: Queue(t.line, u) == Still(Queue(s.line, u), t.settled))
  }

  predicate GrantedTo(t: State, id: Id, w: Request) {
    && id in t.settled && t.settled[id] == Granted
    && id in t.tally.held && t.tally.held[id] == Permits.Holder(w.user, w.token, w.lane)
  }

  ghost predicate Waited(line: Line<Lane>, id: Id) { exists u, i: nat :: WaitsAt(line, u, i, id) }

  lemma QueueIsOpen(s: State, u: Name)
    requires Named(s.line, s.settled, s.next)
    ensures forall w :: w in Queue(s.line, u) ==> w.id !in s.settled
  {
    forall w | w in Queue(s.line, u) ensures w.id !in s.settled {
      var i: nat :| i < |Queue(s.line, u)| && Queue(s.line, u)[i] == w;
      assert WaitsAt(s.line, u, i, w.id);
    }
  }

  lemma ServesNothing(s: State)
    requires Named(s.line, s.settled, s.next)
    ensures OnlyServes(s, s)
  {
    hide Queue;
    forall u ensures Still(Queue(s.line, u), s.settled) == Queue(s.line, u) {
      QueueIsOpen(s, u);
      StillOpen(Queue(s.line, u), s.settled);
    }
  }

  lemma GrantServes(c: Config, s: State, k: nat, i: nat)
    requires Inv(c, s) && k < |s.line.waiting| && i < |Queue(s.line, s.line.waiting[k])|
    ensures OnlyServes(s, GrantAt(s, k, i))
  {
    var user := s.line.waiting[k];
    InvTold(c, s);
    WaiterIsOpen(s, user, i);
    ServedOut(s.line, k, i);
    hide Inv, ServeAt, Named;
    ServedIs(s, GrantAt(s, k, i), user, i);
  }

  lemma ServedOut(line: Line<Lane>, k: nat, i: nat)
    requires k < |line.waiting| && i < |Queue(line, line.waiting[k])|
    ensures forall v :: Queue(ServeAt(line, k, i), v) ==
              if v == line.waiting[k] then Without(Queue(line, v), i) else Queue(line, v)
  {
  }

  lemma ServedIs(s: State, t: State, user: Name, i: nat)
    requires Named(s.line, s.settled, s.next) && i < |Queue(s.line, user)|
    requires var w := Queue(s.line, user)[i];
             && w.id !in s.settled && w.id !in s.tally.held
             && t.tally.held == s.tally.held[w.id := Permits.Holder(user, w.token, w.lane)]
             && t.settled == s.settled[w.id := Granted] && t.next == s.next
    requires forall v :: Queue(t.line, v) == if v == user then Without(Queue(s.line, v), i) else Queue(s.line, v)
    ensures OnlyServes(s, t)
  {
    var w := Queue(s.line, user)[i];
    assert WaitsAt(s.line, user, i, w.id);
    hide Queue, Without;
    forall u ensures Queue(t.line, u) == Still(Queue(s.line, u), t.settled) {
      var q := Queue(s.line, u);
      QueueIsOpen(s, u);
      forall j | 0 <= j < |q| ensures q[j].id in t.settled <==> u == user && j == i {
        assert q[j] in q && WaitsAt(s.line, u, j, q[j].id);
      }
      if u == user { StillWithout(q, i, t.settled); } else { StillOpen(q, t.settled); }
    }
  }

  lemma ServesMore(s: State, m: State, t: State)
    requires OnlyServes(s, m) && OnlyServes(m, t)
    ensures OnlyServes(s, t)
  {
    hide Queue, GrantedTo, Waited;
    forall u ensures Queue(t.line, u) == Still(Queue(s.line, u), t.settled) {
      StillSettled(Queue(s.line, u), m.settled, t.settled);
    }
    hide Still;
    forall id | Waited(m.line, id) ensures Waited(s.line, id) { WaitedBefore(s, m, id); }
    forall u, i: nat, id: Id {:trigger WaitsAt(s.line, u, i, id)} | WaitsAt(s.line, u, i, id)
      ensures id in t.settled ==> GrantedTo(t, id, Queue(s.line, u)[i]) && Queue(s.line, u)[i].user == u
    {
      if id in t.settled { ServedLater(s, m, t, u, i, id); }
    }
    hide WaitsAt;
  }

  lemma {:induction false} StillHas(q: seq<Request>, settled: map<Id, Outcome>, w: Request)
    ensures w in Still(q, settled) <==> w in q && w.id !in settled
  {
    if q != [] {
      StillHas(q[..|q| - 1], settled, w);
      assert q == q[..|q| - 1] + [q[|q| - 1]];
    }
  }

  lemma WaitedBefore(s: State, m: State, id: Id)
    requires OnlyServes(s, m) && Waited(m.line, id)
    ensures Waited(s.line, id)
  {
    var u, i: nat :| WaitsAt(m.line, u, i, id);
    var w := Queue(m.line, u)[i];
    StillHas(Queue(s.line, u), m.settled, w);
    var j: nat :| j < |Queue(s.line, u)| && Queue(s.line, u)[j] == w;
    assert WaitsAt(s.line, u, j, id);
  }

  lemma ServedLater(s: State, m: State, t: State, u: Name, i: nat, id: Id)
    requires OnlyServes(s, m) && OnlyServes(m, t) && WaitsAt(s.line, u, i, id) && id in t.settled
    ensures GrantedTo(t, id, Queue(s.line, u)[i]) && Queue(s.line, u)[i].user == u
  {
    if id !in m.settled {
      var w := Queue(s.line, u)[i];
      StillHas(Queue(s.line, u), m.settled, w);
      var j: nat :| j < |Queue(m.line, u)| && Queue(m.line, u)[j] == w;
      assert WaitsAt(m.line, u, j, id);
    }
  }

  /** A drain only serves requests that wait. */
  lemma {:induction false} DrainServes(c: Config, s: State)
    requires Inv(c, s)
    ensures OnlyServes(s, Drain(c, s))
    decreases c.maxConcurrent - s.tally.active
  {
    hide Inv, OnlyServes, Named;
    if Quiescent(c, s) {
      InvTold(c, s);
      ServesNothing(s);
    } else {
      var k := First(c, s);
      var i := FirstEntry(c, s, s.line.waiting[k], Queue(s.line, s.line.waiting[k]));
      GrantAtKeepsInv(c, s, k, i);
      GrantServes(c, s, k, i);
      DrainServes(c, GrantNext(c, s));
      ServesMore(s, GrantNext(c, s), Drain(c, s));
    }
  }

  // ---- Releases, timeouts and aborts ----

  /** One permit, and nothing else, is given back. */
  ghost predicate GivenBack(s: State, t: State, id: Id) {
    && t.tally.held == s.tally.held - {id} && Told(t)
    && t.line == s.line && t.queued == s.queued && t.settled == s.settled && t.next == s.next
  }

  /** One request, and nothing else, leaves the line, refused with this status. */
  ghost predicate Withdrawn(s: State, t: State, user: Name, i: nat, status: nat) {
    && i < |Queue(s.line, user)|
    && t.tally == s.tally && t.busy == s.busy && t.vision == s.vision && t.next == s.next
    && t.settled == s.settled[Queue(s.line, user)[i].id := Rejected(status)]
    && (forall u :: Queue(t.line, u) ==
          if u == user then Queue(s.line, u)[..i] + Queue(s.line, u)[i + 1..] else Queue(s.line, u))
  }

  /** A release gives back exactly its permit, and then waiters are served. */
  lemma ReleaseExactly(c: Config, events: seq<Event>, id: Id)
    requires id in Run(c, Initial, events).tally.held
    ensures var s := Run(c, Initial, events);
            exists m :: GivenBack(s, m, id) && OnlyServes(m, Step(c, s, Release(id)))
  {
    hide Run, Inv, OnlyServes, Told, Drain;
    var s := Run(c, Initial, events);
    MimoTheorems.ReachableStates(c, events);
    FreeKeepsInv(c, s, id);
    InvTold(c, Free(s, id));
    DrainServes(c, Free(s, id));
    assert GivenBack(s, Free(s, id), id);
  }

  /** A timeout or an abort refuses exactly its request, and then waiters are served. */
  lemma LeaveExactly(c: Config, events: seq<Event>, user: Name, i: nat, status: nat)
    requires i < |Queue(Run(c, Initial, events).line, user)|
    ensures var s := Run(c, Initial, events);
            var t := Step(c, s, Leave(user, Queue(s.line, user)[i].id, status));
            exists m :: Withdrawn(s, m, user, i, status) && OnlyServes(m, t)
  {
    hide Run, Inv, OnlyServes, Withdrawn, Step, Quiescent;
    MimoTheorems.ReachableStates(c, events);
    LeaveIs(c, Run(c, Initial, events), user, i, status);
  }

  lemma LeaveIs(c: Config, s: State, user: Name, i: nat, status: nat)
    requires Inv(c, s) && i < |Queue(s.line, user)|
    ensures var t := Step(c, s, Leave(user, Queue(s.line, user)[i].id, status));
            Withdrawn(s, Depart(s, user, i, status), user, i, status) && OnlyServes(Depart(s, user, i, status), t)
  {
    hide Inv, OnlyServes, Withdrawn, Depart, Named, Drain, Told, QueueCounted, WellQueued, Position, Queue;
    InvTold(c, s);
    PositionIs(s, user, i);
    DepartKeepsInv(c, s, user, i, status);
    WithdrawnBy(s, user, i, status);
    DrainServes(c, Depart(s, user, i, status));
  }

  lemma PositionIs(s: State, user: Name, i: nat)
    requires Named(s.line, s.settled, s.next) && i < |Queue(s.line, user)|
    ensures Position(Queue(s.line, user), Queue(s.line, user)[i].id) == i
  {
    var q := Queue(s.line, user);
    var j := Position(q, q[i].id);
    assert WaitsAt(s.line, user, i, q[i].id) && WaitsAt(s.line, user, j, q[i].id);
  }

  lemma WithdrawnBy(s: State, user: Name, i: nat, status: nat)
    requires i < |Queue(s.line, user)|
    ensures Withdrawn(s, Depart(s, user, i, status), user, i, status)
  {
  }
}
