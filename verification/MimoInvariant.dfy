/** Every reachable state of the MiMo scheduler: all counters are the truth, every limit of
    the account, the lanes, the users and the tokens holds, and no request is lost. */
module MimoInvariant {
  import opened Counters
  import opened WaitingLine
  import opened MimoScheduler
  import Permits

  type Held = map<Id, Permits.Holder<Lane>>

  function OfLane(held: Held, lane: Lane): set<Id> {
    set id | id in held && held[id].lane == lane
  }

  function VisionOf(held: Held, user: Name): set<Id> {
    set id | id in held && held[id].lane == Vision && held[id].user == user
  }

  /** The lane totals and the vision totals equal the numbers of held permits. */
  ghost predicate LaneCounted(held: Held, active: nat, busy: PerLane, vision: Counter) {
    && active == busy.media + busy.vision
    && busy.media == |OfLane(held, Media)|
    && busy.vision == |OfLane(held, Vision)|
    && (forall n: Name :: Count(vision, n) == |VisionOf(held, n)|)
  }

  ghost predicate QueueCounted(line: Line<Lane>, queued: PerLane) {
    queued.media == LaneQueued(line, Media) && queued.vision == LaneQueued(line, Vision)
  }

  ghost predicate Within(c: Config, s: State) {
    && s.busy.media <= c.laneLimits.media && s.busy.vision <= c.laneLimits.vision
    && s.queued.media <= c.laneQueueMax.media && s.queued.vision <= c.laneQueueMax.vision
    && (forall u: Name :: Count(s.tally.byUser, u) <= c.perUser)
    && (forall t: Name :: Count(s.tally.byToken, t) <= c.perToken)
    && (forall u: Name :: Count(s.vision, u) <= Min(c.perUser, c.visionPerUser))
    && (forall u: Name :: Inflight(s, u) <= c.maxInflight)
    && (forall u: Name :: VisionInflight(s, u) <= c.visionMaxInflight)
  }

  ghost predicate Booked(held: Held, settled: map<Id, Outcome>, next: Id) {
    && (forall id :: id in settled ==> id < next)
    && (forall id :: id in held ==> id in settled && settled[id] == Granted)
  }

  /** No request is lost: each one that arrived has settled or still waits. */
  ghost predicate Accounted(s: State) { |s.settled| + Queued(s.line) == s.next }

  ghost predicate Inv(c: Config, s: State) {
    && Permits.Counted(s.tally)
    && LaneCounted(s.tally.held, s.tally.active, s.busy, s.vision)
    && QueueCounted(s.line, s.queued)
    && Within(c, s)
    && WellQueued(s.line)
    && Named(s.line, s.settled, s.next)
    && Booked(s.tally.held, s.settled, s.next)
    && Accounted(s)
  }

  lemma NothingHeld()
    ensures LaneCounted(map[], 0, PerLane(0, 0), map[])
  {
    assert OfLane(map[], Media) == {} && OfLane(map[], Vision) == {};
    forall n: Name ensures |VisionOf(map[], n)| == 0 {
      assert VisionOf(map[], n) == {};
    }
  }

  lemma InitialInv(c: Config)
    ensures Inv(c, Initial)
  {
    hide Permits.Counted, LaneCounted, WellQueued, Named, LaneQueued, Queued;
    Permits.NothingCounted<Lane>();
    NothingHeld();
    NothingQueued(Media);
    NothingQueued(Vision);
    EmptyWellQueued<Lane>();
    EmptyNamed<Lane>();
  }

  // ---- Counters ----

  lemma LaneInsert(held: Held, id: Id, h: Permits.Holder<Lane>, lane: Lane)
    requires id !in held
    ensures |OfLane(held[id := h], lane)| == |OfLane(held, lane)| + if h.lane == lane then 1 else 0
  {
    if h.lane == lane { assert OfLane(held[id := h], lane) == OfLane(held, lane) + {id}; }
    else { assert OfLane(held[id := h], lane) == OfLane(held, lane); }
  }

  lemma VisionInsert(held: Held, id: Id, h: Permits.Holder<Lane>, n: Name)
    requires id !in held
    ensures |VisionOf(held[id := h], n)| == |VisionOf(held, n)| + if h.lane == Vision && h.user == n then 1 else 0
  {
    if h.lane == Vision && h.user == n { assert VisionOf(held[id := h], n) == VisionOf(held, n) + {id}; }
    else { assert VisionOf(held[id := h], n) == VisionOf(held, n); }
  }

  lemma LaneRemove(held: Held, id: Id, lane: Lane)
    requires id in held
    ensures |OfLane(held - {id}, lane)| == |OfLane(held, lane)| - if held[id].lane == lane then 1 else 0
  {
    assert OfLane(held - {id}, lane) == OfLane(held, lane) - {id};
  }

  lemma VisionRemove(held: Held, id: Id, n: Name)
    requires id in held
    ensures |VisionOf(held - {id}, n)| ==
              |VisionOf(held, n)| - if held[id].lane == Vision && held[id].user == n then 1 else 0
  {
    assert VisionOf(held - {id}, n) == VisionOf(held, n) - {id};
  }

  lemma HoldKeepsLanes(s: State, id: Id, lane: Lane, user: Name, token: Name)
    requires LaneCounted(s.tally.held, s.tally.active, s.busy, s.vision) && id !in s.tally.held
    ensures var t := Hold(s, id, lane, user, token);
            LaneCounted(t.tally.held, t.tally.active, t.busy, t.vision)
  {
    var h := Permits.Holder(user, token, lane);
    LaneInsert(s.tally.held, id, h, Media);
    LaneInsert(s.tally.held, id, h, Vision);
    var vision := if lane == Vision then Inc(s.vision, user) else s.vision;
    forall n: Name ensures Count(vision, n) == |VisionOf(s.tally.held[id := h], n)| {
      VisionInsert(s.tally.held, id, h, n);
    }
  }

  lemma FreeKeepsLanes(s: State, id: Id)
    requires LaneCounted(s.tally.held, s.tally.active, s.busy, s.vision) && id in s.tally.held
    ensures var t := Free(s, id);
            && LaneCounted(t.tally.held, t.tally.active, t.busy, t.vision)
            && t.busy.media <= s.busy.media && t.busy.vision <= s.busy.vision
            && (forall n: Name :: Count(t.vision, n) <= Count(s.vision, n))
  {
    var h := s.tally.held[id];
    LaneRemove(s.tally.held, id, Media);
    LaneRemove(s.tally.held, id, Vision);
    var vision := if h.lane == Vision then Dec(s.vision, h.user) else s.vision;
    forall n: Name ensures Count(vision, n) == |VisionOf(s.tally.held - {id}, n)| <= Count(s.vision, n) {
      VisionRemove(s.tally.held, id, n);
    }
  }

  lemma ArriveKeepsQueues(s: State, lane: Lane, user: Name, token: Name)
    requires QueueCounted(s.line, s.queued) && Accounted(s)
    ensures var t := Arrive(s, lane, user, token); QueueCounted(t.line, t.queued) && Accounted(t)
    ensures forall u :: Queue(Arrive(s, lane, user, token).line, u) ==
              if u == user then Queue(s.line, u) + [Waiter(s.next, user, token, lane)] else Queue(s.line, u)
  {
    hide Enqueue, Queued, LaneQueued, InLane;
    var w := Waiter(s.next, user, token, lane);
    var t := Arrive(s, lane, user, token);
    EnqueueAppends(s.line, w);
    QueuedChange(s.line, t.line, user, Media);
    QueuedChange(s.line, t.line, user, Vision);
    InLaneAppend(Queue(s.line, user), w, Media);
    InLaneAppend(Queue(s.line, user), w, Vision);
  }

  /** Taking one request out of the line, by a grant or by a rejection. */
  lemma LeavingKeepsQueues(s: State, t: State, user: Name, i: nat)
    requires QueueCounted(s.line, s.queued) && Accounted(s) && i < |Queue(s.line, user)|
    requires s.line.pending - {user} == t.line.pending - {user}
    requires Queue(t.line, user) == Without(Queue(s.line, user), i)
    requires t.queued == s.queued.Down(Queue(s.line, user)[i].lane) && t.next == s.next
    requires |t.settled| == |s.settled| + 1
    ensures QueueCounted(t.line, t.queued) && Accounted(t)
  {
    QueuedChange(s.line, t.line, user, Media);
    QueuedChange(s.line, t.line, user, Vision);
    InLaneWithout(Queue(s.line, user), i, Media);
    InLaneWithout(Queue(s.line, user), i, Vision);
    QueuedNonNegative(t.line, Media);
    QueuedNonNegative(t.line, Vision);
  }

  // ---- The limits ----

  /** A step that only raises the totals of one user keeps the limits if that user fits. */
  lemma WithinAfter(c: Config, s: State, t: State, user: Name)
    requires Within(c, s)
    requires t.busy.media <= c.laneLimits.media && t.busy.vision <= c.laneLimits.vision
    requires t.queued.media <= c.laneQueueMax.media && t.queued.vision <= c.laneQueueMax.vision
    requires forall v: Name :: v != user ==> Queue(t.line, v) == Queue(s.line, v)
    requires forall v: Name :: v != user ==>
            Count(t.tally.byUser, v) <= Count(s.tally.byUser, v) && Count(t.vision, v) <= Count(s.vision, v)
    requires Count(t.tally.byUser, user) <= c.perUser && Count(t.vision, user) <= Min(c.perUser, c.visionPerUser)
    requires forall k: Name :: Count(t.tally.byToken, k) <= c.perToken
    requires Inflight(t, user) <= c.maxInflight && VisionInflight(t, user) <= c.visionMaxInflight
    ensures Within(c, t)
  {
    forall u: Name
      ensures Inflight(t, u) <= c.maxInflight && VisionInflight(t, u) <= c.visionMaxInflight
    {
      assert Inflight(s, u) <= c.maxInflight && VisionInflight(s, u) <= c.visionMaxInflight;
    }
  }

  lemma DirectGrantKeepsWithin(c: Config, s: State, lane: Lane, user: Name, token: Name)
    requires Within(c, s) && CanStart(c, s, lane, user, token) && !InflightFull(c, s, lane, user)
    ensures Within(c, DirectGrant(s, lane, user, token))
  {
    var t := DirectGrant(s, lane, user, token);
    assert VisionInflight(s, user) <= c.visionMaxInflight && Count(s.vision, user) <= Min(c.perUser, c.visionPerUser);
    WithinAfter(c, s, t, user);
  }

  lemma ArriveKeepsWithin(c: Config, s: State, lane: Lane, user: Name, token: Name)
    requires Within(c, s) && !InflightFull(c, s, lane, user) && s.queued.Of(lane) < c.laneQueueMax.Of(lane)
    requires QueueCounted(s.line, s.queued) && Accounted(s)
    ensures Within(c, Arrive(s, lane, user, token))
  {
    var t := Arrive(s, lane, user, token);
    assert VisionInflight(s, user) <= c.visionMaxInflight && Count(s.vision, user) <= Min(c.perUser, c.visionPerUser);
    ArriveKeepsQueues(s, lane, user, token);
    InLaneAppend(Queue(s.line, user), Waiter(s.next, user, token, lane), Vision);
    WithinAfter(c, s, t, user);
  }

  lemma GrantAtKeepsWithin(c: Config, s: State, k: nat, i: nat)
    requires Within(c, s) && k < |s.line.waiting| && i < |Queue(s.line, s.line.waiting[k])|
    requires EntryCanStart(c, s, s.line.waiting[k], Queue(s.line, s.line.waiting[k])[i])
    ensures Within(c, GrantAt(s, k, i))
  {
    var user := s.line.waiting[k];
    var t := GrantAt(s, k, i);
    InLaneWithout(Queue(s.line, user), i, Vision);
    assert Queue(t.line, user) == Without(Queue(s.line, user), i);
    assert Inflight(s, user) <= c.maxInflight && VisionInflight(s, user) <= c.visionMaxInflight;
    assert Count(s.vision, user) <= Min(c.perUser, c.visionPerUser);
    WithinAfter(c, s, t, user);
  }

  lemma DepartKeepsWithin(c: Config, s: State, user: Name, i: nat, status: nat)
    requires Within(c, s) && i < |Queue(s.line, user)|
    ensures Within(c, Depart(s, user, i, status))
  {
    var t := Depart(s, user, i, status);
    InLaneWithout(Queue(s.line, user), i, Vision);
    assert Queue(t.line, user) == Without(Queue(s.line, user), i);
    assert Inflight(s, user) <= c.maxInflight && VisionInflight(s, user) <= c.visionMaxInflight;
    WithinAfter(c, s, t, user);
  }

  lemma FreeKeepsWithin(c: Config, s: State, id: Id)
    requires Within(c, s) && id in s.tally.held && Permits.Counted(s.tally)
    requires LaneCounted(s.tally.held, s.tally.active, s.busy, s.vision)
    ensures Within(c, Free(s, id))
  {
    hide Permits.Counted, LaneCounted;
    Permits.FreeKeepsCounted(s.tally, id);
    FreeKeepsLanes(s, id);
    var user := s.tally.held[id].user;
    assert Inflight(s, user) <= c.maxInflight && VisionInflight(s, user) <= c.visionMaxInflight;
    WithinAfter(c, s, Free(s, id), user);
  }

  // ---- The books ----

  lemma WaiterIsOpen(s: State, user: Name, i: nat)
    requires Named(s.line, s.settled, s.next) && Booked(s.tally.held, s.settled, s.next)
    requires i < |Queue(s.line, user)|
    ensures var id := Queue(s.line, user)[i].id; id !in s.settled && id !in s.tally.held && id < s.next
  {
    assert WaitsAt(s.line, user, i, Queue(s.line, user)[i].id);
  }

  lemma HoldKeepsBooked(s: State, id: Id, h: Permits.Holder<Lane>, next: Id)
    requires Booked(s.tally.held, s.settled, s.next) && id < next && s.next <= next
    ensures Booked(s.tally.held[id := h], s.settled[id := Granted], next)
  {
  }

  lemma RejectKeepsBooked(s: State, id: Id, status: nat, next: Id)
    requires Booked(s.tally.held, s.settled, s.next) && id < next && s.next <= next && id !in s.settled
    ensures Booked(s.tally.held, s.settled[id := Rejected(status)], next)
  {
  }

  lemma FreshIsOpen(s: State)
    requires Booked(s.tally.held, s.settled, s.next)
    ensures s.next !in s.settled && s.next !in s.tally.held && Booked(s.tally.held, s.settled, s.next + 1)
  {
  }

  lemma FreeKeepsBooked(s: State, id: Id)
    requires Booked(s.tally.held, s.settled, s.next) && Accounted(s) && id in s.tally.held
    ensures Booked(s.tally.held - {id}, s.settled, s.next) && Accounted(Free(s, id))
  {
  }

  lemma SettleKeepsAccounted(s: State, o: Outcome, lane: Lane, user: Name, token: Name)
    requires Accounted(s) && s.next !in s.settled
    ensures Accounted(Settle(s, o)) && Accounted(DirectGrant(s, lane, user, token))
  {
  }

  // ---- The whole invariant is kept by each step ----

  lemma SettleKeepsWithin(c: Config, s: State, o: Outcome)
    requires Within(c, s)
    ensures Within(c, Settle(s, o))
  {
    assert Inflight(s, 0) <= c.maxInflight && VisionInflight(s, 0) <= c.visionMaxInflight;
    WithinAfter(c, s, Settle(s, o), 0);
  }

  lemma SettleKeepsInv(c: Config, s: State, status: nat)
    requires Inv(c, s)
    ensures Inv(c, Settle(s, Rejected(status)))
  {
    hide Permits.Counted, LaneCounted, QueueCounted, WellQueued, Named, Within, Booked, Accounted;
    FreshIsOpen(s);
    SettleKeepsAccounted(s, Rejected(status), Media, 0, 0);
    SettleKeepsWithin(c, s, Rejected(status));
    SettleKeepsNamed(s.line, s.settled, s.next, Rejected(status));
    RejectKeepsBooked(s, s.next, status, s.next + 1);
  }

  lemma DirectGrantKeepsInv(c: Config, s: State, lane: Lane, user: Name, token: Name)
    requires Inv(c, s) && CanStart(c, s, lane, user, token) && !InflightFull(c, s, lane, user)
    ensures Inv(c, DirectGrant(s, lane, user, token))
  {
    hide Permits.Counted, LaneCounted, QueueCounted, WellQueued, Named, Within, Booked, Accounted, CanStart;
    FreshIsOpen(s);
    SettleKeepsAccounted(s, Granted, lane, user, token);
    DirectGrantKeepsWithin(c, s, lane, user, token);
    HoldKeepsLanes(s, s.next, lane, user, token);
    Permits.GrantKeepsCounted(s.tally, s.next, Permits.Holder(user, token, lane));
    SettleKeepsNamed(s.line, s.settled, s.next, Granted);
    HoldKeepsBooked(s, s.next, Permits.Holder(user, token, lane), s.next + 1);
  }

  lemma ArriveKeepsInv(c: Config, s: State, lane: Lane, user: Name, token: Name)
    requires Inv(c, s)
    requires !InflightFull(c, s, lane, user) && s.queued.Of(lane) < c.laneQueueMax.Of(lane)
    ensures Inv(c, Arrive(s, lane, user, token))
  {
    hide Permits.Counted, LaneCounted, QueueCounted, WellQueued, Named, Within, Booked, Accounted;
    FreshIsOpen(s);
    ArriveKeepsWithin(c, s, lane, user, token);
    ArriveKeepsQueues(s, lane, user, token);
    EnqueueKeepsLine(s.line, Waiter(s.next, user, token, lane));
    EnqueueKeepsNamed(s.line, s.settled, Waiter(s.next, user, token, lane));
  }

  lemma GrantAtKeepsInv(c: Config, s: State, k: nat, i: nat)
    requires Inv(c, s) && k < |s.line.waiting| && i < |Queue(s.line, s.line.waiting[k])|
    requires EntryCanStart(c, s, s.line.waiting[k], Queue(s.line, s.line.waiting[k])[i])
    ensures Inv(c, GrantAt(s, k, i))
    ensures Queue(s.line, s.line.waiting[k])[i].id !in s.settled
  {
    hide Permits.Counted, LaneCounted, QueueCounted, WellQueued, Named, Within, Booked, Accounted, CanStart;
    var user := s.line.waiting[k];
    var w := Queue(s.line, user)[i];
    var t := GrantAt(s, k, i);
    WaiterIsOpen(s, user, i);
    GrantAtKeepsWithin(c, s, k, i);
    HoldKeepsLanes(s, w.id, w.lane, user, w.token);
    ServeAtKeepsLine(s.line, k, i);
    assert s.line.pending - {user} == t.line.pending - {user};
    LeavingKeepsQueues(s, t, user, i);
    LeaveKeepsNamed(s.line, t.line, s.settled, s.next, user, i, Granted);
    Permits.GrantKeepsCounted(s.tally, w.id, Permits.Holder(user, w.token, w.lane));
    HoldKeepsBooked(s, w.id, Permits.Holder(user, w.token, w.lane), s.next);
  }

  lemma DepartKeepsInv(c: Config, s: State, user: Name, i: nat, status: nat)
    requires Inv(c, s) && i < |Queue(s.line, user)|
    ensures Inv(c, Depart(s, user, i, status))
    ensures Queue(s.line, user)[i].id !in s.settled
  {
    hide Permits.Counted, LaneCounted, QueueCounted, WellQueued, Named, Within, Booked, Accounted;
    var t := Depart(s, user, i, status);
    WaiterIsOpen(s, user, i);
    DepartKeepsWithin(c, s, user, i, status);
    RemoveKeepsLine(s.line, user, i);
    assert s.line.pending - {user} == t.line.pending - {user};
    LeavingKeepsQueues(s, t, user, i);
    LeaveKeepsNamed(s.line, t.line, s.settled, s.next, user, i, Rejected(status));
    RejectKeepsBooked(s, Queue(s.line, user)[i].id, status, s.next);
  }

  lemma FreeKeepsInv(c: Config, s: State, id: Id)
    requires Inv(c, s) && id in s.tally.held
    ensures Inv(c, Free(s, id))
  {
    hide Permits.Counted, LaneCounted, QueueCounted, WellQueued, Named, Within, Booked, Accounted;
    FreeKeepsBooked(s, id);
    FreeKeepsWithin(c, s, id);
    FreeKeepsLanes(s, id);
    Permits.FreeKeepsCounted(s.tally, id);
  }

  lemma {:induction false} DrainKeepsInv(c: Config, s: State)
    requires Inv(c, s)
    ensures Inv(c, Drain(c, s))
    decreases c.maxConcurrent - s.tally.active
  {
    hide Inv;
    if !Quiescent(c, s) {
      var k := First(c, s);
      GrantAtKeepsInv(c, s, k, FirstEntry(c, s, s.line.waiting[k], Queue(s.line, s.line.waiting[k])));
      DrainKeepsInv(c, GrantNext(c, s));
    }
  }
}
