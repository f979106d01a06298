/** The specification of MimoReservationScheduler (gateway/modelCapacity.ts): one account
    whose capacity is reserved in two lanes, with a bounded queue per lane and the
    displacement of waiters. Each public event is one atomic step. */
module MimoScheduler {
  import opened Counters
  import opened WaitingLine
  import Permits

  datatype Lane = Media | Vision

  datatype PerLane = PerLane(media: nat, vision: nat) {
    function Of(lane: Lane): nat { if lane == Media then media else vision }

    function Up(lane: Lane): PerLane {
      if lane == Media then PerLane(media + 1, vision) else PerLane(media, vision + 1)
    }

    function Down(lane: Lane): PerLane {
      if lane == Media then PerLane(if media > 0 then media - 1 else 0, vision)
      else PerLane(media, if vision > 0 then vision - 1 else 0)
    }
  }

  datatype Config = Config(
    maxConcurrent: nat, laneLimits: PerLane, perUser: nat, perToken: nat, maxInflight: nat,
    laneQueueMax: PerLane, visionPerUser: nat, visionMaxInflight: nat)

  /** What the constructor demands before it builds a scheduler. */
  predicate ValidConfig(c: Config) {
    && c.maxConcurrent >= 1 && c.laneLimits.media >= 1 && c.laneLimits.vision >= 1
    && c.perUser >= 1 && c.perToken >= 1 && c.maxInflight >= 1
    && c.visionPerUser >= 1 && c.visionMaxInflight >= 1
    && c.laneLimits.media + c.laneLimits.vision == c.maxConcurrent
  }

  type Request = Waiter<Lane>

  /** `busy` is activeByLane, `queued` is queuedByLane, `vision` is activeVisionByUser. */
  datatype State = State(
    tally: Permits.Tally<Lane>, busy: PerLane, vision: Counter,
    line: Line<Lane>, queued: PerLane, settled: map<Id, Outcome>, next: Id)

  const Initial := State(
    Permits.Tally(0, map[], map[], map[]), PerLane(0, 0), map[],
    Line(map[], [], []), PerLane(0, 0), map[], 0)

  datatype Event =
    | Acquire(lane: Lane, user: Name, token: Name, aborted: bool, patient: bool)
    | Release(id: Id)
    | Leave(user: Name, id: Id, status: nat)

  function Min(a: nat, b: nat): nat { if a < b then a else b }

  // ---- The questions the scheduler asks ----

  predicate CanStart(c: Config, s: State, lane: Lane, user: Name, token: Name) {
    var perUser := if lane == Vision then Min(c.perUser, c.visionPerUser) else c.perUser;
    var laneUserActive := if lane == Vision then Count(s.vision, user) else Count(s.tally.byUser, user);
    && s.tally.active < c.maxConcurrent
    && s.busy.Of(lane) < c.laneLimits.Of(lane)
    && Count(s.tally.byUser, user) < c.perUser
    && laneUserActive < perUser
    && Count(s.tally.byToken, token) < c.perToken
  }

  function Inflight(s: State, user: Name): nat {
    Count(s.tally.byUser, user) + |Queue(s.line, user)|
  }

  function VisionInflight(s: State, user: Name): nat {
    Count(s.vision, user) + InLane(Queue(s.line, user), Vision)
  }

  predicate InflightFull(c: Config, s: State, lane: Lane, user: Name) {
    || Inflight(s, user) >= c.maxInflight
    || (lane == Vision && VisionInflight(s, user) >= c.visionMaxInflight)
  }

  predicate EntryCanStart(c: Config, s: State, user: Name, w: Request) {
    CanStart(c, s, w.lane, user, w.token)
  }

  /** The first request of a queue, from `from` on, that can start; else the queue's end. */
  function FirstEntry(c: Config, s: State, user: Name, q: seq<Request>, from: nat := 0): (i: nat)
    requires from <= |q|
    ensures from <= i <= |q|
    ensures forall j :: from <= j < i ==> !EntryCanStart(c, s, user, q[j])
    ensures i < |q| ==> EntryCanStart(c, s, user, q[i])
    decreases |q| - from
  {
    if from == |q| || EntryCanStart(c, s, user, q[from]) then from else FirstEntry(c, s, user, q, from + 1)
  }

  /** Some request of the k-th user in line can start. */
  predicate UserCanStart(c: Config, s: State, k: nat)
    requires k < |s.line.waiting|
  {
    var q := Queue(s.line, s.line.waiting[k]);
    FirstEntry(c, s, s.line.waiting[k], q) < |q|
  }

  function First(c: Config, s: State, from: nat := 0): (k: nat)
    requires from <= |s.line.waiting|
    ensures from <= k <= |s.line.waiting|
    ensures forall j :: from <= j < k ==> !UserCanStart(c, s, j)
    ensures k < |s.line.waiting| ==> UserCanStart(c, s, k)
    decreases |s.line.waiting| - from
  {
    if from == |s.line.waiting| || UserCanStart(c, s, from) then from else First(c, s, from + 1)
  }

  /** No waiter at all can start. */
  predicate Quiescent(c: Config, s: State) { First(c, s) == |s.line.waiting| }

  // ---- The steps ----

  function Settle(s: State, o: Outcome): State {
    s.(settled := s.settled[s.next := o], next := s.next + 1)
  }

  function Hold(s: State, id: Id, lane: Lane, user: Name, token: Name): State {
    s.(tally := Permits.Grant(s.tally, id, Permits.Holder(user, token, lane)),
       busy := s.busy.Up(lane),
       vision := if lane == Vision then Inc(s.vision, user) else s.vision)
  }

  function DirectGrant(s: State, lane: Lane, user: Name, token: Name): State {
    Settle(Hold(s, s.next, lane, user, token), Granted)
  }

  function Arrive(s: State, lane: Lane, user: Name, token: Name): State {
    s.(line := Enqueue(s.line, Waiter(s.next, user, token, lane)), queued := s.queued.Up(lane), next := s.next + 1)
  }

  function GrantAt(s: State, k: nat, i: nat): State
    requires k < |s.line.waiting| && i < |Queue(s.line, s.line.waiting[k])|
  {
    var w := Queue(s.line, s.line.waiting[k])[i];
    Hold(s, w.id, w.lane, s.line.waiting[k], w.token).(
      line := ServeAt(s.line, k, i), queued := s.queued.Down(w.lane), settled := s.settled[w.id := Granted])
  }

  /** The grant that the next pass of `drain` makes. */
  function GrantNext(c: Config, s: State): State
    requires !Quiescent(c, s)
  {
    var k := First(c, s);
    GrantAt(s, k, FirstEntry(c, s, s.line.waiting[k], Queue(s.line, s.line.waiting[k])))
  }

  function Drain(c: Config, s: State): State
    decreases c.maxConcurrent - s.tally.active
  {
    if Quiescent(c, s) then s else Drain(c, GrantNext(c, s))
  }

  /** A waiter leaves the line, its promise rejected. */
  function Depart(s: State, user: Name, i: nat, status: nat): State
    requires i < |Queue(s.line, user)|
  {
    var w := Queue(s.line, user)[i];
    s.(line := Remove(s.line, user, i), queued := s.queued.Down(w.lane), settled := s.settled[w.id := Rejected(status)])
  }

  function Free(s: State, id: Id): State
    requires id in s.tally.held
  {
    var h := s.tally.held[id];
    s.(tally := Permits.Free(s.tally, id),
       busy := s.busy.Down(h.lane),
       vision := if h.lane == Vision then Dec(s.vision, h.user) else s.vision)
  }

  // ---- Displacement ----

  /** The tokens of the waiters of one lane, in the order in which the code meets them. */
  function TokensIn(q: seq<Request>, lane: Lane): seq<Name> {
    if q == [] then []
    else TokensIn(q[..|q| - 1], lane) + if q[|q| - 1].lane == lane then [q[|q| - 1].token] else []
  }

  function LaneTokens(line: Line<Lane>, users: seq<Name>, lane: Lane): seq<Name> {
    if users == [] then []
    else LaneTokens(line, users[..|users| - 1], lane) + TokensIn(Queue(line, users[|users| - 1]), lane)
  }

  /** The same tokens without repeats, each at its first place. */
  function Uniques(ts: seq<Name>): seq<Name> {
    if ts == [] then []
    else
      var us := Uniques(ts[..|ts| - 1]);
      if ts[|ts| - 1] in us then us else us + [ts[|ts| - 1]]
  }

  /** How willing a token is to give up one of its seats among the waiting tokens `ts`. */
  function Score(c: Config, byToken: Counter, ts: seq<Name>, token: Name): nat {
    var seats := multiset(ts)[token];
    if seats > 1 then 2 + seats else if Count(byToken, token) >= c.perToken then 1 else 0
  }

  datatype Donor = Donor(token: Name, score: nat)

  /** The first candidate with the strictly highest positive score. */
  function BestDonor(c: Config, byToken: Counter, ts: seq<Name>, candidates: seq<Name>): Donor {
    if candidates == [] then Donor(0, 0)
    else
      var best := BestDonor(c, byToken, ts, candidates[..|candidates| - 1]);
      var t := candidates[|candidates| - 1];
      var score := Score(c, byToken, ts, t);
      if score > best.score then Donor(t, score) else best
  }

  /** The last waiter of a queue in this lane with this token; else the queue's length. */
  function LastOf(q: seq<Request>, lane: Lane, token: Name, upTo: nat): (i: nat)
    requires upTo <= |q|
    ensures i < upTo || i == |q|
    ensures i < |q| ==> q[i].lane == lane && q[i].token == token
    ensures forall j :: (if i == |q| then 0 else i + 1) <= j < upTo ==> !(q[j].lane == lane && q[j].token == token)
  {
    if upTo == 0 then |q|
    else if q[upTo - 1].lane == lane && q[upTo - 1].token == token then upTo - 1
    else LastOf(q, lane, token, upTo - 1)
  }

  datatype Seat = NoSeat | Seat(user: Name, index: nat)

  /** The newest waiter with this token of the first user that has one. */
  function SeatOf(line: Line<Lane>, users: seq<Name>, lane: Lane, token: Name): Seat {
    if users == [] then NoSeat
    else
      var q := Queue(line, users[0]);
      var i := LastOf(q, lane, token, |q|);
      if i < |q| then Seat(users[0], i) else SeatOf(line, users[1..], lane, token)
  }

  /** The waiter that a newcomer of `token` may displace from the full lane. */
  function Displaced(c: Config, s: State, lane: Lane, token: Name): Seat {
    var ts := LaneTokens(s.line, s.line.order, lane);
    var best := BestDonor(c, s.tally.byToken, ts, Uniques(ts));
    if Count(s.tally.byToken, token) >= c.perToken || multiset(ts)[token] > 0 || best.token == 0 then NoSeat
    else SeatOf(s.line, s.line.order, lane, best.token)
  }

  // ---- The events ----

  function AcquireStep(c: Config, s: State, lane: Lane, user: Name, token: Name, aborted: bool, patient: bool): State {
    if aborted then Settle(s, Rejected(499))
    else if InflightFull(c, s, lane, user) then Settle(s, Rejected(429))
    else if s.line.waiting == [] && CanStart(c, s, lane, user, token) then DirectGrant(s, lane, user, token)
    else if !patient then Settle(s, Rejected(429))
    else WaitStep(c, s, lane, user, token)
  }

  function WaitStep(c: Config, s: State, lane: Lane, user: Name, token: Name): State {
    if s.queued.Of(lane) < c.laneQueueMax.Of(lane) then Drain(c, Arrive(s, lane, user, token))
    else
      var d := Drain(c, s);
      if Quiescent(c, d) && CanStart(c, d, lane, user, token) then DirectGrant(d, lane, user, token)
      else FullStep(c, d, lane, user, token)
  }

  /** What is left for a newcomer that finds its lane's queue full and cannot start. */
  function FullStep(c: Config, d: State, lane: Lane, user: Name, token: Name): State {
    if d.queued.Of(lane) < c.laneQueueMax.Of(lane) then Drain(c, Arrive(d, lane, user, token))
    else
      var seat := Displaced(c, d, lane, token);
      if seat.Seat? && seat.index < |Queue(d.line, seat.user)|
      then Drain(c, Arrive(Depart(d, seat.user, seat.index, 429), lane, user, token))
      else Settle(d, Rejected(429))
  }

  function ReleaseStep(c: Config, s: State, id: Id): State {
    if id in s.tally.held then Drain(c, Free(s, id)) else s
  }

  function LeaveStep(c: Config, s: State, user: Name, id: Id, status: nat): State {
    if IsPending(s.line, user, id)
    then Drain(c, Depart(s, user, Position(Queue(s.line, user), id), status))
    else s
  }

  function Step(c: Config, s: State, e: Event): State {
    match e
    case Acquire(lane, user, token, aborted, patient) => AcquireStep(c, s, lane, user, token, aborted, patient)
    case Release(id) => ReleaseStep(c, s, id)
    case Leave(user, id, status) => LeaveStep(c, s, user, id, status)
  }

  function Run(c: Config, s: State, events: seq<Event>): State
    decreases |events|
  {
    if events == [] then s
    else
      var last := |events| - 1;
      Step(c, Run(c, s, events[..last]), events[last])
  }
}
