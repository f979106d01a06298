/** The specification of FairCapacityScheduler (gateway/modelCapacity.ts): round-robin
    admission under a global, a per-user, a per-token and an inflight limit. Each public
    event is one atomic step of a value-level state machine. */
module FairScheduler {
  import opened Counters
  import opened WaitingLine
  import Permits

  datatype Config = Config(
    maxConcurrent: nat, perUser: nat, perToken: nat, queueMax: Bound, maxInflight: Bound)

  /** This scheduler has one class of work. */
  type Request = Waiter<()>

  datatype State = State(
    tally: Permits.Tally<()>, line: Line<()>, settled: map<Id, Outcome>, next: Id)

  const Initial := State(Permits.Tally(0, map[], map[], map[]), Line(map[], [], []), map[], 0)

  /** `next` names the request that arrives; Leave is a timeout or an abort of a waiter. */
  datatype Event =
    | Acquire(user: Name, token: Name, aborted: bool, patient: bool)
    | Release(id: Id)
    | Leave(user: Name, id: Id, status: nat)

  // ---- The questions the scheduler asks ----

  predicate CanStart(c: Config, s: State, user: Name, token: Name) {
    && s.tally.active < c.maxConcurrent
    && Count(s.tally.byUser, user) < c.perUser
    && Count(s.tally.byToken, token) < c.perToken
  }

  function Inflight(s: State, user: Name): nat {
    Count(s.tally.byUser, user) + |Queue(s.line, user)|
  }

  /** The head of the k-th user in line can start; no other request of that user is asked. */
  predicate HeadCanStart(c: Config, s: State, k: nat)
    requires k < |s.line.waiting|
  {
    var q := Queue(s.line, s.line.waiting[k]);
    q != [] && CanStart(c, s, s.line.waiting[k], q[0].token)
  }

  /** The first place in line, from `from` on, whose head can start; else the line's end. */
  function First(c: Config, s: State, from: nat := 0): (k: nat)
    requires from <= |s.line.waiting|
    ensures from <= k <= |s.line.waiting|
    ensures forall j :: from <= j < k ==> !HeadCanStart(c, s, j)
    ensures k < |s.line.waiting| ==> HeadCanStart(c, s, k)
    decreases |s.line.waiting| - from
  {
    if from == |s.line.waiting| || HeadCanStart(c, s, from) then from else First(c, s, from + 1)
  }

  /** No waiter that `drain` would consider can start. */
  predicate Quiescent(c: Config, s: State) { First(c, s) == |s.line.waiting| }

  // ---- The steps ----

  function Settle(s: State, o: Outcome): State {
    s.(settled := s.settled[s.next := o], next := s.next + 1)
  }

  function Hold(s: State, id: Id, user: Name, token: Name): State {
    s.(tally := Permits.Grant(s.tally, id, Permits.Holder(user, token, ())))
  }

  /** An immediate grant to the request that arrives. */
  function DirectGrant(s: State, user: Name, token: Name): State {
    Settle(Hold(s, s.next, user, token), Granted)
  }

  function Arrive(s: State, user: Name, token: Name): State {
    s.(line := Enqueue(s.line, Waiter(s.next, user, token, ())), next := s.next + 1)
  }

  function GrantAt(s: State, k: nat): State
    requires k < |s.line.waiting| && Queue(s.line, s.line.waiting[k]) != []
  {
    var w := Queue(s.line, s.line.waiting[k])[0];
    Hold(s, w.id, s.line.waiting[k], w.token).(line := ServeAt(s.line, k, 0), settled := s.settled[w.id := Granted])
  }

  /** Grants heads in line order until no head can start. */
  function Drain(c: Config, s: State): State
    decreases c.maxConcurrent - s.tally.active
  {
    if Quiescent(c, s) then s else Drain(c, GrantAt(s, First(c, s)))
  }

  function Depart(s: State, user: Name, id: Id, status: nat): State
    requires IsPending(s.line, user, id)
  {
    s.(line := Remove(s.line, user, Position(Queue(s.line, user), id)), settled := s.settled[id := Rejected(status)])
  }

  function Free(s: State, id: Id): State
    requires id in s.tally.held
  {
    s.(tally := Permits.Free(s.tally, id))
  }

  ghost function AcquireStep(c: Config, s: State, user: Name, token: Name, aborted: bool, patient: bool): State {
    if aborted then Settle(s, Rejected(499))
    else if c.maxInflight.Reached(Inflight(s, user)) then Settle(s, Rejected(429))
    else if s.line.waiting == [] && CanStart(c, s, user, token) then DirectGrant(s, user, token)
    else if !patient then Settle(s, Rejected(429))
    else WaitStep(c, s, user, token)
  }

  /** What happens to a request that is willing to wait. */
  ghost function WaitStep(c: Config, s: State, user: Name, token: Name): State {
    if c.queueMax.Reached(Queued(s.line)) then
      var d := Drain(c, s);
      if Quiescent(c, d) && CanStart(c, d, user, token) then DirectGrant(d, user, token)
      else Settle(d, Rejected(429))
    else Drain(c, Arrive(s, user, token))
  }

  function ReleaseStep(c: Config, s: State, id: Id): State {
    if id in s.tally.held then Drain(c, Free(s, id)) else s
  }

  function LeaveStep(c: Config, s: State, user: Name, id: Id, status: nat): State {
    if IsPending(s.line, user, id) then Drain(c, Depart(s, user, id, status)) else s
  }

  ghost function Step(c: Config, s: State, e: Event): State {
    match e
    case Acquire(user, token, aborted, patient) => AcquireStep(c, s, user, token, aborted, patient)
    case Release(id) => ReleaseStep(c, s, id)
    case Leave(user, id, status) => LeaveStep(c, s, user, id, status)
  }

  ghost function Run(c: Config, s: State, events: seq<Event>): State
    decreases |events|
  {
    if events == [] then s
    else
      var last := |events| - 1;
      Step(c, Run(c, s, events[..last]), events[last])
  }
}
