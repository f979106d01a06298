/** Overtaking in MimoReservationScheduler: how often others are served from the queue of a
    lane before a user that could itself be served there. Unlike in the fair scheduler there
    is no bound by the user's place in line, since a grant of the other lane to a user behind
    it turns the line; what such turns cost is counted exactly. */
module MimoOvertaking {
  import opened Counters
  import opened WaitingLine
  import opened MimoScheduler
  import Permits

  /** The atomic changes that the events consist of. */
  datatype Micro =
    | Reply(status: nat)
    | Direct(lane: Lane, user: Name, token: Name)
    | Join(lane: Lane, user: Name, token: Name)
    | Serve
    | Quit(user: Name, index: nat, status: nat)
    | Return(id: Id)

  function MicroStep(c: Config, s: State, m: Micro): State {
    match m
    case Reply(status) => Settle(s, Rejected(status))
    case Direct(lane, user, token) => DirectGrant(s, lane, user, token)
    case Join(lane, user, token) => Arrive(s, lane, user, token)
    case Serve => if Quiescent(c, s) then s else GrantNext(c, s)
    case Quit(user, index, status) => if index < |Queue(s.line, user)| then Depart(s, user, index, status) else s
    case Return(id) => if id in s.tally.held then MimoScheduler.Free(s, id) else s
  }

  function MicroRun(c: Config, s: State, ms: seq<Micro>): State
    decreases |ms|
  {
    if ms == [] then s else MicroStep(c, MicroRun(c, s, ms[..|ms| - 1]), ms[|ms| - 1])
  }

  // ---- Every event is such a sequence of changes ----

  function DrainMicros(c: Config, s: State): seq<Micro>
    decreases c.maxConcurrent - s.tally.active
  {
    if Quiescent(c, s) then [] else [Serve] + DrainMicros(c, GrantNext(c, s))
  }

  function JoinMicros(c: Config, s: State, lane: Lane, user: Name, token: Name): seq<Micro> {
    [Join(lane, user, token)] + DrainMicros(c, Arrive(s, lane, user, token))
  }

  function FullMicros(c: Config, d: State, lane: Lane, user: Name, token: Name): seq<Micro> {
    if d.queued.Of(lane) < c.laneQueueMax.Of(lane) then JoinMicros(c, d, lane, user, token)
    else
      var seat := Displaced(c, d, lane, token);
      if seat.Seat? && seat.index < |Queue(d.line, seat.user)|
      then [Quit(seat.user, seat.index, 429)] + JoinMicros(c, Depart(d, seat.user, seat.index, 429), lane, user, token)
      else [Reply(429)]
  }

  function WaitMicros(c: Config, s: State, lane: Lane, user: Name, token: Name): seq<Micro> {
    if s.queued.Of(lane) < c.laneQueueMax.Of(lane) then JoinMicros(c, s, lane, user, token)
    else
      var d := Drain(c, s);
      DrainMicros(c, s)
      + if Quiescent(c, d) && CanStart(c, d, lane, user, token) then [Direct(lane, user, token)]
        else FullMicros(c, d, lane, user, token)
  }

  function Micros(c: Config, s: State, e: Event): seq<Micro> {
    match e
    case Acquire(lane, user, token, aborted, patient) =>
      if aborted then [Reply(499)]
      else if InflightFull(c, s, lane, user) then [Reply(429)]
      else if s.line.waiting == [] && CanStart(c, s, lane, user, token) then [Direct(lane, user, token)]
      else if !patient then [Reply(429)]
      else WaitMicros(c, s, lane, user, token)
    case Release(id) =>
      if id in s.tally.held then [Return(id)] + DrainMicros(c, MimoScheduler.Free(s, id)) else []
    case Leave(user, id, status) =>
      var i := Position(Queue(s.line, user), id);
      if IsPending(s.line, user, id) then [Quit(user, i, status)] + DrainMicros(c, Depart(s, user, i, status)) else []
  }

  lemma {:induction false} MicroRunAppend(c: Config, s: State, a: seq<Micro>, b: seq<Micro>)
    ensures MicroRun(c, s, a + b) == MicroRun(c, MicroRun(c, s, a), b)
    decreases |b|
  {
    hide MicroStep;
    if b == [] {
      assert a + b == a;
    } else {
      var last := |b| - 1;
      MicroRunAppend(c, s, a, b[..last]);
      assert (a + b)[..|a + b| - 1] == a + b[..last];
    }
  }

  lemma OneMicro(c: Config, s: State, m: Micro)
    ensures MicroRun(c, s, [m]) == MicroStep(c, s, m)
  {
    hide MicroStep;
    assert [m][..0] == [];
    assert MicroRun(c, s, []) == s;
  }

  lemma MicroRunFirst(c: Config, s: State, m: Micro, ms: seq<Micro>)
    ensures MicroRun(c, s, [m] + ms) == MicroRun(c, MicroStep(c, s, m), ms)
  {
    hide MicroStep, MicroRun;
    MicroRunAppend(c, s, [m], ms);
    OneMicro(c, s, m);
  }

  lemma {:induction false} DrainIsMicros(c: Config, s: State)
    ensures MicroRun(c, s, DrainMicros(c, s)) == Drain(c, s)
    decreases c.maxConcurrent - s.tally.active
  {
    if !Quiescent(c, s) {
      DrainIsMicros(c, GrantNext(c, s));
      MicroRunFirst(c, s, Serve, DrainMicros(c, GrantNext(c, s)));
    }
  }

  lemma JoinIsMicros(c: Config, s: State, lane: Lane, user: Name, token: Name)
    ensures MicroRun(c, s, JoinMicros(c, s, lane, user, token)) == Drain(c, Arrive(s, lane, user, token))
  {
    hide MicroRun, Drain, DrainMicros;
    DrainIsMicros(c, Arrive(s, lane, user, token));
    MicroRunFirst(c, s, Join(lane, user, token), DrainMicros(c, Arrive(s, lane, user, token)));
  }

  lemma FullIsMicros(c: Config, d: State, lane: Lane, user: Name, token: Name)
    ensures MicroRun(c, d, FullMicros(c, d, lane, user, token)) == FullStep(c, d, lane, user, token)
  {
    hide MicroRun, Drain, JoinMicros, Displaced, Depart;
    JoinIsMicros(c, d, lane, user, token);
    OneMicro(c, d, Reply(429));
    var seat := Displaced(c, d, lane, token);
    if seat.Seat? && seat.index < |Queue(d.line, seat.user)| {
      var t := Depart(d, seat.user, seat.index, 429);
      JoinIsMicros(c, t, lane, user, token);
      MicroRunFirst(c, d, Quit(seat.user, seat.index, 429), JoinMicros(c, t, lane, user, token));
    }
  }

  lemma WaitIsMicros(c: Config, s: State, lane: Lane, user: Name, token: Name)
    ensures MicroRun(c, s, WaitMicros(c, s, lane, user, token)) == WaitStep(c, s, lane, user, token)
  {
    hide MicroRun, Drain, DrainMicros, JoinMicros, FullMicros, FullStep, Quiescent, CanStart;
    JoinIsMicros(c, s, lane, user, token);
    DrainIsMicros(c, s);
    var d := Drain(c, s);
    OneMicro(c, d, Direct(lane, user, token));
    FullIsMicros(c, d, lane, user, token);
    MicroRunAppend(c, s, DrainMicros(c, s), [Direct(lane, user, token)]);
    MicroRunAppend(c, s, DrainMicros(c, s), FullMicros(c, d, lane, user, token));
  }

  lemma EventIsMicros(c: Config, s: State, e: Event)
    ensures MicroRun(c, s, Micros(c, s, e)) == Step(c, s, e)
  {
    hide MicroRun, Drain, DrainMicros, WaitMicros, WaitStep, CanStart, InflightFull, Depart;
    match e
    case Acquire(lane, user, token, aborted, patient) =>
      OneMicro(c, s, Reply(499));
      OneMicro(c, s, Reply(429));
      OneMicro(c, s, Direct(lane, user, token));
      WaitIsMicros(c, s, lane, user, token);
    case Release(id) =>
      NoMicros(c, s);
      if id in s.tally.held {
        DrainIsMicros(c, MimoScheduler.Free(s, id));
        MicroRunFirst(c, s, Return(id), DrainMicros(c, MimoScheduler.Free(s, id)));
      }
    case Leave(user, id, status) =>
      NoMicros(c, s);
      if IsPending(s.line, user, id) {
        var i := Position(Queue(s.line, user), id);
        DrainIsMicros(c, Depart(s, user, i, status));
        MicroRunFirst(c, s, Quit(user, i, status), DrainMicros(c, Depart(s, user, i, status)));
      }
  }

  lemma NoMicros(c: Config, s: State)
    ensures MicroRun(c, s, []) == s
  {
  }

  function RunMicros(c: Config, s: State, events: seq<Event>): seq<Micro>
    decreases |events|
  {
    if events == [] then []
    else
      var last := |events| - 1;
      RunMicros(c, s, events[..last]) + Micros(c, Run(c, s, events[..last]), events[last])
  }

  /** A run of events is the run of their changes, so what holds for all runs of changes
      holds for all runs of events, also in the middle of a drain. */
  lemma {:induction false} RunIsMicros(c: Config, s: State, events: seq<Event>)
    ensures MicroRun(c, s, RunMicros(c, s, events)) == Run(c, s, events)
    decreases |events|
  {
    hide Step, Micros;
    if events != [] {
      var last := |events| - 1;
      RunIsMicros(c, s, events[..last]);
      EventIsMicros(c, Run(c, s, events[..last]), events[last]);
      MicroRunAppend(c, s, RunMicros(c, s, events[..last]), Micros(c, Run(c, s, events[..last]), events[last]));
    }
  }

  // ---- Overtaking ----

  function Place(s: State, user: Name): nat { IndexOf(s.line.waiting, user) }

  /** The user's own limits leave room for its i-th request, and that waits for this lane. */
  predicate RoomFor(c: Config, s: State, user: Name, lane: Lane, i: nat) {
    && i < |Queue(s.line, user)| && Queue(s.line, user)[i].lane == lane
    && Count(s.tally.byUser, user) < c.perUser
    && (lane == Vision ==> Count(s.vision, user) < Min(c.perUser, c.visionPerUser))
    && Count(s.tally.byToken, Queue(s.line, user)[i].token) < c.perToken
  }

  ghost predicate HasRoom(c: Config, s: State, user: Name, lane: Lane) {
    user in s.line.waiting && exists i: nat :: RoomFor(c, s, user, lane, i)
  }

  predicate Grants(c: Config, s: State, m: Micro) { m == Serve && !Quiescent(c, s) }

  /** The request that the next grant from the queue serves. */
  function Next(c: Config, s: State): Request
    requires !Quiescent(c, s)
  {
    var user := s.line.waiting[First(c, s)];
    Queue(s.line, user)[FirstEntry(c, s, user, Queue(s.line, user))]
  }

  predicate GrantsTo(c: Config, s: State, m: Micro, user: Name) {
    Grants(c, s, m) && s.line.waiting[First(c, s)] == user
  }

  predicate GrantsIn(c: Config, s: State, m: Micro, lane: Lane) { Grants(c, s, m) && Next(c, s).lane == lane }

  /** How far a grant to a user behind turns this user back. */
  function Turn(c: Config, s: State, m: Micro, user: Name): nat {
    if Grants(c, s, m) && First(c, s) > Place(s, user) then |s.line.waiting| - First(c, s) - 1 else 0
  }

  /** Grants from the queue of this lane along a run of changes. */
  function GrantCount(c: Config, s: State, ms: seq<Micro>, lane: Lane): nat
    decreases |ms|
  {
    if ms == [] then 0
    else
      var last := |ms| - 1;
      GrantCount(c, s, ms[..last], lane) + if GrantsIn(c, MicroRun(c, s, ms[..last]), ms[last], lane) then 1 else 0
  }

  function TurnCount(c: Config, s: State, ms: seq<Micro>, user: Name): nat
    decreases |ms|
  {
    if ms == [] then 0
    else
      var last := |ms| - 1;
      TurnCount(c, s, ms[..last], user) + Turn(c, MicroRun(c, s, ms[..last]), ms[last], user)
  }

  lemma MicroKeepsLine(c: Config, s: State, m: Micro)
    requires WellQueued(s.line)
    ensures WellQueued(MicroStep(c, s, m).line)
  {
    hide WellQueued, Quiescent, First, FirstEntry;
    match m
    case Reply(_) =>
    case Direct(_, _, _) =>
    case Return(_) =>
    case Join(lane, user, token) => EnqueueKeepsLine(s.line, Waiter(s.next, user, token, lane));
    case Serve => if !Quiescent(c, s) { GrantKeepsLine(c, s); }
    case Quit(user, index, _) => if index < |Queue(s.line, user)| { RemoveKeepsLine(s.line, user, index); }
  }

  lemma GrantKeepsLine(c: Config, s: State)
    requires WellQueued(s.line) && !Quiescent(c, s)
    ensures WellQueued(GrantNext(c, s).line)
  {
    var k := First(c, s);
    hide WellQueued;
    ServeAtKeepsLine(s.line, k, FirstEntry(c, s, s.line.waiting[k], Queue(s.line, s.line.waiting[k])));
  }

  /** If a request of a lane is granted, every user with room in that lane could be served. */
  lemma RoomStarts(c: Config, s: State, user: Name, lane: Lane)
    requires !Quiescent(c, s) && Next(c, s).lane == lane && HasRoom(c, s, user, lane)
    ensures First(c, s) <= Place(s, user)
  {
    var i: nat :| RoomFor(c, s, user, lane, i);
    var q, p := Queue(s.line, user), Place(s, user);
    NextCanStart(c, s);
    assert EntryCanStart(c, s, user, q[i]);
    hide CanStart, IndexOf;
    assert UserCanStart(c, s, p);
  }

  lemma NextCanStart(c: Config, s: State)
    requires !Quiescent(c, s)
    ensures s.tally.active < c.maxConcurrent && s.busy.Of(Next(c, s).lane) < c.laneLimits.Of(Next(c, s).lane)
  {
    assert UserCanStart(c, s, First(c, s));
  }

  /** The line after a grant at place k: those behind it come first, then those before it. */
  lemma GrantTurns(c: Config, s: State)
    requires !Quiescent(c, s)
    ensures var k, v := First(c, s), s.line.waiting;
            v[k + 1..] + v[..k] <= GrantNext(c, s).line.waiting
  {
    hide First, FirstEntry, Quiescent, Permits.Grant, Drop;
  }

  lemma ServeMoves(c: Config, s: State, user: Name)
    requires !Quiescent(c, s) && user in s.line.waiting && s.line.waiting[First(c, s)] != user
    ensures var p, k := Place(s, user), First(c, s);
            Place(GrantNext(c, s), user) <= if k < p then p - 1 else p + (|s.line.waiting| - k - 1)
  {
    hide First, FirstEntry, GrantNext, IndexOf;
    GrantTurns(c, s);
    PlaceAfterTurn(s.line.waiting, First(c, s), Place(s, user), GrantNext(c, s).line.waiting);
  }

  lemma PlaceAfterTurn(v: seq<Name>, k: nat, p: nat, w: seq<Name>)
    requires k < |v| && p < |v| && k != p && v[k + 1..] + v[..k] <= w
    ensures IndexOf(w, v[p]) <= if k < p then p - 1 else p + (|v| - k - 1)
  {
    hide IndexOf;
    var turned, q := v[k + 1..] + v[..k], if k < p then p - k - 1 else |v| - k - 1 + p;
    assert w[q] == turned[q] == v[p];
    IndexAtMost(w, v[p], q);
  }

  /** A grant to another user moves a waiting user back if and only if that other user stands
      behind it and somebody still further behind: by as many places as follow. */
  lemma TurnedBackExactly(c: Config, s: State, user: Name)
    requires WellQueued(s.line) && !Quiescent(c, s) && user in s.line.waiting && s.line.waiting[First(c, s)] != user
    ensures Place(GrantNext(c, s), user) > Place(s, user) <==> Turn(c, s, Serve, user) > 0
    ensures Turn(c, s, Serve, user) > 0 ==>
              Place(GrantNext(c, s), user) == Place(s, user) + Turn(c, s, Serve, user)
  {
    hide First, FirstEntry, GrantNext, WellQueued, IndexOf, Distinct;
    ServeMoves(c, s, user);
    FirstIsOther(c, s, user);
    var p, k, v := Place(s, user), First(c, s), s.line.waiting;
    if k > p {
      GrantTurns(c, s);
      LineIsDistinct(s);
      TurnedPlace(v, k, p, GrantNext(c, s).line.waiting);
    }
  }

  lemma LineIsDistinct(s: State)
    requires WellQueued(s.line)
    ensures Distinct(s.line.waiting)
  {
  }

  lemma TurnedPlace(v: seq<Name>, k: nat, p: nat, w: seq<Name>)
    requires Distinct(v) && p < k < |v| && v[k + 1..] + v[..k] <= w
    ensures IndexOf(w, v[p]) == |v| - k - 1 + p
  {
    hide IndexOf;
    var turned, q := v[k + 1..] + v[..k], |v| - k - 1 + p;
    assert w[q] == turned[q] == v[p];
    IndexAtMost(w, v[p], q);
    forall j | 0 <= j < q ensures w[j] != v[p] {
      assert w[j] == turned[j] == if j < |v| - k - 1 then v[k + 1 + j] else v[j - (|v| - k - 1)];
    }
  }

  /** Nothing but such a grant moves a waiting user back. */
  lemma OthersNeverPush(c: Config, s: State, m: Micro, user: Name)
    requires Distinct(s.line.waiting) && !Grants(c, s, m)
    requires user in s.line.waiting && user in MicroStep(c, s, m).line.waiting
    ensures Place(MicroStep(c, s, m), user) <= Place(s, user)
  {
    hide Distinct, IndexOf, Quiescent, First, FirstEntry;
    var v, w := s.line.waiting, MicroStep(c, s, m).line.waiting;
    if m.Join? && w == v + [m.user] {
      assert w[Place(s, user)] == user;
      IndexAtMost(w, user, Place(s, user));
    } else if m.Quit? && w == Drop(v, m.user) {
      DropForgets(v, m.user);
      DropNeverPushes(v, m.user, user);
    }
  }

  /** While a user waits with room of its own in a lane and is not served, each grant from the
      queue of that lane costs it at least one place, and only grants of the other lane to
      users behind it give places back: so the grants of its lane to others are at most its
      place plus those turns. */
  lemma {:induction false} BoundedOvertaking(c: Config, s: State, ms: seq<Micro>, user: Name, lane: Lane)
    requires WellQueued(s.line)
    requires forall i :: 0 <= i <= |ms| ==> HasRoom(c, MicroRun(c, s, ms[..i]), user, lane)
    requires forall i :: 0 <= i < |ms| ==> !GrantsTo(c, MicroRun(c, s, ms[..i]), ms[i], user)
    ensures WellQueued(MicroRun(c, s, ms).line)
    ensures Place(MicroRun(c, s, ms), user) + GrantCount(c, s, ms, lane) <= Place(s, user) + TurnCount(c, s, ms, user)
    decreases |ms|
  {
    hide MicroStep, HasRoom, Place, Turn, GrantsIn, GrantsTo, WellQueued;
    if ms == [] {
      NoMicros(c, s);
    } else {
      var last := |ms| - 1;
      var before := ms[..last];
      forall i | 0 <= i <= |before| ensures ms[..i] == before[..i] { }
      assert before[..last] == before && ms[..|ms|] == ms;
      assert forall i :: 0 <= i <= |before| ==> HasRoom(c, MicroRun(c, s, ms[..i]), user, lane);
      BoundedOvertaking(c, s, before, user, lane);
      StepOvertakes(c, MicroRun(c, s, before), ms[last], user, lane);
    }
  }

  lemma StepOvertakes(c: Config, s: State, m: Micro, user: Name, lane: Lane)
    requires WellQueued(s.line) && HasRoom(c, s, user, lane) && !GrantsTo(c, s, m, user)
    requires HasRoom(c, MicroStep(c, s, m), user, lane)
    ensures WellQueued(MicroStep(c, s, m).line)
    ensures Place(MicroStep(c, s, m), user) + (if GrantsIn(c, s, m, lane) then 1 else 0)
         <= Place(s, user) + Turn(c, s, m, user)
  {
    MicroKeepsLine(c, s, m);
    hide First, Quiescent, GrantNext, IndexOf;
    if Grants(c, s, m) {
      ServeMoves(c, s, user);
      if Next(c, s).lane == lane { RoomStarts(c, s, user, lane); }
      FirstIsOther(c, s, user);
    } else {
      OthersNeverPush(c, s, m, user);
    }
  }

  lemma FirstIsOther(c: Config, s: State, user: Name)
    requires !Quiescent(c, s) && user in s.line.waiting && s.line.waiting[First(c, s)] != user
    ensures First(c, s) != Place(s, user)
  {
    hide First, Quiescent;
  }
}
