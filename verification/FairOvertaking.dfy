/** Bounded overtaking in FairCapacityScheduler: how often others are served from the queue
    before a user that could itself be served. */
module FairOvertaking {
  import opened Counters
  import opened WaitingLine
  import opened FairScheduler

  /** The atomic changes that the events consist of. */
  datatype Micro =
    | Reply(status: nat)
    | Direct(user: Name, token: Name)
    | Join(user: Name, token: Name)
    | Serve
    | Quit(user: Name, id: Id, status: nat)
    | Return(id: Id)

  function MicroStep(c: Config, s: State, m: Micro): State {
    match m
    case Reply(status) => Settle(s, Rejected(status))
    case Direct(user, token) => DirectGrant(s, user, token)
    case Join(user, token) => Arrive(s, user, token)
    case Serve => if Quiescent(c, s) then s else GrantAt(s, First(c, s))
    case Quit(user, id, status) => if IsPending(s.line, user, id) then Depart(s, user, id, status) else s
    case Return(id) => if id in s.tally.held then Free(s, id) else s
  }

  function MicroRun(c: Config, s: State, ms: seq<Micro>): State
    decreases |ms|
  {
    if ms == [] then s else MicroStep(c, MicroRun(c, s, ms[..|ms| - 1]), ms[|ms| - 1])
  }

  // ---- Every event is such a sequence of changes ----

  function DrainMicros(c: Config, s: State): seq<Micro>
    decreases c.maxConcurrent - s.tally.active
  {
    if Quiescent(c, s) then [] else [Serve] + DrainMicros(c, GrantAt(s, First(c, s)))
  }

  ghost function Micros(c: Config, s: State, e: Event): seq<Micro> {
    match e
    case Acquire(user, token, aborted, patient) =>
      if aborted then [Reply(499)]
      else if c.maxInflight.Reached(Inflight(s, user)) then [Reply(429)]
      else if s.line.waiting == [] && CanStart(c, s, user, token) then [Direct(user, token)]
      else if !patient then [Reply(429)]
      else if c.queueMax.Reached(Queued(s.line)) then
        var d := Drain(c, s);
        DrainMicros(c, s) + [if Quiescent(c, d) && CanStart(c, d, user, token) then Direct(user, token) else Reply(429)]
      else [Join(user, token)] + DrainMicros(c, Arrive(s, user, token))
    case Release(id) =>
      if id in s.tally.held then [Return(id)] + DrainMicros(c, Free(s, id)) else []
    case Leave(user, id, status) =>
      if IsPending(s.line, user, id) then [Quit(user, id, status)] + DrainMicros(c, Depart(s, user, id, status)) else []
  }

  lemma {:induction false} MicroRunAppend(c: Config, s: State, a: seq<Micro>, b: seq<Micro>)
    ensures MicroRun(c, s, a + b) == MicroRun(c, MicroRun(c, s, a), b)
    decreases |b|
  {
    if b == [] {
      assert a + b == a;
    } else {
      var last := |b| - 1;
      MicroRunAppend(c, s, a, b[..last]);
      assert (a + b)[..|a + b| - 1] == a + b[..last];
    }
  }

  lemma MicroRunFirst(c: Config, s: State, m: Micro, ms: seq<Micro>)
    ensures MicroRun(c, s, [m] + ms) == MicroRun(c, MicroStep(c, s, m), ms)
  {
    MicroRunAppend(c, s, [m], ms);
    assert MicroRun(c, s, [m]) == MicroStep(c, MicroRun(c, s, []), m);
  }

  lemma {:induction false} DrainIsMicros(c: Config, s: State)
    ensures MicroRun(c, s, DrainMicros(c, s)) == Drain(c, s)
    decreases c.maxConcurrent - s.tally.active
  {
    if !Quiescent(c, s) {
      var t := GrantAt(s, First(c, s));
      DrainIsMicros(c, t);
      MicroRunFirst(c, s, Serve, DrainMicros(c, t));
    }
  }

  lemma EventIsMicros(c: Config, s: State, e: Event)
    ensures MicroRun(c, s, Micros(c, s, e)) == Step(c, s, e)
  {
    hide Quiescent, CanStart, Drain, DrainMicros;
    match e
    case Acquire(user, token, aborted, patient) => AcquireIsMicros(c, s, user, token, aborted, patient);
    case Release(id) =>
      if id in s.tally.held {
        DrainIsMicros(c, Free(s, id));
        MicroRunFirst(c, s, Return(id), DrainMicros(c, Free(s, id)));
      }
    case Leave(user, id, status) =>
      if IsPending(s.line, user, id) {
        var t := Depart(s, user, id, status);
        DrainIsMicros(c, t);
        MicroRunFirst(c, s, Quit(user, id, status), DrainMicros(c, t));
      }
  }

  lemma AcquireIsMicros(c: Config, s: State, user: Name, token: Name, aborted: bool, patient: bool)
    ensures var e := Acquire(user, token, aborted, patient); MicroRun(c, s, Micros(c, s, e)) == Step(c, s, e)
  {
    hide Quiescent, CanStart, Drain, DrainMicros, Queued, MicroRun;
    OneMicro(c, s, Reply(499));
    OneMicro(c, s, Reply(429));
    OneMicro(c, s, Direct(user, token));
    DrainIsMicros(c, s);
    var d := Drain(c, s);
    var last := if Quiescent(c, d) && CanStart(c, d, user, token) then Direct(user, token) else Reply(429);
    MicroRunAppend(c, s, DrainMicros(c, s), [last]);
    OneMicro(c, d, last);
    DrainIsMicros(c, Arrive(s, user, token));
    MicroRunFirst(c, s, Join(user, token), DrainMicros(c, Arrive(s, user, token)));
  }

  lemma OneMicro(c: Config, s: State, m: Micro)
    ensures MicroRun(c, s, [m]) == MicroStep(c, s, m)
  {
    hide MicroStep;
    assert [m][..0] == [];
    assert MicroRun(c, s, []) == s;
  }

  ghost function RunMicros(c: Config, s: State, events: seq<Event>): seq<Micro>
    decreases |events|
  {
    if events == [] then []
    else
      var last := |events| - 1;
      RunMicros(c, s, events[..last]) + Micros(c, Run(c, s, events[..last]), events[last])
  }

  /** A run of events is the run of their changes, so what holds for all runs of changes
      holds for all runs of events, also in the middle of a drain. */
  lemma {:induction false} RunIsMicros(c: Config, s: State, events: seq<Event>)
    ensures MicroRun(c, s, RunMicros(c, s, events)) == Run(c, s, events)
    decreases |events|
  {
    hide Step, Micros;
    if events != [] {
      var last := |events| - 1;
      RunIsMicros(c, s, events[..last]);
      EventIsMicros(c, Run(c, s, events[..last]), events[last]);
      MicroRunAppend(c, s, RunMicros(c, s, events[..last]), Micros(c, Run(c, s, events[..last]), events[last]));
    }
  }

  // ---- Overtaking ----

  function Place(s: State, user: Name): nat { IndexOf(s.line.waiting, user) }

  /** The user's own limits leave room for the head of its queue. */
  predicate HasRoom(c: Config, s: State, user: Name) {
    && user in s.line.waiting
    && Queue(s.line, user) != []
    && Count(s.tally.byUser, user) < c.perUser
    && Count(s.tally.byToken, Queue(s.line, user)[0].token) < c.perToken
  }

  predicate Grants(c: Config, s: State, m: Micro) { m == Serve && !Quiescent(c, s) }

  predicate GrantsTo(c: Config, s: State, m: Micro, user: Name) {
    Grants(c, s, m) && s.line.waiting[First(c, s)] == user
  }

  /** How many grants from the queue happen along a run of changes. */
  function GrantCount(c: Config, s: State, ms: seq<Micro>): nat
    decreases |ms|
  {
    if ms == [] then 0
    else
      var last := |ms| - 1;
      GrantCount(c, s, ms[..last]) + if Grants(c, MicroRun(c, s, ms[..last]), ms[last]) then 1 else 0
  }

  lemma IndexIsFirst<T>(xs: seq<T>, i: nat)
    requires i < |xs| && xs[i] !in xs[..i]
    ensures IndexOf(xs, xs[i]) == i
  {
  }

  lemma MicroKeepsLine(c: Config, s: State, m: Micro)
    requires WellQueued(s.line)
    ensures WellQueued(MicroStep(c, s, m).line)
  {
    hide WellQueued;
    match m
    case Reply(_) =>
    case Direct(_, _) =>
    case Return(_) =>
    case Join(user, token) => EnqueueKeepsLine(s.line, Waiter(s.next, user, token, ()));
    case Serve => if !Quiescent(c, s) { ServeAtKeepsLine(s.line, First(c, s), 0); }
    case Quit(user, id, _) =>
      if IsPending(s.line, user, id) { RemoveKeepsLine(s.line, user, Position(Queue(s.line, user), id)); }
  }

  /** A queue grant to another user moves a user that has room strictly forward. */
  lemma ServeMovesForward(c: Config, s: State, user: Name)
    requires !Quiescent(c, s) && HasRoom(c, s, user)
    requires s.line.waiting[First(c, s)] != user
    ensures Place(MicroStep(c, s, Serve), user) < Place(s, user)
  {
    var k, p := First(c, s), Place(s, user);
    assert HeadCanStart(c, s, p);
    hide IndexOf, First, HeadCanStart, CanStart, Permits.Grant, Drop;
    RotationMoves(s.line.waiting, k, p, MicroStep(c, s, Serve).line.waiting);
  }

  /** Whatever is appended to the turned line, who stood behind the k-th place moves forward. */
  lemma RotationMoves(v: seq<Name>, k: nat, p: nat, w: seq<Name>)
    requires k < p < |v| && v[k + 1..] + v[..k] <= w
    ensures IndexOf(w, v[p]) < p
  {
    hide IndexOf;
    assert w[p - k - 1] == (v[k + 1..] + v[..k])[p - k - 1] == v[p];
    IndexAtMost(w, v[p], p - k - 1);
  }

  /** Arrivals, replies, immediate grants, releases, timeouts and scans that grant nothing
      never move a waiting user back. */
  lemma OthersNeverPush(c: Config, s: State, m: Micro, user: Name)
    requires Distinct(s.line.waiting) && !Grants(c, s, m)
    requires user in s.line.waiting && user in MicroStep(c, s, m).line.waiting
    ensures Place(MicroStep(c, s, m), user) <= Place(s, user)
  {
    hide Distinct;
    var p := Place(s, user);
    var v, w := s.line.waiting, MicroStep(c, s, m).line.waiting;
    if m.Join? && w == v + [m.user] {
      assert w[p] == user && w[..p] == v[..p];
      IndexIsFirst(w, p);
    } else if m.Quit? && w == Drop(v, m.user) {
      DropForgets(v, m.user);
      DropNeverPushes(v, m.user, user);
    }
  }

  /** While a user waits with room of its own and is not served, each grant from the queue
      costs it at least one place; so at most `Place` such grants pass it. */
  lemma {:induction false} BoundedOvertaking(c: Config, s: State, ms: seq<Micro>, user: Name)
    requires WellQueued(s.line)
    requires forall i :: 0 <= i <= |ms| ==> HasRoom(c, MicroRun(c, s, ms[..i]), user)
    requires forall i :: 0 <= i < |ms| ==> !GrantsTo(c, MicroRun(c, s, ms[..i]), ms[i], user)
    ensures WellQueued(MicroRun(c, s, ms).line)
    ensures Place(MicroRun(c, s, ms), user) + GrantCount(c, s, ms) <= Place(s, user)
    decreases |ms|
  {
    if ms != [] {
      var last := |ms| - 1;
      var before := ms[..last];
      forall i | 0 <= i <= |before| ensures ms[..i] == before[..i] { }
      assert before[..last] == before && ms[..|ms|] == ms;
      assert forall i :: 0 <= i <= |before| ==> HasRoom(c, MicroRun(c, s, ms[..i]), user);
      BoundedOvertaking(c, s, before, user);
      var t := MicroRun(c, s, before);
      MicroKeepsLine(c, t, ms[last]);
      if Grants(c, t, ms[last]) {
        ServeMovesForward(c, t, user);
      } else {
        OthersNeverPush(c, t, ms[last], user);
      }
    }
  }
}
