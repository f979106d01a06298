/** There is no bound by the place in line in the MiMo scheduler: a run in which a user that is
    first in line, and could use a slot of its lane as soon as one is free, is passed by any
    number of later requests of that lane. */
module MimoStarvation {
  import opened Counters
  import opened WaitingLine
  import opened MimoScheduler
  import opened MimoOvertaking
  import MimoTheorems
  import Permits

  const DUO := Config(2, PerLane(1, 1), 9, 9, 9, PerLane(9, 9), 9, 9)

  /** User 1 waits for vision, user 2 works in media, user 3 in vision; each has a token of
      its own. */
  function A(id: Id): Request { Waiter(id, 1, 1, Vision) }

  function B(id: Id): Request { Waiter(id, 2, 2, Media) }

  function D(id: Id): Request { Waiter(id, 3, 3, Vision) }

  const MORE_MEDIA := Acquire(Media, 2, 2, false, true)
  const MORE_VISION := Acquire(Vision, 3, 3, false, true)

  type Settled = map<Id, Outcome>

  /** Users 2 and 3 hold the permits m and v. */
  function Busy(m: Id, v: Id, line: Line<Lane>, queued: PerLane, settled: Settled, next: Id): State {
    State(
      Permits.Tally(2, map[2 := 1, 3 := 1], map[2 := 1, 3 := 1],
                    map[m := Permits.Holder(2, 2, Media), v := Permits.Holder(3, 3, Vision)]),
      PerLane(1, 1), map[3 := 1], line, queued, settled, next)
  }

  /** Only user 1 waits. */
  function Alone(a: Id, m: Id, v: Id, settled: Settled, next: Id): State {
    Busy(m, v, Line(map[1 := [A(a)]], [1], [1]), PerLane(0, 1), settled, next)
  }

  /** Users 2 and 3 wait behind it with more work. */
  function Trio(a: Id, m: Id, v: Id, b: Id, d: Id, settled: Settled, next: Id): State {
    Busy(m, v, Line(map[1 := [A(a)], 2 := [B(b)], 3 := [D(d)]], [1, 2, 3], [1, 2, 3]), PerLane(1, 2), settled, next)
  }

  lemma BusyIsQuiescent(s: State)
    requires s.busy == PerLane(1, 1)
    ensures Quiescent(DUO, s) && Drain(DUO, s) == s
  {
    MimoTheorems.QuiescentWhenNoneStarts(DUO, s);
  }

  // ---- Two more requests ----

  lemma Joins(s: State, lane: Lane, user: Name)
    requires s.busy == PerLane(1, 1) && s.line.waiting != [] && s.queued.Of(lane) < 9
    requires Inflight(s, user) < 9 && VisionInflight(s, user) < 9
    ensures Step(DUO, s, Acquire(lane, user, user, false, true)) == Arrive(s, lane, user, user)
  {
    hide Drain, Quiescent, Enqueue, InLane, Queue;
    BusyIsQuiescent(Arrive(s, lane, user, user));
  }

  function Pair(a: Id, m: Id, v: Id, b: Id, settled: Settled, next: Id): State {
    Busy(m, v, Line(map[1 := [A(a)], 2 := [B(b)]], [1, 2], [1, 2]), PerLane(1, 1), settled, next)
  }

  lemma MediaJoins(a: Id, m: Id, v: Id, settled: Settled, next: Id)
    requires m != v
    ensures Step(DUO, Alone(a, m, v, settled, next), MORE_MEDIA) == Pair(a, m, v, next, settled, next + 1)
  {
    var s := Alone(a, m, v, settled, next);
    assert InLane([], Vision) == 0;
    assert s.line.pending[2 := [B(next)]] == map[1 := [A(a)], 2 := [B(next)]];
    hide Step, InLane;
    Joins(s, Media, 2);
  }

  lemma VisionJoins(a: Id, m: Id, v: Id, b: Id, settled: Settled, next: Id)
    requires m != v
    ensures Step(DUO, Pair(a, m, v, b, settled, next), MORE_VISION) == Trio(a, m, v, b, next, settled, next + 1)
  {
    var s := Pair(a, m, v, b, settled, next);
    assert InLane([], Vision) == 0;
    assert s.line.pending[3 := [D(next)]] == map[1 := [A(a)], 2 := [B(b)], 3 := [D(next)]];
    hide Step, InLane;
    Joins(s, Vision, 3);
  }

  // ---- Two releases ----

  /** Media is free: user 1 cannot use it, user 2 can. */
  function MediaFree(a: Id, v: Id, b: Id, d: Id, settled: Settled, next: Id): State {
    State(
      Permits.Tally(1, map[3 := 1], map[3 := 1], map[v := Permits.Holder(3, 3, Vision)]),
      PerLane(0, 1), map[3 := 1],
      Line(map[1 := [A(a)], 2 := [B(b)], 3 := [D(d)]], [1, 2, 3], [1, 2, 3]), PerLane(1, 2), settled, next)
  }

  /** The grant to user 2 turned the line: user 3 is first now. */
  function LineTurned(a: Id, m: Id, v: Id, d: Id, settled: Settled, next: Id): State {
    Busy(m, v, Line(map[1 := [A(a)], 3 := [D(d)]], [1, 3], [3, 1]), PerLane(0, 2), settled, next)
  }

  /** Vision is free, and user 3 is in front. */
  function VisionFree(a: Id, m: Id, d: Id, settled: Settled, next: Id): State {
    State(
      Permits.Tally(1, map[2 := 1], map[2 := 1], map[m := Permits.Holder(2, 2, Media)]),
      PerLane(1, 0), map[],
      Line(map[1 := [A(a)], 3 := [D(d)]], [1, 3], [3, 1]), PerLane(0, 2), settled, next)
  }

  lemma MediaFrees(a: Id, m: Id, v: Id, b: Id, d: Id, settled: Settled, next: Id)
    requires m != v
    ensures MimoScheduler.Free(Trio(a, m, v, b, d, settled, next), m) == MediaFree(a, v, b, d, settled, next)
  {
    var s := Trio(a, m, v, b, d, settled, next);
    assert Dec(s.tally.byUser, 2) == map[3 := 1] && s.tally.held - {m} == map[v := Permits.Holder(3, 3, Vision)];
  }

  lemma VisionFrees(a: Id, m: Id, v: Id, d: Id, settled: Settled, next: Id)
    requires m != v
    ensures MimoScheduler.Free(LineTurned(a, m, v, d, settled, next), v) == VisionFree(a, m, d, settled, next)
  {
    var s := LineTurned(a, m, v, d, settled, next);
    assert Dec(s.tally.byUser, 3) == map[2 := 1] && s.tally.held - {v} == map[m := Permits.Holder(2, 2, Media)];
    assert Dec(s.vision, 3) == map[];
  }

  lemma FirstOf(s: State, k: nat)
    requires k < |s.line.waiting| && UserCanStart(DUO, s, k) && forall j :: 0 <= j < k ==> !UserCanStart(DUO, s, j)
    ensures First(DUO, s) == k && !Quiescent(DUO, s)
  {
    hide UserCanStart;
  }

  lemma SecondIsNext(a: Id, v: Id, b: Id, d: Id, settled: Settled, next: Id)
    ensures var s := MediaFree(a, v, b, d, settled, next);
            !Quiescent(DUO, s) && First(DUO, s) == 1 && FirstEntry(DUO, s, 2, [B(b)]) == 0
  {
    var s := MediaFree(a, v, b, d, settled, next);
    assert FirstEntry(DUO, s, 1, [A(a)]) == 1 && FirstEntry(DUO, s, 2, [B(b)]) == 0;
    assert !UserCanStart(DUO, s, 0) && UserCanStart(DUO, s, 1);
    hide Quiescent, First, UserCanStart;
    FirstOf(s, 1);
  }

  lemma SecondLeaves(w: Request)
    ensures Without([w], 0) == [] && Drop([1, 2, 3], 2) == [1, 3] && [1, 2, 3][2..] + [1, 2, 3][..1] == [3, 1]
  {
    assert IndexOf([1, 2, 3], 2) == 1;
  }

  lemma MediaGrant(a: Id, v: Id, b: Id, d: Id, settled: Settled, next: Id)
    requires b != v
    ensures var s := MediaFree(a, v, b, d, settled, next);
            !Quiescent(DUO, s) && GrantNext(DUO, s) == LineTurned(a, b, v, d, settled[b := Granted], next)
  {
    var s := MediaFree(a, v, b, d, settled, next);
    SecondIsNext(a, v, b, d, settled, next);
    hide First, FirstEntry, Quiescent, Drop, Without;
    SecondLeaves(B(b));
    assert Queue(s.line, 2) == [B(b)];
    assert s.line.pending - {2} == map[1 := [A(a)], 3 := [D(d)]];
    assert Inc(s.tally.byUser, 2) == map[2 := 1, 3 := 1];
    assert s.tally.held[b := Permits.Holder(2, 2, Media)]
        == map[b := Permits.Holder(2, 2, Media), v := Permits.Holder(3, 3, Vision)];
  }

  lemma FirstIsNext(a: Id, m: Id, d: Id, settled: Settled, next: Id)
    ensures var s := VisionFree(a, m, d, settled, next);
            !Quiescent(DUO, s) && First(DUO, s) == 0 && FirstEntry(DUO, s, 3, [D(d)]) == 0
  {
    var s := VisionFree(a, m, d, settled, next);
    assert FirstEntry(DUO, s, 3, [D(d)]) == 0;
    assert UserCanStart(DUO, s, 0);
    hide Quiescent, First, UserCanStart;
    FirstOf(s, 0);
  }

  lemma VisionGrant(a: Id, m: Id, d: Id, settled: Settled, next: Id)
    requires m != d
    ensures var s := VisionFree(a, m, d, settled, next);
            !Quiescent(DUO, s) && GrantNext(DUO, s) == Alone(a, m, d, settled[d := Granted], next)
  {
    var s := VisionFree(a, m, d, settled, next);
    FirstIsNext(a, m, d, settled, next);
    hide First, FirstEntry, Quiescent;
    assert Queue(s.line, 3) == [D(d)] && Without([D(d)], 0) == [];
    assert Drop([1, 3], 3) == [1] by { assert IndexOf([1, 3], 3) == 1; }
    assert [3, 1][1..] + [3, 1][..0] == [1];
    assert s.line.pending - {3} == map[1 := [A(a)]];
    assert Inc(s.tally.byUser, 3) == map[2 := 1, 3 := 1] && Inc(s.vision, 3) == map[3 := 1];
    assert s.tally.held[d := Permits.Holder(3, 3, Vision)]
        == map[m := Permits.Holder(2, 2, Media), d := Permits.Holder(3, 3, Vision)];
  }

  lemma DrainsOnce(s: State)
    requires !Quiescent(DUO, s) && GrantNext(DUO, s).busy == PerLane(1, 1)
    ensures Drain(DUO, s) == GrantNext(DUO, s)
  {
    hide Quiescent, GrantNext;
    BusyIsQuiescent(GrantNext(DUO, s));
  }

  lemma MediaReleased(a: Id, m: Id, v: Id, b: Id, d: Id, settled: Settled, next: Id)
    requires m != v && b != v
    ensures Step(DUO, Trio(a, m, v, b, d, settled, next), Release(m)) ==
              LineTurned(a, b, v, d, settled[b := Granted], next)
  {
    hide Drain, GrantNext, Quiescent, Free;
    MediaFrees(a, m, v, b, d, settled, next);
    MediaGrant(a, v, b, d, settled, next);
    DrainsOnce(MediaFree(a, v, b, d, settled, next));
  }

  lemma VisionReleased(a: Id, m: Id, v: Id, d: Id, settled: Settled, next: Id)
    requires m != v && m != d
    ensures Step(DUO, LineTurned(a, m, v, d, settled, next), Release(v)) == Alone(a, m, d, settled[d := Granted], next)
  {
    hide Drain, GrantNext, Quiescent, Free;
    VisionFrees(a, m, v, d, settled, next);
    VisionGrant(a, m, d, settled, next);
    DrainsOnce(VisionFree(a, m, d, settled, next));
  }

  // ---- Round after round ----

  lemma RunMore(c: Config, events: seq<Event>, e: Event)
    ensures Run(c, Initial, events + [e]) == Step(c, Run(c, Initial, events), e)
  {
    hide Step;
    assert (events + [e])[..|events|] == events;
  }

  function Opening(): seq<Event> { [MORE_MEDIA] + [MORE_VISION] + [Acquire(Vision, 1, 1, false, true)] }

  /** The permits that are held after n rounds, and the promises settled by then. */
  function MediaPermit(n: nat): Id { if n == 0 then 0 else 1 + 2 * n }

  function VisionPermit(n: nat): Id { if n == 0 then 1 else 2 + 2 * n }

  function Served(n: nat): Settled {
    if n == 0 then map[0 := Granted, 1 := Granted] else Served(n - 1)[1 + 2 * n := Granted][2 + 2 * n := Granted]
  }

  function Rounds(n: nat): seq<Event> {
    if n == 0 then Opening() + [MORE_MEDIA] + [MORE_VISION]
    else Rounds(n - 1) + [Release(MediaPermit(n - 1))] + [Release(VisionPermit(n - 1))] + [MORE_MEDIA] + [MORE_VISION]
  }

  function After(n: nat): State {
    Trio(2, MediaPermit(n), VisionPermit(n), 3 + 2 * n, 4 + 2 * n, Served(n), 5 + 2 * n)
  }

  // ---- The opening ----

  /** User 2 holds a permit of media, nobody waits. */
  function One(): State {
    State(
      Permits.Tally(1, map[2 := 1], map[2 := 1], map[0 := Permits.Holder(2, 2, Media)]), PerLane(1, 0), map[],
      Line(map[], [], []), PerLane(0, 0), map[0 := Granted], 1)
  }

  function Two(): State { Busy(0, 1, Line(map[], [], []), PerLane(0, 0), map[0 := Granted, 1 := Granted], 2) }

  lemma EmptyInLane()
    ensures InLane<Lane>([], Vision) == 0
  {
  }

  /** With an empty line a request that can start is granted at once. */
  lemma Starts(s: State, lane: Lane, user: Name)
    requires s.line.waiting == [] && CanStart(DUO, s, lane, user, user)
    requires Inflight(s, user) < 9 && VisionInflight(s, user) < 9
    ensures Step(DUO, s, Acquire(lane, user, user, false, true)) == DirectGrant(s, lane, user, user)
  {
    hide WaitStep, CanStart, Inflight, VisionInflight, DirectGrant;
  }

  lemma FirstOpens()
    ensures Step(DUO, Initial, MORE_MEDIA) == One()
  {
    hide Step, InLane;
    EmptyInLane();
    Starts(Initial, Media, 2);
    assert Inc(map[], 2) == map[2 := 1];
  }

  lemma SecondOpens()
    ensures Step(DUO, One(), MORE_VISION) == Two()
  {
    hide Step, InLane;
    EmptyInLane();
    Starts(One(), Vision, 3);
    assert Inc(map[2 := 1], 3) == map[2 := 1, 3 := 1] && Inc(map[], 3) == map[3 := 1];
    assert One().settled[1 := Granted] == map[0 := Granted, 1 := Granted];
    assert One().tally.held[1 := Permits.Holder(3, 3, Vision)]
        == map[0 := Permits.Holder(2, 2, Media), 1 := Permits.Holder(3, 3, Vision)];
  }

  lemma ThirdOpens()
    ensures Step(DUO, Two(), Acquire(Vision, 1, 1, false, true)) ==
              Alone(2, 0, 1, map[0 := Granted, 1 := Granted], 3)
  {
    hide Drain, Quiescent, InLane, Enqueue;
    EmptyInLane();
    Waits(Two());
  }

  /** The first waiter of a full lane. */
  lemma Waits(s: State)
    requires s.busy == PerLane(1, 1) && s.queued.vision == 0 && s.line == Line(map[], [], [])
    requires Inflight(s, 1) < 9 && VisionInflight(s, 1) < 9
    ensures Step(DUO, s, Acquire(Vision, 1, 1, false, true)) ==
              s.(line := Line(map[1 := [A(s.next)]], [1], [1]), queued := s.queued.Up(Vision), next := s.next + 1)
  {
    hide Drain, Quiescent, InLane;
    BusyIsQuiescent(Arrive(s, Vision, 1, 1));
    assert [] + [1] == [1];
    assert map[][1 := [A(s.next)]] == map[1 := [A(s.next)]];
  }

  lemma Opened()
    ensures Run(DUO, Initial, Opening()) == Alone(2, 0, 1, map[0 := Granted, 1 := Granted], 3)
  {
    hide Step, Run, One, Two, Alone;
    FirstOpens();
    SecondOpens();
    ThirdOpens();
    NothingRun(DUO);
    RunMore(DUO, [], MORE_MEDIA);
    assert [] + [MORE_MEDIA] == [MORE_MEDIA];
    RunMore(DUO, [MORE_MEDIA], MORE_VISION);
    RunMore(DUO, [MORE_MEDIA] + [MORE_VISION], Acquire(Vision, 1, 1, false, true));
  }

  lemma NothingRun(c: Config)
    ensures Run(c, Initial, []) == Initial
  {
  }

  // ---- Any number of rounds ----

  lemma {:induction false} RoundsRun(n: nat)
    ensures Run(DUO, Initial, Rounds(n)) == After(n)
  {
    hide Step, Run, Opening;
    if n == 0 {
      Opened();
      var settled: Settled := map[0 := Granted, 1 := Granted];
      MediaJoins(2, 0, 1, settled, 3);
      VisionJoins(2, 0, 1, 3, settled, 4);
      RunMore(DUO, Opening(), MORE_MEDIA);
      RunMore(DUO, Opening() + [MORE_MEDIA], MORE_VISION);
    } else {
      RoundsRun(n - 1);
      RoundRuns(n);
    }
  }

  lemma RoundRuns(n: nat)
    requires n > 0 && Run(DUO, Initial, Rounds(n - 1)) == After(n - 1)
    ensures Run(DUO, Initial, Rounds(n)) == After(n)
  {
    hide Step, Run, Trio, LineTurned, Alone, Pair, Rounds;
    var m, v, b, d, next := MediaPermit(n - 1), VisionPermit(n - 1), 1 + 2 * n, 2 + 2 * n, 3 + 2 * n;
    var es, settled := Rounds(n - 1), Served(n - 1);
    MediaReleased(2, m, v, b, d, settled, next);
    VisionReleased(2, b, v, d, settled[b := Granted], next);
    MediaJoins(2, b, d, Served(n), next);
    VisionJoins(2, b, d, next, Served(n), next + 1);
    RunMore(DUO, es, Release(m));
    RunMore(DUO, es + [Release(m)], Release(v));
    RunMore(DUO, es + [Release(m)] + [Release(v)], MORE_MEDIA);
    RunMore(DUO, es + [Release(m)] + [Release(v)] + [MORE_MEDIA], MORE_VISION);
    RoundsAre(n);
  }

  lemma RoundsAre(n: nat)
    requires n > 0
    ensures Rounds(n) == Rounds(n - 1) + [Release(MediaPermit(n - 1))] + [Release(VisionPermit(n - 1))]
                         + [MORE_MEDIA] + [MORE_VISION]
  {
  }

  lemma {:induction false} ServedAll(n: nat)
    ensures 2 !in Served(n)
    ensures forall id: Id :: 3 <= id < 3 + 2 * n ==> id in Served(n) && Served(n)[id] == Granted
    ensures forall id :: id in Served(n) ==> id < 3 + 2 * n
  {
    if n > 0 { ServedAll(n - 1); }
  }

  /** Whatever n: there is a run of a scheduler with a valid configuration in which request 2
      is first in line with room of its own, and still waits after 2n later requests, half of
      them of its own lane, were granted from the queue. */
  lemma Starvation(n: nat)
    ensures var s := Run(DUO, Initial, Rounds(n));
            && ValidConfig(DUO)
            && 2 !in s.settled && Queue(s.line, 1) == [A(2)] && Place(s, 1) == 0 && HasRoom(DUO, s, 1, Vision)
            && (forall id: Id :: 3 <= id < 3 + 2 * n ==> id in s.settled && s.settled[id] == Granted)
            && (forall k :: 0 < k <= n ==> HeldInLane(Run(DUO, Initial, Rounds(k)), 2 + 2 * k, Vision))
  {
    ServedAll(n);
    RoundsRun(n);
    RoomInRound(n);
    forall k: nat | 0 < k <= n ensures HeldInLane(Run(DUO, Initial, Rounds(k)), 2 + 2 * k, Vision) {
      RoundsRun(k);
      HeldInRound(k);
    }
    hide Run, Rounds, HasRoom, HeldInLane;
  }

  predicate HeldInLane(s: State, id: Id, lane: Lane) { id in s.tally.held && s.tally.held[id].lane == lane }

  lemma HeldInRound(k: nat)
    requires k > 0
    ensures HeldInLane(After(k), 2 + 2 * k, Vision)
  {
  }

  lemma RoomInRound(n: nat)
    ensures var s := After(n); Place(s, 1) == 0 && HasRoom(DUO, s, 1, Vision) && Queue(s.line, 1) == [A(2)]
  {
    assert RoomFor(DUO, After(n), 1, Vision, 0);
  }
}
