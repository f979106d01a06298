/** The displacement contract of MimoReservationScheduler: when a newcomer may take a seat
    in the full queue of a lane, who loses that seat, and that nothing else changes. */
module MimoDisplacement {
  import opened Counters
  import opened WaitingLine
  import opened MimoScheduler
  import opened MimoInvariant
  import MimoTheorems
  import Permits

  /** `w` waits in this lane. */
  ghost predicate WaitsIn(line: Line<Lane>, lane: Lane, w: Request) {
    exists u: Name :: u in line.pending && w in line.pending[u] && w.lane == lane
  }

  /** How many waiters of the lane carry the token. */
  function Seats(s: State, lane: Lane, token: Name): nat {
    multiset(LaneTokens(s.line, s.line.order, lane))[token]
  }

  // ---- The tokens that the code collects are those of the waiters ----

  lemma {:induction false} TokensAreWaiting(q: seq<Request>, lane: Lane, token: Name)
    ensures token in TokensIn(q, lane) <==> exists w :: w in q && w.lane == lane && w.token == token
  {
    if q != [] {
      var last := q[|q| - 1];
      TokensAreWaiting(q[..|q| - 1], lane, token);
      assert q == q[..|q| - 1] + [last];
      if token in TokensIn(q, lane) {
        if token in TokensIn(q[..|q| - 1], lane) {
          var w :| w in q[..|q| - 1] && w.lane == lane && w.token == token;
          assert w in q;
        } else {
          assert last in q;
        }
      }
    }
  }

  lemma {:induction false} LaneTokensAreWaiting(line: Line<Lane>, users: seq<Name>, lane: Lane, token: Name)
    ensures token in LaneTokens(line, users, lane) <==>
            exists u :: u in users && token in TokensIn(Queue(line, u), lane)
  {
    if users != [] {
      var last := users[|users| - 1];
      LaneTokensAreWaiting(line, users[..|users| - 1], lane, token);
      assert users == users[..|users| - 1] + [last];
    }
  }

  lemma {:induction false} UniquesKeepMembers(ts: seq<Name>)
    ensures forall t :: t in Uniques(ts) <==> t in ts
  {
    if ts != [] {
      UniquesKeepMembers(ts[..|ts| - 1]);
      assert ts == ts[..|ts| - 1] + [ts[|ts| - 1]];
    }
  }

  lemma SeatsAreWaiters(s: State, lane: Lane, token: Name)
    requires WellQueued(s.line)
    ensures Seats(s, lane, token) > 0 <==> exists w :: WaitsIn(s.line, lane, w) && w.token == token
  {
    var ts := LaneTokens(s.line, s.line.order, lane);
    LaneTokensAreWaiting(s.line, s.line.order, lane, token);
    if token in ts {
      var u :| u in s.line.order && token in TokensIn(Queue(s.line, u), lane);
      TokensAreWaiting(Queue(s.line, u), lane, token);
      var w :| w in Queue(s.line, u) && w.lane == lane && w.token == token;
      assert WaitsIn(s.line, lane, w);
    }
    if w :| WaitsIn(s.line, lane, w) && w.token == token {
      var u :| u in s.line.pending && w in s.line.pending[u];
      TokensAreWaiting(Queue(s.line, u), lane, token);
      assert u in s.line.order;
    }
  }

  // ---- The donor ----

  /** What a waiting token is worth as a donor: repeat seats first, then a blocked token. */
  function Worth(c: Config, s: State, lane: Lane, token: Name): nat {
    Score(c, s.tally.byToken, LaneTokens(s.line, s.line.order, lane), token)
  }

  lemma {:induction false} BestDonorIsBest(c: Config, byToken: Counter, ts: seq<Name>, candidates: seq<Name>)
    ensures var best := BestDonor(c, byToken, ts, candidates);
            && (forall t :: t in candidates ==> Score(c, byToken, ts, t) <= best.score)
            && (best.score > 0 ==> best.token in candidates && Score(c, byToken, ts, best.token) == best.score)
            && (best.score == 0 ==> best.token == 0)
  {
    if candidates != [] {
      BestDonorIsBest(c, byToken, ts, candidates[..|candidates| - 1]);
      assert candidates == candidates[..|candidates| - 1] + [candidates[|candidates| - 1]];
    }
  }

  lemma {:induction false} SeatFound(line: Line<Lane>, users: seq<Name>, lane: Lane, token: Name)
    requires exists u :: u in users && token in TokensIn(Queue(line, u), lane)
    ensures SeatOf(line, users, lane, token).Seat?
    decreases |users|
  {
    var q := Queue(line, users[0]);
    if LastOf(q, lane, token, |q|) == |q| {
      TokensAreWaiting(q, lane, token);
      assert users == [users[0]] + users[1..];
      SeatFound(line, users[1..], lane, token);
    }
  }

  /** A newcomer's token may claim a seat: it is below its active cap, it has nothing
      queued in the lane, and some waiter of the lane is worth displacing. */
  ghost predicate MayClaim(c: Config, s: State, lane: Lane, token: Name) {
    && Count(s.tally.byToken, token) < c.perToken
    && (forall w :: WaitsIn(s.line, lane, w) ==> w.token != token)
    && (exists w :: WaitsIn(s.line, lane, w) && Worth(c, s, lane, w.token) > 0)
  }

  /** The place of a token in the order in which the tokens of a lane are met. */
  function Met(s: State, lane: Lane, token: Name): nat {
    IndexOf(Uniques(LaneTokens(s.line, s.line.order, lane)), token)
  }

  /** The empty token string does not stand in the way: a waiter of another token is worth
      displacing, and more so than one of the empty token, or as much and met before it. */
  ghost predicate BeatsEmpty(c: Config, s: State, lane: Lane) {
    exists w :: WaitsIn(s.line, lane, w) && w.token != 0 && Worth(c, s, lane, w.token) > 0
                && (Seats(s, lane, 0) == 0 || Outranks(c, s, lane, w.token, 0))
  }

  predicate Outranks(c: Config, s: State, lane: Lane, a: Name, b: Name) {
    || Worth(c, s, lane, a) > Worth(c, s, lane, b)
    || (Worth(c, s, lane, a) == Worth(c, s, lane, b) && Met(s, lane, a) < Met(s, lane, b))
  }

  lemma {:induction false} BestDonorIsFirst(c: Config, byToken: Counter, ts: seq<Name>, candidates: seq<Name>)
    ensures var best := BestDonor(c, byToken, ts, candidates);
            best.score > 0 ==>
              forall t :: t in candidates[..IndexOf(candidates, best.token)] ==> Score(c, byToken, ts, t) < best.score
  {
    if candidates != [] {
      var n := |candidates| - 1;
      var before := candidates[..n];
      BestDonorIsFirst(c, byToken, ts, before);
      BestDonorIsBest(c, byToken, ts, before);
      var was, best := BestDonor(c, byToken, ts, before), BestDonor(c, byToken, ts, candidates);
      assert candidates == before + [candidates[n]];
      if best == was {
        if best.score > 0 { SameIndex(before, candidates[n], best.token); }
      } else {
        assert best.token !in before;
        IndexOfLast(before, candidates[n]);
      }
    }
  }

  lemma {:induction false} SameIndex(xs: seq<Name>, last: Name, x: Name)
    requires x in xs
    ensures IndexOf(xs + [last], x) == IndexOf(xs, x)
    ensures (xs + [last])[..IndexOf(xs, x)] == xs[..IndexOf(xs, x)]
  {
    if xs[0] != x {
      assert (xs + [last])[1..] == xs[1..] + [last];
      SameIndex(xs[1..], last, x);
    }
  }

  lemma {:induction false} IndexOfLast(xs: seq<Name>, x: Name)
    requires x !in xs
    ensures IndexOf(xs + [x], x) == |xs| && (xs + [x])[..|xs|] == xs
  {
    if xs != [] {
      assert (xs + [x])[1..] == xs[1..] + [x];
      IndexOfLast(xs[1..], x);
    }
  }

  /** The tokens before the best donor are worth less, so the others of its worth come later. */
  lemma BestOutranks(c: Config, s: State, lane: Lane, other: Name)
    requires var ts := LaneTokens(s.line, s.line.order, lane);
             var best := BestDonor(c, s.tally.byToken, ts, Uniques(ts));
             best.score > 0 && other in ts && other != best.token
    ensures var ts := LaneTokens(s.line, s.line.order, lane);
            Outranks(c, s, lane, BestDonor(c, s.tally.byToken, ts, Uniques(ts)).token, other)
  {
    var ts := LaneTokens(s.line, s.line.order, lane);
    var us := Uniques(ts);
    var best := BestDonor(c, s.tally.byToken, ts, us);
    BestDonorIsBest(c, s.tally.byToken, ts, us);
    BestDonorIsFirst(c, s.tally.byToken, ts, us);
    UniquesKeepMembers(ts);
    hide IndexOf, BestDonor, Uniques, Score;
    var i, j := IndexOf(us, best.token), IndexOf(us, other);
    if j < i {
      assert us[..i][j] == other;
    }
    assert us[i] == best.token && us[j] == other;
  }

  /** A seat is taken exactly when the token may claim one and the empty token, which counts
      as no donor, does not stand in the way. */
  lemma DisplacedExactly(c: Config, s: State, lane: Lane, token: Name)
    requires WellQueued(s.line)
    ensures Displaced(c, s, lane, token).Seat? <==> MayClaim(c, s, lane, token) && BeatsEmpty(c, s, lane)
  {
    hide WellQueued, WaitsIn, Uniques, BestDonor, SeatOf, Outranks, Met;
    var ts := LaneTokens(s.line, s.line.order, lane);
    var best := BestDonor(c, s.tally.byToken, ts, Uniques(ts));
    BestDonorIsBest(c, s.tally.byToken, ts, Uniques(ts));
    UniquesKeepMembers(ts);
    SeatsAreWaiters(s, lane, token);
    SeatsAreWaiters(s, lane, 0);
    SeatsAreWaiters(s, lane, best.token);
    if best.score > 0 {
      LaneTokensAreWaiting(s.line, s.line.order, lane, best.token);
      SeatFound(s.line, s.line.order, lane, best.token);
      if best.token != 0 && 0 in ts { BestOutranks(c, s, lane, 0); }
    }
    if w :| WaitsIn(s.line, lane, w) && w.token != 0 && Worth(c, s, lane, w.token) > 0
            && (Seats(s, lane, 0) == 0 || Outranks(c, s, lane, w.token, 0)) {
      SeatsAreWaiters(s, lane, w.token);
      if best.token == 0 {
        BestOutranks(c, s, lane, w.token);
        OutranksOneWay(c, s, lane, w.token, 0);
      }
    }
  }

  lemma OutranksOneWay(c: Config, s: State, lane: Lane, a: Name, b: Name)
    ensures !(Outranks(c, s, lane, a, b) && Outranks(c, s, lane, b, a))
  {
  }

  /** Without waiters of the empty token, a seat is taken exactly when it may be claimed. */
  lemma DisplacedWhenNamed(c: Config, s: State, lane: Lane, token: Name)
    requires WellQueued(s.line) && forall w :: WaitsIn(s.line, lane, w) ==> w.token != 0
    ensures Displaced(c, s, lane, token).Seat? <==> MayClaim(c, s, lane, token)
  {
    hide WellQueued, WaitsIn, Displaced, Outranks;
    DisplacedExactly(c, s, lane, token);
    SeatsAreWaiters(s, lane, 0);
  }

  // ---- The exception happens ----

  const SMALL := Config(2, PerLane(1, 1), 5, 5, 5, PerLane(2, 2), 5, 5)

  /** One user comes three times without a token: one request runs, two wait. */
  const NAMELESS := Acquire(Vision, 1, 0, false, true)

  function NamelessQueue(n: nat): seq<Request> {
    if n == 0 then [] else NamelessQueue(n - 1) + [Waiter(n, 1, 0, Vision)]
  }

  /** After the first request is granted and n more of them wait. */
  function NamelessState(n: nat): State {
    State(
      Permits.Tally(1, map[1 := 1], map[0 := 1], map[0 := Permits.Holder(1, 0, Vision)]), PerLane(0, 1), map[1 := 1],
      if n == 0 then Line(map[], [], []) else Line(map[1 := NamelessQueue(n)], [1], [1]),
      PerLane(0, n), map[0 := Granted], n + 1)
  }

  /** If all that waits waits for one lane, and that is full, nothing can start. */
  lemma FullLaneIsQuiescent(c: Config, s: State, lane: Lane)
    requires s.busy.Of(lane) >= c.laneLimits.Of(lane)
    requires forall u, j :: u in s.line.waiting && 0 <= j < |Queue(s.line, u)| ==> Queue(s.line, u)[j].lane == lane
    ensures Quiescent(c, s) && Drain(c, s) == s
  {
    hide Quiescent;
    MimoTheorems.QuiescentWhenNoneStarts(c, s);
    DrainOfQuiescent(c, s);
  }

  lemma NobodyInflight()
    ensures !InflightFull(SMALL, Initial, Vision, 1)
  {
    hide WaitStep, Quiescent, Drain;
    assert InLane([], Vision) == 0;
  }

  lemma NamelessRuns()
    ensures Step(SMALL, Initial, NAMELESS) == NamelessState(0)
  {
    hide WaitStep, Quiescent, Drain, InLane, InflightFull;
    NobodyInflight();
    assert Step(SMALL, Initial, NAMELESS) == DirectGrant(Initial, Vision, 1, 0);
    assert Inc(map[], 1) == map[1 := 1] && Inc(map[], 0) == map[0 := 1];
  }

  lemma NamelessWaits(n: nat)
    requires n < 2
    ensures Step(SMALL, NamelessState(n), NAMELESS) == NamelessState(n + 1)
  {
    hide Drain, Quiescent, Enqueue;
    var s, t := NamelessState(n), NamelessState(n + 1);
    assert NamelessQueue(0) == [] && NamelessQueue(1) == [Waiter(1, 1, 0, Vision)];
    NamelessArrives(n);
    NamelessIsFull(n + 1);
  }

  lemma NamelessArrives(n: nat)
    requires n < 2
    ensures Arrive(NamelessState(n), Vision, 1, 0) == NamelessState(n + 1)
    ensures !InflightFull(SMALL, NamelessState(n), Vision, 1) && !CanStart(SMALL, NamelessState(n), Vision, 1, 0)
  {
    assert NamelessQueue(0) == [] && NamelessQueue(1) == [Waiter(1, 1, 0, Vision)];
    assert InLane(NamelessQueue(0), Vision) == 0 && InLane(NamelessQueue(1), Vision) == 1;
    if n == 1 {
      assert map[1 := NamelessQueue(1)][1 := NamelessQueue(2)] == map[1 := NamelessQueue(2)];
    }
  }

  lemma NamelessIsFull(n: nat)
    requires n <= 2
    ensures Quiescent(SMALL, NamelessState(n)) && Drain(SMALL, NamelessState(n)) == NamelessState(n)
  {
    NamelessInLane(n);
    hide NamelessQueue, Quiescent, Drain;
    FullLaneIsQuiescent(SMALL, NamelessState(n), Vision);
  }

  lemma {:induction false} NamelessInLane(n: nat)
    ensures forall j :: 0 <= j < |NamelessQueue(n)| ==> NamelessQueue(n)[j].lane == Vision
  {
    if n > 0 { NamelessInLane(n - 1); }
  }

  /** Three requests without a token fill the lane of a scheduler with a valid configuration.
      A named newcomer may then claim a seat, and is turned away. */
  lemma EmptyTokenKeepsSeats()
    ensures var s := Run(SMALL, Initial, [NAMELESS, NAMELESS, NAMELESS]);
            && ValidConfig(SMALL) && s.queued.Of(Vision) == SMALL.laneQueueMax.Of(Vision)
            && !InflightFull(SMALL, s, Vision, 2) && MayClaim(SMALL, s, Vision, 5)
            && Step(SMALL, s, Acquire(Vision, 2, 5, false, true)) == Settle(s, Rejected(429))
  {
    hide Step, Run, MayClaim, InflightFull, NamelessState;
    NamelessRun();
    NamelessKeepsSeats();
  }

  lemma ThreeSteps(c: Config, s: State, e: Event, one: State, two: State, three: State)
    requires Step(c, s, e) == one && Step(c, one, e) == two && Step(c, two, e) == three
    ensures Run(c, s, [e, e, e]) == three
  {
    hide Step;
    assert [e, e, e][..2] == [e, e] && [e, e][..1] == [e] && [e][..0] == [];
    assert Run(c, s, []) == s && Run(c, s, [e]) == one && Run(c, s, [e, e]) == two;
  }

  lemma NamelessRun()
    ensures Run(SMALL, Initial, [NAMELESS, NAMELESS, NAMELESS]) == NamelessState(2)
  {
    hide Step, Run, NamelessState;
    NamelessRuns();
    NamelessWaits(0);
    NamelessWaits(1);
    ThreeSteps(SMALL, Initial, NAMELESS, NamelessState(0), NamelessState(1), NamelessState(2));
  }

  lemma NamelessKeepsSeats()
    ensures var s := NamelessState(2);
            && s.queued.Of(Vision) == SMALL.laneQueueMax.Of(Vision)
            && !InflightFull(SMALL, s, Vision, 2) && MayClaim(SMALL, s, Vision, 5)
            && Step(SMALL, s, Acquire(Vision, 2, 5, false, true)) == Settle(s, Rejected(429))
  {
    hide TokensIn, LaneTokens, Uniques, BestDonor, SeatOf, Drain, Quiescent;
    var w, v := Waiter(1, 1, 0, Vision), Waiter(2, 1, 0, Vision);
    var s := NamelessState(2);
    NamelessIsFull(2);
    assert NamelessQueue(0) == [] && NamelessQueue(1) == [w] && NamelessQueue(2) == [w, v];
    TwoEmptyTokens(s.line, 1, w, v);
    assert multiset([0, 0])[0] == 2;
    assert WaitsIn(s.line, Vision, w) && Worth(SMALL, s, Vision, 0) == 4;
    OnlyEmpty(SMALL, s.tally.byToken);
  }

  lemma TwoEmptyTokens(line: Line<Lane>, user: Name, w: Request, v: Request)
    requires Queue(line, user) == [w, v] && w.token == v.token == 0 && w.lane == v.lane == Vision
    ensures LaneTokens(line, [user], Vision) == [0, 0]
  {
    assert [user][..0] == [] && [w, v][..1] == [w] && [w][..0] == [];
    assert TokensIn([], Vision) == [];
    assert TokensIn([w], Vision) == [0];
    assert TokensIn([w, v], Vision) == [0, 0];
    assert LaneTokens(line, [], Vision) == [];
  }

  lemma OnlyEmpty(c: Config, byToken: Counter)
    ensures Uniques([0, 0]) == [0] && BestDonor(c, byToken, [0, 0], Uniques([0, 0])).token == 0
  {
    assert [0, 0][..1] == [0] && [0][..0] == [];
    assert Uniques([0]) == [0];
  }

  /** Who loses the seat: a waiter of the same lane, of another token that holds two seats
      there or is at its active cap, and that no other waiter of the lane outranks. */
  lemma DonorIsFair(c: Config, s: State, lane: Lane, token: Name, other: Request)
    requires WellQueued(s.line) && Displaced(c, s, lane, token).Seat?
    ensures var seat := Displaced(c, s, lane, token);
            && seat.index < |Queue(s.line, seat.user)|
            && var w := Queue(s.line, seat.user)[seat.index];
               && w.lane == lane && w.token != token && w.token != 0
               && (Seats(s, lane, w.token) >= 2 || Count(s.tally.byToken, w.token) >= c.perToken)
               && (WaitsIn(s.line, lane, other) ==> !Outranks(c, s, lane, other.token, w.token))
               && (forall j :: seat.index < j < |Queue(s.line, seat.user)| ==>
                     !(Queue(s.line, seat.user)[j].lane == lane && Queue(s.line, seat.user)[j].token == w.token))
  {
    hide WellQueued, WaitsIn;
    var ts := LaneTokens(s.line, s.line.order, lane);
    var best := BestDonor(c, s.tally.byToken, ts, Uniques(ts));
    BestDonorIsBest(c, s.tally.byToken, ts, Uniques(ts));
    UniquesKeepMembers(ts);
    MimoTheorems.SeatExists(s.line, s.line.order, lane, best.token);
    SeatIsNewest(s.line, s.line.order, lane, best.token);
    SeatsAreWaiters(s, lane, other.token);
    if other.token in ts { NoneOutranksBest(c, s, lane, other.token); }
    hide Outranks, Worth, Uniques, LaneTokens;
  }

  lemma NoneOutranksBest(c: Config, s: State, lane: Lane, other: Name)
    requires var ts := LaneTokens(s.line, s.line.order, lane);
             other in ts && BestDonor(c, s.tally.byToken, ts, Uniques(ts)).score > 0
    ensures var ts := LaneTokens(s.line, s.line.order, lane);
            !Outranks(c, s, lane, other, BestDonor(c, s.tally.byToken, ts, Uniques(ts)).token)
  {
    var ts := LaneTokens(s.line, s.line.order, lane);
    var best := BestDonor(c, s.tally.byToken, ts, Uniques(ts));
    if other != best.token {
      BestOutranks(c, s, lane, other);
      OutranksOneWay(c, s, lane, other, best.token);
    }
  }

  lemma SeatIsNewest(line: Line<Lane>, users: seq<Name>, lane: Lane, token: Name)
    requires SeatOf(line, users, lane, token).Seat?
    ensures var seat := SeatOf(line, users, lane, token); var q := Queue(line, seat.user);
            forall j :: seat.index < j < |q| ==> !(q[j].lane == lane && q[j].token == token)
    decreases |users|
  {
    var q := Queue(line, users[0]);
    if LastOf(q, lane, token, |q|) == |q| { SeatIsNewest(line, users[1..], lane, token); }
  }

  /** The displacement contract. In a reachable state in which a willing newcomer finds its
      lane full and cannot start, either it is turned away and only its own promise settles,
      or exactly one waiter is rejected and the newcomer waits in its place: no counter, no
      permit, no lane total and no other queue changes, and nobody is granted. */
  lemma DisplacementContract(c: Config, events: seq<Event>, lane: Lane, user: Name, token: Name)
    requires var s := Run(c, Initial, events);
             && !InflightFull(c, s, lane, user) && !CanStart(c, s, lane, user, token)
             && s.queued.Of(lane) >= c.laneQueueMax.Of(lane)
    ensures var s := Run(c, Initial, events);
            var t := AcquireStep(c, s, lane, user, token, false, true);
            var seat := Displaced(c, s, lane, token);
            if seat.NoSeat? then t == Settle(s, Rejected(429))
            else
              && seat.index < |Queue(s.line, seat.user)|
              && var w := Queue(s.line, seat.user)[seat.index];
                 var newcomer := Waiter(s.next, user, token, lane);
                 && t.tally == s.tally && t.busy == s.busy && t.vision == s.vision && t.queued == s.queued
                 && t.settled == s.settled[w.id := Rejected(429)] && w.id !in s.settled
                 && (forall v :: Queue(t.line, v) ==
                       (if v == seat.user then Without(Queue(s.line, v), seat.index) else Queue(s.line, v))
                       + (if v == user then [newcomer] else []))
  {
    hide Inv, InflightFull, CanStart, Displaced, Drain, Quiescent;
    var s := Run(c, Initial, events);
    MimoTheorems.ReachableStates(c, events);
    assert Drain(c, s) == s by { DrainOfQuiescent(c, s); }
    assert Run(c, Initial, events) == s;
    hide Run;
    PartsOfInv(c, s);
    var seat := Displaced(c, s, lane, token);
    if seat.Seat? {
      MimoTheorems.DisplaceKeepsInv(c, s, lane, user, token);
      SwapQueues(s, lane, user, token, seat.user, seat.index);
      SwapIsQuiescent(c, s, lane, user, token, seat.user, seat.index);
      MimoTheorems.SeatIsCounted(s, seat.user, seat.index);
    }
  }

  lemma PartsOfInv(c: Config, s: State)
    requires Inv(c, s)
    ensures WellQueued(s.line) && QueueCounted(s.line, s.queued)
  {
  }

  lemma DrainOfQuiescent(c: Config, s: State)
    requires Quiescent(c, s)
    ensures Drain(c, s) == s
  {
  }

  lemma SwapQueues(s: State, lane: Lane, user: Name, token: Name, at: Name, i: nat)
    requires i < |Queue(s.line, at)|
    ensures var t := Arrive(Depart(s, at, i, 429), lane, user, token);
            forall v :: Queue(t.line, v) ==
              (if v == at then Without(Queue(s.line, v), i) else Queue(s.line, v))
              + (if v == user then [Waiter(s.next, user, token, lane)] else [])
  {
    var m := Depart(s, at, i, 429);
    assert forall v :: Queue(m.line, v) == if v == at then Without(Queue(s.line, v), i) else Queue(s.line, v);
  }

  /** Swapping one waiter for a newcomer that cannot start leaves the line quiescent. */
  lemma SwapIsQuiescent(c: Config, s: State, lane: Lane, user: Name, token: Name, at: Name, i: nat)
    requires Quiescent(c, s) && WellQueued(s.line) && i < |Queue(s.line, at)| && !CanStart(c, s, lane, user, token)
    ensures var t := Arrive(Depart(s, at, i, 429), lane, user, token);
            Quiescent(c, t) && Drain(c, t) == t
  {
    hide Quiescent, Drain, Distinct, CanStart;
    var t := Arrive(Depart(s, at, i, 429), lane, user, token);
    SwapQueues(s, lane, user, token, at, i);
    forall u, j | u in t.line.waiting && 0 <= j < |Queue(t.line, u)|
      ensures !EntryCanStart(c, t, u, Queue(t.line, u)[j])
    {
      SwapEntry(c, s, t, lane, user, token, at, i, u, j);
    }
    MimoTheorems.QuiescentWhenNoneStarts(c, t);
    DrainOfQuiescent(c, t);
  }

  lemma SwapEntry(c: Config, s: State, t: State, lane: Lane, user: Name, token: Name, at: Name, i: nat, u: Name, j: nat)
    requires Quiescent(c, s) && WellQueued(s.line) && i < |Queue(s.line, at)| && !CanStart(c, s, lane, user, token)
    requires t.tally == s.tally && t.busy == s.busy && t.vision == s.vision
    requires Queue(t.line, u) == (if u == at then Without(Queue(s.line, u), i) else Queue(s.line, u))
                                 + (if u == user then [Waiter(s.next, user, token, lane)] else [])
    requires j < |Queue(t.line, u)|
    ensures !EntryCanStart(c, t, u, Queue(t.line, u)[j])
  {
    hide Quiescent, Distinct;
    var stayed := if u == at then Without(Queue(s.line, u), i) else Queue(s.line, u);
    if j < |stayed| {
      var k := if u == at && j >= i then j + 1 else j;
      assert Queue(t.line, u)[j] == Queue(s.line, u)[k] && u in s.line.waiting;
      MimoTheorems.NoEntryStarts(c, s, u, k);
    }
  }
}
