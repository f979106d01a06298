/** MimoReservationScheduler of gateway/modelCapacity.ts as the class it is: fields updated
    in place, proved step by step against the specification MimoScheduler. */
module MimoScheduling {
  import opened Counters
  import opened WaitingLine
  import opened MimoScheduler
  import opened MimoInvariant
  import Permits
  import MimoTheorems
  import MimoDisplacement

  class MimoReservationScheduler {
    const config: Config
    var active: nat
    var activeByLane: PerLane
    var activeByUser: Counter
    var activeVisionByUser: Counter
    var activeByToken: Counter
    var pendingByUser: Queues<Lane>
    /** The insertion order that the Map `pendingByUser` keeps. */
    var pendingOrder: seq<Name>
    var waitingUsers: seq<Name>
    var queuedByLane: PerLane
    /** The permits handed out and not yet released, and the settled promises. */
    var held: map<Id, Permits.Holder<Lane>>
    var settled: map<Id, Outcome>
    var next: Id

    function Lines(): Line<Lane>
      reads this
    {
      Line(pendingByUser, pendingOrder, waitingUsers)
    }

    function View(): State
      reads this
    {
      State(Permits.Tally(active, activeByUser, activeByToken, held), activeByLane, activeVisionByUser,
            Lines(), queuedByLane, settled, next)
    }

    ghost predicate Valid()
      reads this
    {
      Inv(config, View()) && Quiescent(config, View())
    }

    constructor (config: Config)
      requires ValidConfig(config)
      ensures Valid() && this.config == config && View() == Initial
    {
      hide Inv, Quiescent;
      this.config := config;
      active, activeByUser, activeByToken, held := 0, map[], map[], map[];
      activeByLane, activeVisionByUser, queuedByLane := PerLane(0, 0), map[], PerLane(0, 0);
      pendingByUser, pendingOrder, waitingUsers := map[], [], [];
      settled, next := map[], 0;
      new;
      InitialValid(config);
    }

    method Acquire(lane: Lane, user: Name, token: Name, aborted: bool, patient: bool) returns (id: Id)
      requires Valid()
      modifies this
      ensures Valid() && id == old(next)
      ensures View() == AcquireStep(config, old(View()), lane, user, token, aborted, patient)
    {
      hide Inv, Quiescent, WellQueued, WaitStep, CanStart;
      MimoTheorems.StepKeeps(config, View(), MimoScheduler.Acquire(lane, user, token, aborted, patient));
      LineIsValid(config, View());
      id := next;
      if aborted {
        Reply(Rejected(499));
        return;
      }
      if InflightForUser(user) >= config.maxInflight
        || (lane == Vision && InflightVisionForUser(user) >= config.visionMaxInflight) {
        Reply(Rejected(429));
        return;
      }
      if |waitingUsers| == 0 && MayStart(lane, user, token) {
        GrantPermit(id, lane, user, token);
        Reply(Granted);
        return;
      }
      if !patient {
        Reply(Rejected(429));
        return;
      }
      Wait(lane, user, token);
    }

    /** What `acquire` does for a request that is willing to wait. */
    method Wait(lane: Lane, user: Name, token: Name)
      requires WellQueued(View().line)
      modifies this
      ensures View() == WaitStep(config, old(View()), lane, user, token)
    {
      hide Quiescent, WellQueued, Drain, CanStart, FullStep;
      if queuedByLane.Of(lane) >= config.laneQueueMax.Of(lane) {
        DrainQueue();
        var runnable := HasRunnablePending();
        if !runnable && MayStart(lane, user, token) {
          GrantPermit(next, lane, user, token);
          Reply(Granted);
        } else {
          JoinFull(lane, user, token);
        }
        return;
      }
      Join(lane, user, token);
    }

    method JoinFull(lane: Lane, user: Name, token: Name)
      requires WellQueued(View().line)
      modifies this
      ensures View() == FullStep(config, old(View()), lane, user, token)
    {
      hide Quiescent, WellQueued, Drain;
      if queuedByLane.Of(lane) >= config.laneQueueMax.Of(lane) {
        var room := MakeRoomForFreshRunnableToken(lane, token);
        if !room {
          Reply(Rejected(429));
          return;
        }
      }
      Join(lane, user, token);
    }

    method Join(lane: Lane, user: Name, token: Name)
      requires WellQueued(View().line)
      modifies this
      ensures View() == Drain(config, Arrive(old(View()), lane, user, token))
    {
      EnqueueKeepsLine(View().line, Waiter(next, user, token, lane));
      hide WellQueued, Drain;
      Append(Waiter(next, user, token, lane));
      DrainQueue();
    }

    /** The `release` closure of the permit that request `id` was granted. */
    method Release(id: Id)
      requires Valid()
      modifies this
      ensures Valid() && View() == ReleaseStep(config, old(View()), id)
    {
      hide Inv, Quiescent, WellQueued, Drain;
      MimoTheorems.StepKeeps(config, View(), MimoScheduler.Release(id));
      LineIsValid(config, View());
      if id !in held {
        return;
      }
      ReturnPermit(id);
      DrainQueue();
    }

    /** The timer or the abort listener of a waiting request. */
    method RemoveAndReject(user: Name, id: Id, status: nat)
      requires Valid()
      modifies this
      ensures Valid() && View() == LeaveStep(config, old(View()), user, id, status)
    {
      hide Inv, Quiescent, WellQueued, Drain, Depart, Position, Queue;
      MimoTheorems.StepKeeps(config, View(), Leave(user, id, status));
      LineIsValid(config, View());
      var index := Position(Queue(Lines(), user), id);
      if index < |Queue(Lines(), user)| {
        DepartKeepsLine(View(), user, index, status);
        RemovePending(user, index, status);
        DrainQueue();
      }
    }

    function InflightForUser(user: Name): nat
      reads this
    {
      Count(activeByUser, user) + |Queue(Lines(), user)|
    }

    function InflightVisionForUser(user: Name): nat
      reads this
    {
      Count(activeVisionByUser, user) + InLane(Queue(Lines(), user), Vision)
    }

    predicate MayStart(lane: Lane, user: Name, token: Name)
      reads this
      ensures MayStart(lane, user, token) == CanStart(config, View(), lane, user, token)
    {
      var perUser := if lane == Vision then Min(config.perUser, config.visionPerUser) else config.perUser;
      var laneUserActive := if lane == Vision then Count(activeVisionByUser, user) else Count(activeByUser, user);
      && active < config.maxConcurrent
      && activeByLane.Of(lane) < config.laneLimits.Of(lane)
      && Count(activeByUser, user) < config.perUser
      && laneUserActive < perUser
      && Count(activeByToken, token) < config.perToken
    }

    /** Settles the promise of the request that just arrived. */
    method Reply(o: Outcome)
      modifies this
      ensures View() == Settle(old(View()), o)
    {
      settled := settled[next := o];
      next := next + 1;
    }

    method GrantPermit(id: Id, lane: Lane, user: Name, token: Name)
      modifies this
      ensures View() == Hold(old(View()), id, lane, user, token)
    {
      CountLane(lane, user);
      active := active + 1;
      activeByUser := Inc(activeByUser, user);
      activeByToken := Inc(activeByToken, token);
      held := held[id := Permits.Holder(user, token, lane)];
    }

    method CountLane(lane: Lane, user: Name)
      modifies this`activeByLane, this`activeVisionByUser
      ensures activeByLane == old(activeByLane).Up(lane)
      ensures activeVisionByUser ==
                if lane == Vision then Inc(old(activeVisionByUser), user) else old(activeVisionByUser)
    {
      activeByLane := activeByLane.Up(lane);
      if lane == Vision {
        activeVisionByUser := Inc(activeVisionByUser, user);
      }
    }

    method UncountLane(lane: Lane, user: Name)
      modifies this`activeByLane, this`activeVisionByUser
      ensures activeByLane == old(activeByLane).Down(lane)
      ensures activeVisionByUser ==
                if lane == Vision then Dec(old(activeVisionByUser), user) else old(activeVisionByUser)
    {
      activeByLane := activeByLane.Down(lane);
      if lane == Vision {
        activeVisionByUser := Dec(activeVisionByUser, user);
      }
    }

    method ReturnPermit(id: Id)
      requires id in held
      modifies this
      ensures View() == Free(old(View()), id)
    {
      hide Dec;
      var h := held[id];
      held := held - {id};
      active := if active > 0 then active - 1 else 0;
      UncountLane(h.lane, h.user);
      activeByUser := Dec(activeByUser, h.user);
      activeByToken := Dec(activeByToken, h.token);
    }

    method Append(pending: Request)
      requires pending == Waiter(next, pending.user, pending.token, pending.lane)
      modifies this
      ensures View() == Arrive(old(View()), pending.lane, pending.user, pending.token)
    {
      var user := pending.user;
      var queue := if user in pendingByUser then pendingByUser[user] else [];
      if user !in pendingByUser {
        pendingOrder := pendingOrder + [user];
        waitingUsers := waitingUsers + [user];
        assert queue + [pending] == [pending];
      }
      pendingByUser := pendingByUser[user := queue + [pending]];
      queuedByLane := queuedByLane.Up(pending.lane);
      next := next + 1;
    }

    /** Takes one waiter out of the line and rejects its promise. */
    method RemovePending(user: Name, index: nat, status: nat)
      requires index < |Queue(Lines(), user)|
      modifies this
      ensures View() == Depart(old(View()), user, index, status)
    {
      var pending := pendingByUser[user][index];
      TakeOut(user, index);
      queuedByLane := queuedByLane.Down(pending.lane);
      settled := settled[pending.id := Rejected(status)];
    }

    method TakeOut(user: Name, index: nat)
      requires index < |Queue(Lines(), user)|
      modifies this`pendingByUser, this`pendingOrder, this`waitingUsers
      ensures Lines() == Remove(old(Lines()), user, index)
    {
      var queue := pendingByUser[user];
      queue := queue[..index] + queue[index + 1..];
      if |queue| == 0 {
        pendingByUser := pendingByUser - {user};
        pendingOrder := Drop(pendingOrder, user);
        var userIndex := IndexOf(waitingUsers, user);
        if userIndex < |waitingUsers| {
          waitingUsers := waitingUsers[..userIndex] + waitingUsers[userIndex + 1..];
        }
      } else {
        pendingByUser := pendingByUser[user := queue];
      }
    }

    /** The place of the first request of a queue that can start; else the queue's length. */
    method FindRunnable(user: Name, queue: seq<Request>) returns (index: nat)
      ensures index == FirstEntry(config, View(), user, queue)
    {
      index := 0;
      while index < |queue|
        invariant index <= |queue|
        invariant FirstEntry(config, View(), user, queue, index) == FirstEntry(config, View(), user, queue)
      {
        if MayStart(queue[index].lane, user, queue[index].token) {
          return;
        }
        index := index + 1;
      }
    }

    method HasRunnablePending() returns (runnable: bool)
      ensures runnable <==> !Quiescent(config, View())
    {
      for i := 0 to |waitingUsers|
        invariant forall j :: 0 <= j < i ==> !UserCanStart(config, View(), j)
      {
        var queue := Queue(Lines(), waitingUsers[i]);
        var index := FindRunnable(waitingUsers[i], queue);
        if index < |queue| {
          assert UserCanStart(config, View(), i);
          return true;
        }
      }
      return false;
    }

    // ---- Displacement ----

    method MakeRoomForFreshRunnableToken(lane: Lane, token: Name) returns (room: bool)
      requires WellQueued(View().line)
      modifies this
      ensures WellQueued(View().line)
      ensures var seat := Displaced(config, old(View()), lane, token);
              && room == (seat.Seat? && seat.index < |Queue(old(View()).line, seat.user)|)
              && View() == if room then Depart(old(View()), seat.user, seat.index, 429) else old(View())
    {
      hide WellQueued;
      if Count(activeByToken, token) >= config.perToken {
        return false;
      }
      var queuedByToken, tokens := CountWaitingTokens(lane);
      ghost var ts := LaneTokens(Lines(), pendingOrder, lane);
      if Count(queuedByToken, token) > 0 {
        return false;
      }
      var donor := ChooseDonor(queuedByToken, tokens, ts);
      if donor == 0 {
        return false;
      }
      var seat := NewestSeat(lane, donor);
      if seat.NoSeat? {
        return false;
      }
      MimoTheorems.SeatExists(Lines(), pendingOrder, lane, donor);
      RemoveKeepsLine(Lines(), seat.user, seat.index);
      RemovePending(seat.user, seat.index, 429);
      return true;
    }

    /** How many waiters of the lane each token has, and the tokens in the order in which
        the map that counts them meets them. */
    method CountWaitingTokens(lane: Lane) returns (queuedByToken: Counter, tokens: seq<Name>)
      ensures Tallies(queuedByToken, tokens, LaneTokens(Lines(), pendingOrder, lane))
    {
      queuedByToken, tokens := map[], [];
      for i := 0 to |pendingOrder|
        invariant Tallies(queuedByToken, tokens, LaneTokens(Lines(), pendingOrder[..i], lane))
      {
        queuedByToken, tokens := CountInQueue(
          Queue(Lines(), pendingOrder[i]), lane, queuedByToken, tokens, LaneTokens(Lines(), pendingOrder[..i], lane));
        assert pendingOrder[..i + 1][..i] == pendingOrder[..i];
      }
      assert pendingOrder[..|pendingOrder|] == pendingOrder;
    }

    method CountInQueue(queue: seq<Request>, lane: Lane, counts: Counter, order: seq<Name>, ghost before: seq<Name>)
      returns (queuedByToken: Counter, tokens: seq<Name>)
      requires Tallies(counts, order, before)
      ensures Tallies(queuedByToken, tokens, before + TokensIn(queue, lane))
    {
      hide Tallies, TokensIn;
      queuedByToken, tokens := counts, order;
      TokensInNone(before, lane);
      for j := 0 to |queue|
        invariant Tallies(queuedByToken, tokens, before + TokensIn(queue[..j], lane))
      {
        TokensInNext(queue, j, before, lane);
        if queue[j].lane == lane {
          var t := queue[j].token;
          TallyMore(queuedByToken, tokens, before + TokensIn(queue[..j], lane), t);
          if Count(queuedByToken, t) == 0 {
            tokens := tokens + [t];
          }
          queuedByToken := Inc(queuedByToken, t);
        }
      }
      assert queue[..|queue|] == queue;
    }

    method ChooseDonor(queuedByToken: Counter, tokens: seq<Name>, ghost ts: seq<Name>) returns (donor: Name)
      requires Tallies(queuedByToken, tokens, ts)
      ensures donor == BestDonor(config, activeByToken, ts, tokens).token
    {
      donor := 0;
      var donorScore := 0;
      for i := 0 to |tokens|
        invariant Donor(donor, donorScore) == BestDonor(config, activeByToken, ts, tokens[..i])
      {
        var count := Count(queuedByToken, tokens[i]);
        var tokenAtActiveCap := Count(activeByToken, tokens[i]) >= config.perToken;
        var score := if count > 1 then 2 + count else if tokenAtActiveCap then 1 else 0;
        if score > donorScore {
          donor, donorScore := tokens[i], score;
        }
        assert tokens[..i + 1][..i] == tokens[..i];
      }
      assert tokens[..|tokens|] == tokens;
    }

    method NewestSeat(lane: Lane, donor: Name) returns (seat: Seat)
      ensures seat == SeatOf(Lines(), pendingOrder, lane, donor)
    {
      for i := 0 to |pendingOrder|
        invariant SeatOf(Lines(), pendingOrder[i..], lane, donor) == SeatOf(Lines(), pendingOrder, lane, donor)
      {
        var queue := Queue(Lines(), pendingOrder[i]);
        for index := |queue| downto 0
          invariant LastOf(queue, lane, donor, index) == LastOf(queue, lane, donor, |queue|)
        {
          if queue[index].lane == lane && queue[index].token == donor {
            return Seat(pendingOrder[i], index);
          }
        }
        assert pendingOrder[i..][1..] == pendingOrder[i + 1..];
      }
      return NoSeat;
    }

    // ---- Draining ----

    /** Passes over the line until a full pass grants nothing. */
    method DrainQueue()
      requires WellQueued(View().line)
      modifies this
      ensures View() == Drain(config, old(View()))
      ensures WellQueued(View().line)
    {
      while active < config.maxConcurrent && |waitingUsers| > 0
        invariant WellQueued(View().line)
        invariant Drain(config, View()) == Drain(config, old(View()))
        decreases config.maxConcurrent - active
      {
        ghost var s := View();
        var granted := ScanOnce();
        if !granted {
          return;
        }
        ghost var k := First(config, s);
        ServeAtKeepsLine(s.line, k, FirstEntry(config, s, s.line.waiting[k], Queue(s.line, s.line.waiting[k])));
      }
    }

    /** Takes the chosen request of a user just shifted off the line and grants it. */
    method ServeEntry(user: Name, index: nat)
      requires index < |Queue(Lines(), user)|
      modifies this
      ensures View() == Served(old(View()), user, index)
    {
      hide Permits.Grant, Drop;
      var queue := pendingByUser[user];
      var pending := queue[index];
      queue := queue[..index] + queue[index + 1..];
      queuedByLane := queuedByLane.Down(pending.lane);
      Requeue(user, queue);
      settled := settled[pending.id := Granted];
      GrantPermit(pending.id, pending.lane, user, pending.token);
    }

    method Requeue(user: Name, queue: seq<Request>)
      modifies this`pendingByUser, this`pendingOrder, this`waitingUsers
      ensures Lines() ==
        if queue != [] then Line(old(pendingByUser)[user := queue], old(pendingOrder), old(waitingUsers) + [user])
        else Line(old(pendingByUser) - {user}, Drop(old(pendingOrder), user), old(waitingUsers))
    {
      if |queue| > 0 {
        waitingUsers := waitingUsers + [user];
        pendingByUser := pendingByUser[user := queue];
      } else {
        pendingByUser := pendingByUser - {user};
        pendingOrder := Drop(pendingOrder, user);
      }
    }

    /** One pass of the inner loop: users without a runnable request go to the end of the
        line one after the other, the first that has one is served. */
    method ScanOnce() returns (granted: bool)
      requires forall k :: 0 <= k < |waitingUsers| ==> waitingUsers[k] in pendingByUser
      modifies this
      ensures granted <==> !Quiescent(config, old(View()))
      ensures granted ==> View() == GrantNext(config, old(View()))
      ensures !granted ==> View() == old(View())
    {
      hide Turned, Served, GrantNext, Quiescent, UserCanStart, FirstEntry, First;
      ghost var s := View();
      ghost var line := waitingUsers;
      TurnedFully(line);
      var candidates := |waitingUsers|;
      for i := 0 to candidates
        invariant waitingUsers == Turned(line, i)
        invariant View() == s.(line := s.line.(waiting := waitingUsers))
        invariant forall j :: 0 <= j < i ==> !UserCanStart(config, s, j)
      {
        TurnOnce(line, i);
        var user := waitingUsers[0];
        waitingUsers := waitingUsers[1..];
        assert user == line[i] && waitingUsers == line[i + 1..] + line[..i];
        var queue := Queue(Lines(), user);
        var pendingIndex := FindRunnable(user, queue);
        RunnableHere(config, s, View(), i);
        if pendingIndex < |queue| {
          ServedIsNext(config, s, View(), i);
          ServeEntry(user, pendingIndex);
          return true;
        }
        waitingUsers := waitingUsers + [user];
      }
      NoneRunnable(config, s);
      return false;
    }
  }

  /** The counts and the order of first sight describe the tokens seen so far. */
  ghost predicate Tallies(counts: Counter, order: seq<Name>, ts: seq<Name>) {
    order == Uniques(ts) && forall t: Name :: Count(counts, t) == multiset(ts)[t]
  }

  lemma TallyMore(counts: Counter, order: seq<Name>, ts: seq<Name>, t: Name)
    requires Tallies(counts, order, ts)
    ensures Tallies(Inc(counts, t), if Count(counts, t) == 0 then order + [t] else order, ts + [t])
  {
    MimoDisplacement.UniquesKeepMembers(ts);
    assert (ts + [t])[..|ts|] == ts;
    assert t in ts <==> multiset(ts)[t] > 0;
  }

  lemma TokensInNone(before: seq<Name>, lane: Lane)
    ensures before + TokensIn([], lane) == before
  {
  }

  lemma TokensInNext(queue: seq<Request>, j: nat, before: seq<Name>, lane: Lane)
    requires j < |queue|
    ensures var sofar := before + TokensIn(queue[..j], lane);
            before + TokensIn(queue[..j + 1], lane) == if queue[j].lane == lane then sofar + [queue[j].token] else sofar
  {
    assert queue[..j + 1][..j] == queue[..j];
  }

  lemma InitialValid(c: Config)
    ensures Inv(c, Initial) && Quiescent(c, Initial)
  {
    InitialInv(c);
  }

  lemma DepartKeepsLine(s: State, user: Name, i: nat, status: nat)
    requires WellQueued(s.line) && i < |Queue(s.line, user)|
    ensures WellQueued(Depart(s, user, i, status).line)
  {
    RemoveKeepsLine(s.line, user, i);
  }

  /** The state after a user that has left the front of the line is served. */
  function Served(s: State, user: Name, index: nat): State
    requires index < |Queue(s.line, user)|
  {
    var w := Queue(s.line, user)[index];
    var rest := Without(s.line.pending[user], index);
    Hold(s, w.id, w.lane, user, w.token).(
      settled := s.settled[w.id := Granted],
      queued := s.queued.Down(w.lane),
      line := if rest != [] then Line(s.line.pending[user := rest], s.line.order, s.line.waiting + [user])
              else Line(s.line.pending - {user}, Drop(s.line.order, user), s.line.waiting))
  }

  lemma ServedIsGrant(s: State, t: State, k: nat, index: nat)
    requires k < |s.line.waiting| && index < |Queue(s.line, s.line.waiting[k])|
    requires t == s.(line := s.line.(waiting := s.line.waiting[k + 1..] + s.line.waiting[..k]))
    ensures Served(t, s.line.waiting[k], index) == GrantAt(s, k, index)
  {
    hide Permits.Grant, Drop;
  }

  /** Whether the k-th user can start may be found out after k turns of the line. */
  lemma RunnableHere(c: Config, s: State, t: State, k: nat)
    requires k < |s.line.waiting| && t == s.(line := t.line)
    ensures var u := s.line.waiting[k]; var q := Queue(s.line, u);
            && (UserCanStart(c, s, k) <==> FirstEntry(c, t, u, q) < |q|)
            && FirstEntry(c, s, u, q) == FirstEntry(c, t, u, q)
  {
    SameEntry(c, s, t, s.line.waiting[k], Queue(s.line, s.line.waiting[k]), 0);
  }

  lemma ServedIsNext(c: Config, s: State, t: State, k: nat)
    requires k < |s.line.waiting| && UserCanStart(c, s, k)
    requires forall j :: 0 <= j < k ==> !UserCanStart(c, s, j)
    requires t == s.(line := s.line.(waiting := s.line.waiting[k + 1..] + s.line.waiting[..k]))
    ensures var u := s.line.waiting[k];
            var i := FirstEntry(c, t, u, Queue(s.line, u));
            !Quiescent(c, s) && i < |Queue(s.line, u)| && Served(t, u, i) == GrantNext(c, s)
  {
    var u := s.line.waiting[k];
    RunnableHere(c, s, t, k);
    hide Served, GrantAt, FirstEntry;
    assert First(c, s) == k;
    ServedIsGrant(s, t, k, FirstEntry(c, t, u, Queue(s.line, u)));
  }

  lemma NoneRunnable(c: Config, s: State)
    requires forall j :: 0 <= j < |s.line.waiting| ==> !UserCanStart(c, s, j)
    ensures Quiescent(c, s)
  {
  }

  lemma LineIsValid(c: Config, s: State)
    requires Inv(c, s)
    ensures WellQueued(s.line)
  {
  }

  /** Which request can start does not depend on the line. */
  lemma SameEntry(c: Config, s: State, t: State, user: Name, q: seq<Request>, from: nat)
    requires s == t.(line := s.line) && from <= |q|
    ensures FirstEntry(c, s, user, q, from) == FirstEntry(c, t, user, q, from)
    decreases |q| - from
  {
    if from < |q| { SameEntry(c, s, t, user, q, from + 1); }
  }
}
