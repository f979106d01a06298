/** FairCapacityScheduler of gateway/modelCapacity.ts as the class it is: fields updated in
    place, proved step by step against the specification FairScheduler. */
module FairScheduling {
  import opened Sums
  import opened Counters
  import opened WaitingLine
  import opened FairScheduler
  import opened FairInvariant
  import Permits
  import FairTheorems

  class FairCapacityScheduler {
    const config: Config
    var active: nat
    var activeByUser: Counter
    var activeByToken: Counter
    var pendingByUser: Queues<()>
    /** The insertion order that the Map `pendingByUser` keeps. */
    var pendingOrder: seq<Name>
    var waitingUsers: seq<Name>
    /** The permits handed out and not yet released, and the settled promises. */
    var held: map<Id, Permits.Holder<()>>
    var settled: map<Id, Outcome>
    var next: Id

    function View(): State
      reads this
    {
      State(Permits.Tally(active, activeByUser, activeByToken, held),
            Line(pendingByUser, pendingOrder, waitingUsers), settled, next)
    }

    ghost predicate Valid()
      reads this
    {
      Inv(config, View()) && Quiescent(config, View())
    }

    constructor (config: Config)
      ensures Valid() && this.config == config && View() == Initial
    {
      this.config := config;
      active, activeByUser, activeByToken, held := 0, map[], map[], map[];
      pendingByUser, pendingOrder, waitingUsers := map[], [], [];
      settled, next := map[], 0;
      new;
      InitialInv(config);
    }

    method Acquire(user: Name, token: Name, aborted: bool, patient: bool) returns (id: Id)
      requires Valid()
      modifies this
      ensures Valid() && id == old(next)
      ensures View() == AcquireStep(config, old(View()), user, token, aborted, patient)
    {
      hide Inv, Quiescent, WellQueued, WaitStep;
      FairTheorems.StepKeeps(config, View(), FairScheduler.Acquire(user, token, aborted, patient));
      LineIsValid(config, View());
      id := next;
      if aborted {
        Reply(Rejected(499));
        return;
      }
      var queued := if user in pendingByUser then |pendingByUser[user]| else 0;
      if config.maxInflight.Reached(Count(activeByUser, user) + queued) {
        Reply(Rejected(429));
        return;
      }
      if |waitingUsers| == 0 && MayStart(user, token) {
        GrantPermit(id, user, token);
        Reply(Granted);
        return;
      }
      if !patient {
        Reply(Rejected(429));
        return;
      }
      Wait(user, token);
    }

    method Wait(user: Name, token: Name)
      requires WellQueued(View().line)
      modifies this
      ensures View() == WaitStep(config, old(View()), user, token)
    {
      EnqueueKeepsLine(View().line, Waiter(next, user, token, ()));
      hide Inv, Quiescent, WellQueued, Drain, Queued;
      var count := QueuedCount();
      if config.queueMax.Reached(count) {
        DrainQueue();
        var runnable := HasRunnablePending();
        if !runnable && MayStart(user, token) {
          GrantPermit(next, user, token);
          Reply(Granted);
        } else {
          Reply(Rejected(429));
        }
        return;
      }
      Append(Waiter(next, user, token, ()));
      DrainQueue();
    }

    /** The `release` closure of the permit that request `id` was granted. */
    method Release(id: Id)
      requires Valid()
      modifies this
      ensures Valid() && View() == ReleaseStep(config, old(View()), id)
    {
      hide Inv, Quiescent, WellQueued, Drain;
      FairTheorems.StepKeeps(config, View(), FairScheduler.Release(id));
      LineIsValid(config, View());
      if id !in held {
        return;
      }
      ReturnPermit(id);
      DrainQueue();
    }

    /** The timer or the abort listener of a waiting request. */
    method RemoveAndReject(user: Name, id: Id, status: nat)
      requires Valid()
      modifies this
      ensures Valid() && View() == LeaveStep(config, old(View()), user, id, status)
    {
      hide Inv, Quiescent, WellQueued, Drain;
      FairTheorems.StepKeeps(config, View(), Leave(user, id, status));
      LineIsValid(config, View());
      if IsPending(View().line, user, id) {
        RemoveKeepsLine(View().line, user, Position(Queue(View().line, user), id));
      }
      var removed := RemovePending(user, id);
      if removed {
        settled := settled[id := Rejected(status)];
        DrainQueue();
      }
    }

    predicate MayStart(user: Name, token: Name)
      reads this
      ensures MayStart(user, token) == CanStart(config, View(), user, token)
    {
      && active < config.maxConcurrent
      && Count(activeByUser, user) < config.perUser
      && Count(activeByToken, token) < config.perToken
    }

    /** Settles the promise of the request that just arrived. */
    method Reply(o: Outcome)
      modifies this
      ensures View() == Settle(old(View()), o)
    {
      settled := settled[next := o];
      next := next + 1;
    }

    method GrantPermit(id: Id, user: Name, token: Name)
      modifies this
      ensures View() == Hold(old(View()), id, user, token)
    {
      active := active + 1;
      activeByUser := Inc(activeByUser, user);
      activeByToken := Inc(activeByToken, token);
      held := held[id := Permits.Holder(user, token, ())];
    }

    method ReturnPermit(id: Id)
      requires id in held
      modifies this
      ensures View() == Free(old(View()), id)
    {
      var h := held[id];
      held := held - {id};
      active := if active > 0 then active - 1 else 0;
      activeByUser := Dec(activeByUser, h.user);
      activeByToken := Dec(activeByToken, h.token);
    }

    method Append(pending: Request)
      requires pending == Waiter(next, pending.user, pending.token, ())
      modifies this
      ensures View() == Arrive(old(View()), pending.user, pending.token)
    {
      var user := pending.user;
      var queue := if user in pendingByUser then pendingByUser[user] else [];
      if user !in pendingByUser {
        pendingOrder := pendingOrder + [user];
        waitingUsers := waitingUsers + [user];
        assert queue + [pending] == [pending];
      }
      pendingByUser := pendingByUser[user := queue + [pending]];
      next := next + 1;
    }

    method QueuedCount() returns (queued: nat)
      ensures queued == Queued(View().line)
    {
      queued := 0;
      var rest := pendingByUser;
      while rest != map[]
        invariant rest.Keys <= pendingByUser.Keys
        invariant queued + Total(Lengths(rest)) == Total(Lengths(pendingByUser))
        decreases |rest|
      {
        var user :| user in rest;
        TotalSplit(Lengths(rest), user);
        assert Lengths(rest) - {user} == Lengths(rest - {user});
        queued := queued + |rest[user]|;
        rest := rest - {user};
      }
    }

    method HasRunnablePending() returns (runnable: bool)
      ensures runnable <==> !Quiescent(config, View())
    {
      for i := 0 to |waitingUsers|
        invariant forall j :: 0 <= j < i ==> !HeadCanStart(config, View(), j)
      {
        var user := waitingUsers[i];
        if user in pendingByUser && |pendingByUser[user]| > 0 && MayStart(user, pendingByUser[user][0].token) {
          assert HeadCanStart(config, View(), i);
          return true;
        }
      }
      return false;
    }

    method RemovePending(user: Name, id: Id) returns (removed: bool)
      modifies this
      ensures removed == IsPending(old(View()).line, user, id)
      ensures removed ==>
                var line := old(View()).line;
                View() == old(View()).(line := Remove(line, user, Position(Queue(line, user), id)))
      ensures !removed ==> View() == old(View())
    {
      if user !in pendingByUser {
        return false;
      }
      var queue := pendingByUser[user];
      var index := Position(queue, id);
      if index == |queue| {
        return false;
      }
      queue := queue[..index] + queue[index + 1..];
      if |queue| == 0 {
        pendingByUser := pendingByUser - {user};
        pendingOrder := Drop(pendingOrder, user);
        var userIndex := IndexOf(waitingUsers, user);
        if userIndex < |waitingUsers| {
          waitingUsers := waitingUsers[..userIndex] + waitingUsers[userIndex + 1..];
        }
      } else {
        pendingByUser := pendingByUser[user := queue];
      }
      return true;
    }

    /** Passes over the line until a full pass grants nothing. */
    method DrainQueue()
      requires WellQueued(View().line)
      modifies this
      ensures View() == Drain(config, old(View()))
    {
      while active < config.maxConcurrent && |waitingUsers| > 0
        invariant WellQueued(View().line)
        invariant Drain(config, View()) == Drain(config, old(View()))
        decreases config.maxConcurrent - active
      {
        ghost var s := View();
        var granted := ScanOnce();
        if !granted {
          return;
        }
        ServeAtKeepsLine(s.line, First(config, s), 0);
      }
    }

    /** Takes the head of the queue of a user just shifted off the line and grants it. */
    method ServeHead(user: Name)
      requires user in pendingByUser && pendingByUser[user] != []
      modifies this
      ensures View() == Served(old(View()), user)
    {
      hide Permits.Grant, Drop;
      var queue := pendingByUser[user];
      var pending := queue[0];
      queue := queue[1..];
      assert queue == Without(pendingByUser[user], 0);
      if |queue| > 0 {
        waitingUsers := waitingUsers + [user];
        pendingByUser := pendingByUser[user := queue];
      } else {
        pendingByUser := pendingByUser - {user};
        pendingOrder := Drop(pendingOrder, user);
      }
      settled := settled[pending.id := Granted];
      GrantPermit(pending.id, user, pending.token);
    }

    /** One pass of the inner loop: blocked users go to the end of the line one after the
        other, the first that can start is served. */
    method ScanOnce() returns (granted: bool)
      requires forall k :: 0 <= k < |waitingUsers| ==> Queue(View().line, waitingUsers[k]) != []
      modifies this
      ensures granted <==> !Quiescent(config, old(View()))
      ensures granted ==> View() == GrantAt(old(View()), First(config, old(View())))
      ensures !granted ==> View() == old(View())
    {
      hide Turned, Served, GrantAt, Quiescent, HeadCanStart, First, CanStart;
      ghost var s := View();
      ghost var line := waitingUsers;
      TurnedFully(line);
      var candidates := |waitingUsers|;
      for i := 0 to candidates
        invariant waitingUsers == Turned(line, i)
        invariant View() == s.(line := s.line.(waiting := waitingUsers))
        invariant forall j :: 0 <= j < i ==> !HeadCanStart(config, s, j)
      {
        TurnOnce(line, i);
        var user := waitingUsers[0];
        waitingUsers := waitingUsers[1..];
        assert user == line[i] && waitingUsers == line[i + 1..] + line[..i];
        var queue := pendingByUser[user];
        HeadHere(config, s, View(), i);
        if MayStart(user, queue[0].token) {
          FirstIs(config, s, i);
          ServedIsGrant(s, View(), i);
          ServeHead(user);
          return true;
        }
        waitingUsers := waitingUsers + [user];
      }
      NoneStarts(config, s);
      return false;
    }
  }
  lemma LineIsValid(c: Config, s: State)
    requires Inv(c, s)
    ensures WellQueued(s.line)
  {
  }

  /** The state after a user that has left the front of the line is served. */
  function Served(s: State, user: Name): State
    requires Queue(s.line, user) != []
  {
    var w := Queue(s.line, user)[0];
    var rest := Without(s.line.pending[user], 0);
    Hold(s, w.id, user, w.token).(
      settled := s.settled[w.id := Granted],
      line := if rest != [] then Line(s.line.pending[user := rest], s.line.order, s.line.waiting + [user])
              else Line(s.line.pending - {user}, Drop(s.line.order, user), s.line.waiting))
  }

  /** Whether the k-th head can start may be found out after k turns of the line. */
  lemma HeadHere(c: Config, s: State, t: State, k: nat)
    requires k < |s.line.waiting| && Queue(s.line, s.line.waiting[k]) != [] && t == s.(line := t.line)
    ensures var u := s.line.waiting[k];
            HeadCanStart(c, s, k) <==> CanStart(c, t, u, Queue(s.line, u)[0].token)
  {
  }

  lemma FirstIs(c: Config, s: State, k: nat)
    requires k < |s.line.waiting| && HeadCanStart(c, s, k) && forall j :: 0 <= j < k ==> !HeadCanStart(c, s, j)
    ensures First(c, s) == k && !Quiescent(c, s)
  {
    hide HeadCanStart;
  }

  lemma NoneStarts(c: Config, s: State)
    requires forall j :: 0 <= j < |s.line.waiting| ==> !HeadCanStart(c, s, j)
    ensures Quiescent(c, s)
  {
    hide HeadCanStart;
  }

  lemma ServedIsGrant(s: State, t: State, k: nat)
    requires k < |s.line.waiting| && Queue(s.line, s.line.waiting[k]) != []
    requires t == s.(line := s.line.(waiting := s.line.waiting[k + 1..] + s.line.waiting[..k]))
    ensures Served(t, s.line.waiting[k]) == GrantAt(s, k)
  {
    hide Permits.Grant, Drop;
  }
}
