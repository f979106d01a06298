/** Every reachable state of the fair scheduler: the counters are the truth, the limits
    hold, the line lists exactly the waiting users and no request settles twice. */
module FairInvariant {
  import opened Counters
  import opened WaitingLine
  import opened FairScheduler
  import Permits

  ghost predicate Within(c: Config, s: State) {
    && s.tally.active <= c.maxConcurrent
    && (forall u :: Count(s.tally.byUser, u) <= c.perUser)
    && (forall t :: Count(s.tally.byToken, t) <= c.perToken)
    && (forall u :: c.maxInflight.Allows(Inflight(s, u)))
    && c.queueMax.Allows(Queued(s.line))
  }

  /** A held permit belongs to a request whose promise was settled by granting it. */
  ghost predicate Booked(held: map<Id, Permits.Holder<()>>, settled: map<Id, Outcome>, next: Id) {
    && (forall id :: id in settled ==> id < next)
    && (forall id :: id in held ==> id in settled && settled[id] == Granted)
  }

  /** No request is lost: each one that arrived has settled or still waits. */
  ghost predicate Accounted(s: State) { |s.settled| + Queued(s.line) == s.next }

  ghost predicate Inv(c: Config, s: State) {
    && Permits.Counted(s.tally)
    && Within(c, s)
    && WellQueued(s.line)
    && Named(s.line, s.settled, s.next)
    && Booked(s.tally.held, s.settled, s.next)
    && Accounted(s)
  }

  lemma InitialInv(c: Config)
    ensures Inv(c, Initial)
  {
    hide Permits.Counted, WellQueued, Named, Queued;
    Permits.NothingCounted<()>();
    NothingQueued(());
    EmptyWellQueued<()>();
    EmptyNamed<()>();
  }

  // ---- The limits ----

  /** A step that only touches one user keeps the limits if that user and the totals fit. */
  lemma WithinAfter(c: Config, s: State, t: State, user: Name)
    requires Within(c, s)
    requires forall v :: v != user ==> Queue(t.line, v) == Queue(s.line, v)
    requires forall v :: v != user ==> Count(t.tally.byUser, v) <= Count(s.tally.byUser, v)
    requires t.tally.active <= c.maxConcurrent && Count(t.tally.byUser, user) <= c.perUser
    requires forall k :: Count(t.tally.byToken, k) <= c.perToken
    requires Inflight(t, user) <= Inflight(s, user) || c.maxInflight.Allows(Inflight(t, user))
    requires c.queueMax.Allows(Queued(t.line))
    ensures Within(c, t)
  {
    forall u ensures c.maxInflight.Allows(Inflight(t, u)) {
      assert c.maxInflight.Allows(Inflight(s, u));
    }
  }

  lemma SettleKeepsWithin(c: Config, s: State, o: Outcome)
    requires Within(c, s)
    ensures Within(c, Settle(s, o))
  {
    assert c.maxInflight.Allows(Inflight(s, 0));
    WithinAfter(c, s, Settle(s, o), 0);
  }

  lemma DirectGrantKeepsWithin(c: Config, s: State, user: Name, token: Name)
    requires Within(c, s) && CanStart(c, s, user, token) && !c.maxInflight.Reached(Inflight(s, user))
    ensures Within(c, DirectGrant(s, user, token))
  {
    WithinAfter(c, s, DirectGrant(s, user, token), user);
  }

  lemma ArriveKeepsWithin(c: Config, s: State, user: Name, token: Name)
    requires Within(c, s) && !c.maxInflight.Reached(Inflight(s, user)) && !c.queueMax.Reached(Queued(s.line))
    ensures Within(c, Arrive(s, user, token))
  {
    var t := Arrive(s, user, token);
    QueuedChange(s.line, t.line, user, ());
    WithinAfter(c, s, t, user);
  }

  lemma GrantAtKeepsWithin(c: Config, s: State, k: nat)
    requires Within(c, s) && k < |s.line.waiting| && HeadCanStart(c, s, k)
    ensures Within(c, GrantAt(s, k))
  {
    var t := GrantAt(s, k);
    QueuedChange(s.line, t.line, s.line.waiting[k], ());
    WithinAfter(c, s, t, s.line.waiting[k]);
  }

  lemma DepartKeepsWithin(c: Config, s: State, user: Name, id: Id, status: nat)
    requires Within(c, s) && IsPending(s.line, user, id)
    ensures Within(c, Depart(s, user, id, status))
  {
    var t := Depart(s, user, id, status);
    QueuedChange(s.line, t.line, user, ());
    WithinAfter(c, s, t, user);
  }

  lemma FreeKeepsWithin(c: Config, s: State, id: Id)
    requires Within(c, s) && id in s.tally.held && Permits.Counted(s.tally)
    ensures Within(c, Free(s, id))
  {
    hide Permits.Counted;
    Permits.FreeKeepsCounted(s.tally, id);
    WithinAfter(c, s, Free(s, id), s.tally.held[id].user);
  }

  // ---- The books ----

  lemma FreshIsOpen(s: State)
    requires Booked(s.tally.held, s.settled, s.next)
    ensures s.next !in s.settled && s.next !in s.tally.held && Booked(s.tally.held, s.settled, s.next + 1)
  {
  }

  lemma FreeKeepsBooked(s: State, id: Id)
    requires Booked(s.tally.held, s.settled, s.next) && Accounted(s) && id in s.tally.held
    ensures Booked(s.tally.held - {id}, s.settled, s.next) && Accounted(Free(s, id))
  {
  }

  lemma SettleKeepsAccounted(s: State, o: Outcome, user: Name, token: Name)
    requires Accounted(s) && s.next !in s.settled
    ensures Accounted(Settle(s, o)) && Accounted(DirectGrant(s, user, token))
  {
  }

  lemma ArriveKeepsAccounted(s: State, user: Name, token: Name)
    requires Accounted(s)
    ensures Accounted(Arrive(s, user, token))
  {
    QueuedChange(s.line, Arrive(s, user, token).line, user, ());
  }

  lemma GrantAtKeepsAccounted(s: State, k: nat)
    requires Accounted(s) && k < |s.line.waiting| && Queue(s.line, s.line.waiting[k]) != []
    requires Queue(s.line, s.line.waiting[k])[0].id !in s.settled
    ensures Accounted(GrantAt(s, k))
  {
    QueuedChange(s.line, GrantAt(s, k).line, s.line.waiting[k], ());
  }

  lemma DepartKeepsAccounted(s: State, user: Name, id: Id, status: nat)
    requires Accounted(s) && IsPending(s.line, user, id) && id !in s.settled
    ensures Accounted(Depart(s, user, id, status))
  {
    QueuedChange(s.line, Depart(s, user, id, status).line, user, ());
  }

  /** The promise of a waiter is open. */
  lemma WaiterIsOpen(s: State, user: Name, i: nat)
    requires Named(s.line, s.settled, s.next) && Booked(s.tally.held, s.settled, s.next)
    requires i < |Queue(s.line, user)|
    ensures var id := Queue(s.line, user)[i].id; id !in s.settled && id !in s.tally.held && id < s.next
  {
    assert WaitsAt(s.line, user, i, Queue(s.line, user)[i].id);
  }

  lemma HoldKeepsBooked(s: State, id: Id, h: Permits.Holder<()>, next: Id)
    requires Booked(s.tally.held, s.settled, s.next) && id < next && s.next <= next
    ensures Booked(s.tally.held[id := h], s.settled[id := Granted], next)
  {
  }

  lemma RejectKeepsBooked(s: State, id: Id, status: nat, next: Id)
    requires Booked(s.tally.held, s.settled, s.next) && id < next && s.next <= next && id !in s.settled
    ensures Booked(s.tally.held, s.settled[id := Rejected(status)], next)
  {
  }

  // ---- The whole invariant is kept by each step ----

  lemma SettleKeepsInv(c: Config, s: State, status: nat)
    requires Inv(c, s)
    ensures Inv(c, Settle(s, Rejected(status)))
  {
    hide Permits.Counted, WellQueued, Named, Within, Booked, Accounted;
    FreshIsOpen(s);
    SettleKeepsWithin(c, s, Rejected(status));
    SettleKeepsAccounted(s, Rejected(status), 0, 0);
    SettleKeepsNamed(s.line, s.settled, s.next, Rejected(status));
    RejectKeepsBooked(s, s.next, status, s.next + 1);
  }

  lemma DirectGrantKeepsInv(c: Config, s: State, user: Name, token: Name)
    requires Inv(c, s) && CanStart(c, s, user, token) && !c.maxInflight.Reached(Inflight(s, user))
    ensures Inv(c, DirectGrant(s, user, token))
  {
    hide Permits.Counted, WellQueued, Named, Within, Booked, Accounted;
    FreshIsOpen(s);
    DirectGrantKeepsWithin(c, s, user, token);
    SettleKeepsAccounted(s, Granted, user, token);
    Permits.GrantKeepsCounted(s.tally, s.next, Permits.Holder(user, token, ()));
    SettleKeepsNamed(s.line, s.settled, s.next, Granted);
    HoldKeepsBooked(s, s.next, Permits.Holder(user, token, ()), s.next + 1);
  }

  lemma ArriveKeepsInv(c: Config, s: State, user: Name, token: Name)
    requires Inv(c, s)
    requires !c.maxInflight.Reached(Inflight(s, user)) && !c.queueMax.Reached(Queued(s.line))
    ensures Inv(c, Arrive(s, user, token))
  {
    hide Permits.Counted, WellQueued, Named, Within, Booked, Accounted;
    FreshIsOpen(s);
    ArriveKeepsWithin(c, s, user, token);
    ArriveKeepsAccounted(s, user, token);
    EnqueueKeepsLine(s.line, Waiter(s.next, user, token, ()));
    EnqueueKeepsNamed(s.line, s.settled, Waiter(s.next, user, token, ()));
  }

  lemma ServedQueues(line: Line<()>, k: nat)
    requires k < |line.waiting| && Queue(line, line.waiting[k]) != []
    ensures forall v :: Queue(ServeAt(line, k, 0), v) ==
              if v == line.waiting[k] then Without(Queue(line, v), 0) else Queue(line, v)
  {
  }

  lemma GrantAtKeepsInv(c: Config, s: State, k: nat)
    requires Inv(c, s) && k < |s.line.waiting| && HeadCanStart(c, s, k)
    ensures Inv(c, GrantAt(s, k))
    ensures Queue(s.line, s.line.waiting[k])[0].id !in s.settled
  {
    hide Permits.Counted, WellQueued, Named, Within, Booked, Accounted, CanStart, ServeAt;
    var user := s.line.waiting[k];
    var w := Queue(s.line, user)[0];
    ServedQueues(s.line, k);
    WaiterIsOpen(s, user, 0);
    GrantAtKeepsWithin(c, s, k);
    GrantAtKeepsAccounted(s, k);
    ServeAtKeepsLine(s.line, k, 0);
    LeaveKeepsNamed(s.line, ServeAt(s.line, k, 0), s.settled, s.next, user, 0, Granted);
    Permits.GrantKeepsCounted(s.tally, w.id, Permits.Holder(user, w.token, ()));
    HoldKeepsBooked(s, w.id, Permits.Holder(user, w.token, ()), s.next);
  }

  lemma DepartKeepsInv(c: Config, s: State, user: Name, id: Id, status: nat)
    requires Inv(c, s) && IsPending(s.line, user, id)
    ensures Inv(c, Depart(s, user, id, status))
    ensures id !in s.settled
  {
    var i := Position(Queue(s.line, user), id);
    hide Permits.Counted, WellQueued, Named, Within, Booked, Accounted;
    WaiterIsOpen(s, user, i);
    DepartKeepsWithin(c, s, user, id, status);
    DepartKeepsAccounted(s, user, id, status);
    RemoveKeepsLine(s.line, user, i);
    LeaveKeepsNamed(s.line, Remove(s.line, user, i), s.settled, s.next, user, i, Rejected(status));
    RejectKeepsBooked(s, id, status, s.next);
  }

  lemma FreeKeepsInv(c: Config, s: State, id: Id)
    requires Inv(c, s) && id in s.tally.held
    ensures Inv(c, Free(s, id))
  {
    hide Permits.Counted, WellQueued, Named, Within, Booked, Accounted;
    FreeKeepsBooked(s, id);
    FreeKeepsWithin(c, s, id);
    Permits.FreeKeepsCounted(s.tally, id);
  }

  lemma {:induction false} DrainKeepsInv(c: Config, s: State)
    requires Inv(c, s)
    ensures Inv(c, Drain(c, s))
    decreases c.maxConcurrent - s.tally.active
  {
    hide Inv;
    if !Quiescent(c, s) {
      GrantAtKeepsInv(c, s, First(c, s));
      DrainKeepsInv(c, GrantAt(s, First(c, s)));
    }
  }
}
