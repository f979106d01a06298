/** What each call of the image relay's store charges: a submission counts for exactly what it
    was quoted, against its owner's and its account's day, until it is known to have cost
    nothing; and what becomes of the task with it. */
module RelayOutcomes {
  import opened Sums
  import opened RelayTasks
  import opened RelayQuota

  lemma SpentInsert(quota: Quota, k: QuotaId, row: Reservation, sel: Selection)
    requires k !in quota
    ensures Spent(quota[k := row], sel) == Spent(quota, sel) + if sel.Selects(row) then row.Counted() else 0
  {
    var weights := Weights(quota, sel);
    if sel.Selects(row) {
      TotalInsert(weights, k, row.Counted());
      assert Weights(quota[k := row], sel) == weights[k := row.Counted()];
    } else {
      assert Weights(quota[k := row], sel) == weights;
    }
  }

  lemma SpentUpdate(quota: Quota, k: QuotaId, row: Reservation, sel: Selection)
    requires k in quota && row.SameCharge(quota[k])
    ensures Spent(quota[k := row], sel) ==
              Spent(quota, sel) + if sel.Selects(row) then row.Counted() - quota[k].Counted() else 0
  {
    var weights := Weights(quota, sel);
    if sel.Selects(row) {
      TotalUpdate(weights, k, row.Counted());
      assert Weights(quota[k := row], sel) == weights[k := row.Counted()];
    } else {
      assert Weights(quota[k := row], sel) == weights;
    }
  }

  // ---- New charges ----

  /** One row is new: it reserves the quoted amount under the limits, and counts for exactly
      that on its owner's and its account's day and nowhere else. */
  ghost predicate Reserves(early: Quota, late: Quota, id: Id, owner: Name, q: Quote) {
    && Of(id) !in early && late.Keys == early.Keys + {Of(id)}
    && (forall k :: k in early ==> late[k] == early[k])
    && late[Of(id)].state == Reserved && late[Of(id)].guarded && late[Of(id)].amount == q.amount
    && late[Of(id)].account == q.account
    && forall sel: Selection :: Spent(late, sel) == Spent(early, sel) +
         if sel == OfOwner(owner, q.period) || sel == OfAccount(q.provider, q.account, q.period) then q.amount else 0
  }

  /** The day's total and the amount together are within the limit. */
  ghost predicate OwnerHasRoom(policy: Policy, quota: Quota, owner: Name, q: Quote) {
    Spent(quota, OfOwner(owner, q.period)) + q.amount <= policy.ownerLimit
  }

  ghost predicate AccountHasRoom(policy: Policy, quota: Quota, q: Quote) {
    Spent(quota, OfAccount(q.provider, q.account, q.period)) + q.amount <=
      if q.provider == OpenAI then policy.openaiLimit else policy.seedreamLimit
  }

  lemma NewCharge(early: Quota, id: Id, owner: Name, q: Quote)
    requires Of(id) !in early
    ensures Reserves(early, early[Of(id) := NewReservation(owner, q, Reserved, true)], id, owner, q)
  {
    hide Spent;
    var row := NewReservation(owner, q, Reserved, true);
    forall sel: Selection
      ensures Spent(early[Of(id) := row], sel) == Spent(early, sel) +
                if sel == OfOwner(owner, q.period) || sel == OfAccount(q.provider, q.account, q.period)
                then q.amount else 0
    {
      SpentInsert(early, Of(id), row, sel);
    }
  }

  /** Whoever waits or runs: in all, or of one owner. */
  function Unfinished(tasks: Tasks): set<Id> {
    set id | id in tasks && tasks[id].status in {Queued, Running}
  }

  function UnfinishedOf(tasks: Tasks, owner: Name): set<Id> {
    set id | id in tasks && tasks[id].owner == owner && tasks[id].status in {Queued, Running}
  }

  /** A submission under a new key is created exactly if there is a place for it, for its owner
      too, and both days have room for what it was quoted; then it is queued and charged. */
  lemma CreateExactly(policy: Policy, s: Store, n: Submission, now: nat)
    requires forall id :: id in s.tasks ==> !(s.tasks[id].owner == n.owner && s.tasks[id].key == Some(n.key))
    ensures var t, reply := CreateStep(policy, s, n, now), CreateReply(policy, s, n);
            if |Unfinished(s.tasks)| >= n.queueMax then reply == Refused(QueueFull) && t == s
            else if |UnfinishedOf(s.tasks, n.owner)| >= n.ownerTaskMax then reply == Refused(OwnerTasksFull) && t == s
            else if !OwnerHasRoom(policy, s.quota, n.owner, n.quote) then reply == Refused(OwnerQuota) && t == s
            else if !AccountHasRoom(policy, s.quota, n.quote) then reply == Refused(ProviderQuota) && t == s
            else if n.id in s.tasks || Of(n.id) in s.quota then reply == Refused(DuplicateId) && t == s
            else
              && reply == Created && Reserves(s.quota, t.quota, n.id, n.owner, n.quote)
              && t.tasks == s.tasks[n.id := Task(n.owner, Some(n.key), Some(n.fingerprint), Some(n.provider),
                                                 n.inputBytes, Queued, [], None, None, 0, now)]
  {
    hide Spent, Reserves;
    assert Unfinished(s.tasks) == ActiveIds(s.tasks);
    assert UnfinishedOf(s.tasks, n.owner) == ActiveIdsOf(s.tasks, n.owner);
    var found := FindByIdempotency(s.tasks, n.owner, n.key);
    assert found.None?;
    hide FindByIdempotency, ActiveIds, ActiveIdsOf;
    if Of(n.id) !in s.quota { NewCharge(s.quota, n.id, n.owner, n.quote); }
  }

  /** Before a queued task without a row may run, it is charged in the same way; a row for
      another account stops it, and any other row stays as it is. */
  lemma EnsureExactly(policy: Policy, s: Store, id: Id, q: Quote)
    ensures var t, reply := EnsureStep(policy, s, id, q), EnsureReply(policy, s, id, q);
            if Of(id) in s.quota then
              t == s && reply == if s.quota[Of(id)].account == q.account then Reused(id) else Refused(AccountChanged)
            else if id !in s.tasks || s.tasks[id].status != Queued then t == s && reply == Reused(id)
            else if !OwnerHasRoom(policy, s.quota, s.tasks[id].owner, q) then t == s && reply == Refused(OwnerQuota)
            else if !AccountHasRoom(policy, s.quota, q) then t == s && reply == Refused(ProviderQuota)
            else reply == Created && t.tasks == s.tasks && Reserves(s.quota, t.quota, id, s.tasks[id].owner, q)
  {
    hide Spent, Reserves;
    if Of(id) !in s.quota && id in s.tasks { NewCharge(s.quota, id, s.tasks[id].owner, q); }
  }

  // ---- What becomes of a charge ----

  /** The row of the task moves to `state` if it is in one of the states `from`, and every
      total falls by exactly what is released by that. */
  ghost predicate Moves(early: Quota, late: Quota, id: Id, from: set<QuotaState>, state: QuotaState) {
    && late.Keys == early.Keys && (forall k :: k in early && k != Of(id) ==> late[k] == early[k])
    && (Of(id) in early ==>
          && late[Of(id)].SameCharge(early[Of(id)])
          && late[Of(id)].state == if early[Of(id)].state in from then state else early[Of(id)].state)
    && forall sel: Selection :: Spent(late, sel) == Spent(early, sel) -
         if Of(id) in early && early[Of(id)].state in from && state == Released && sel.Selects(early[Of(id)])
         then early[Of(id)].amount else 0
  }

  lemma MoveExactly(s: Store, id: Id, from: set<QuotaState>, state: QuotaState)
    requires Released !in from
    ensures Moves(s.quota, Move(s, id, from, state).quota, id, from, state)
  {
    hide Spent;
    var t := Move(s, id, from, state);
    forall sel: Selection
      ensures Spent(t.quota, sel) == Spent(s.quota, sel) -
                if Of(id) in s.quota && s.quota[Of(id)].state in from && state == Released
                  && sel.Selects(s.quota[Of(id)])
                then s.quota[Of(id)].amount else 0
    {
      if Of(id) in s.quota && s.quota[Of(id)].state in from { SpentUpdate(s.quota, Of(id), t.quota[Of(id)], sel); }
    }
  }

  /** No other task changes; this one, if it exists, becomes `task`. */
  predicate Updates(early: Tasks, late: Tasks, id: Id, task: Task) {
    late == if id in early then early[id := task] else early
  }

  const NOBODY := Task(0, None, None, None, 0, Queued, [], None, None, 0, 0)

  function TaskOf(s: Store, id: Id): Task { if id in s.tasks then s.tasks[id] else NOBODY }

  /** A removed task gives back what was still reserved for it; one that a provider's receipt
      was recorded for never gives anything back. */
  lemma RemoveExactly(s: Store, id: Id, receipt: Name, now: nat)
    ensures var t := RemoveAndRelease(s, id);
            t.tasks == s.tasks - {id} && Moves(s.quota, t.quota, id, {Reserved}, Released)
    ensures var t, task := AppendReceipt(s, id, receipt, now), TaskOf(s, id);
            && Updates(s.tasks, t.tasks, id, task.(receipts := task.receipts + [receipt], updated := now))
            && Moves(s.quota, t.quota, id, {Reserved, OutcomeUnknown}, OutcomeUnknown)
  {
    hide Moves;
    MoveExactly(s, id, {Reserved}, Released);
    var r := if id !in s.tasks then s
      else SetTask(s, id, s.tasks[id].(receipts := s.tasks[id].receipts + [receipt], updated := now));
    MoveExactly(r, id, {Reserved, OutcomeUnknown}, OutcomeUnknown);
  }

  /** A failed admission is tried again three times at most, if the task has no receipt; the
      fourth failure gives its charge back. */
  lemma RetryExactly(s: Store, id: Id, now: nat)
    ensures var t, reply, task := RetryStep(s, id, now), RetryReply(s, id), TaskOf(s, id);
            if id !in s.tasks || task.status !in {Queued, Running} || task.receipts != [] then
              reply == Ineligible && t == s
            else if task.retries < 3 then
              && reply == Requeued && t.quota == s.quota
              && Updates(s.tasks, t.tasks, id, task.(status := Queued, retries := task.retries + 1, updated := now))
            else
              && reply == Exhausted && Moves(s.quota, t.quota, id, {Reserved}, Released)
              && Updates(s.tasks, t.tasks, id, task.(status := Failed, retries := task.retries + 1, updated := now))
  {
    hide Moves;
    if id in s.tasks {
      var failed := s.tasks[id].(status := Failed, retries := s.tasks[id].retries + 1, updated := now);
      MoveExactly(SetTask(s, id, failed), id, {Reserved}, Released);
    }
  }

  /** A result that misses nothing settles its charge, any other holds it as unknown; so does
      a result restored after a crash, even over a settled charge. */
  lemma SucceedExactly(s: Store, id: Id, complete: bool, now: nat)
    ensures var t, task := MarkSucceeded(s, id, complete, now), TaskOf(s, id);
            && Updates(s.tasks, t.tasks, id, task.(status := Succeeded, complete := Some(complete), updated := now))
            && Moves(s.quota, t.quota, id, {Reserved, OutcomeUnknown}, if complete then Settled else OutcomeUnknown)
    ensures var t, task := RecoverSucceeded(s, id, now), TaskOf(s, id);
            if id in s.tasks && task.status == FailedUnknown && task.receipts != [] && task.acknowledgedAt == None then
              && Updates(s.tasks, t.tasks, id, task.(status := Succeeded, complete := Some(false), updated := now))
              && Moves(s.quota, t.quota, id, {Reserved, OutcomeUnknown, Settled}, OutcomeUnknown)
            else t == s
  {
    hide Moves;
    if id in s.tasks {
      var task := s.tasks[id];
      MoveExactly(SetTask(s, id, task.(status := Succeeded, complete := Some(complete), updated := now)), id,
          {Reserved, OutcomeUnknown}, if complete then Settled else OutcomeUnknown);
      MoveExactly(SetTask(s, id, task.(status := Succeeded, complete := Some(false), updated := now)), id,
          {Reserved, OutcomeUnknown, Settled}, OutcomeUnknown);
    } else {
      MoveExactly(s, id, {Reserved, OutcomeUnknown}, if complete then Settled else OutcomeUnknown);
    }
  }

  /** A failure that is known to have cost nothing gives back what is still reserved, an unknown
      one holds it, and only a queued task is cancelled. */
  lemma FailExactly(s: Store, id: Id, now: nat)
    ensures var t, task := MarkKnownFailed(s, id, now), TaskOf(s, id);
            && Updates(s.tasks, t.tasks, id, task.(status := Failed, updated := now))
            && Moves(s.quota, t.quota, id, {Reserved}, Released)
    ensures var t, task := MarkOutcomeUnknown(s, id, now), TaskOf(s, id);
            && Updates(s.tasks, t.tasks, id, task.(status := FailedUnknown, updated := now))
            && Moves(s.quota, t.quota, id, {Reserved, OutcomeUnknown}, OutcomeUnknown)
    ensures var t, task := CancelQueued(s, id, now), TaskOf(s, id);
            if id in s.tasks && task.status == Queued then
              && Updates(s.tasks, t.tasks, id, task.(status := Cancelled, updated := now))
              && Moves(s.quota, t.quota, id, {Reserved}, Released)
            else t == s
  {
    hide Moves;
    MoveExactly(SetStatus(s, id, Failed, now), id, {Reserved}, Released);
    MoveExactly(SetStatus(s, id, FailedUnknown, now), id, {Reserved, OutcomeUnknown}, OutcomeUnknown);
    MoveExactly(SetStatus(s, id, Cancelled, now), id, {Reserved}, Released);
  }

  /** Starting and confirming a task touch no charge. */
  lemma StartExactly(s: Store, id: Id, now: nat)
    ensures var t, task := MarkRunning(s, id, now), TaskOf(s, id);
            t.quota == s.quota && Updates(s.tasks, t.tasks, id, task.(status := Running, updated := now))
    ensures var t, task := Acknowledge(s, id, now), TaskOf(s, id);
            && t.quota == s.quota
            && if id in s.tasks && task.acknowledgedAt == None
               then Updates(s.tasks, t.tasks, id, task.(acknowledgedAt := Some(now), updated := now))
               else t == s
  {
  }

  // ---- Opening and sweeping ----

  /** A row at the price of work that was never quoted. */
  predicate LegacyCharge(policy: Policy, quota: Quota, k: QuotaId, owner: Name, p: Provider, day: nat,
                         state: QuotaState) {
    && k in quota && quota[k].owner == owner && quota[k].provider == p && quota[k].period == day
    && quota[k].state == state && !quota[k].guarded
    && (if p == OpenAI then quota[k].account == policy.openaiAccount && quota[k].amount == policy.openaiLegacy
        else quota[k].account == policy.seedreamAccount && quota[k].amount == policy.seedreamLegacy)
  }

  /** Finished work of this day that no row accounts for. */
  predicate Unaccounted(s: Store, k: QuotaId, now: nat) {
    && k.LegacyOf? && k !in s.quota && k.task in s.tasks && Of(k.task) !in s.quota
    && var task := s.tasks[k.task];
       && task.updated / DAY_MS == now / DAY_MS && (task.status == Succeeded || task.receipts != [])
       && (task.provider.None? || task.provider.value == k.provider)
  }

  /** A running task without a row. */
  predicate Uncharged(s: Store, k: QuotaId) {
    k.Of? && k !in s.quota && k.task in s.tasks && s.tasks[k.task].status == Running
  }

  /** The row charges the same; if any task was running, what is reserved for a task of unknown
      outcome is held as unknown, and no other state changes. */
  predicate StillCharged(early: Store, late: Store, k: QuotaId) {
    && k in early.quota && k in late.quota && late.quota[k].SameCharge(early.quota[k])
    && late.quota[k].state ==
       if (exists id :: id in early.tasks && early.tasks[id].status == Running)
         && early.quota[k].state == Reserved
         && k.Of? && k.task in late.tasks && late.tasks[k.task].status == FailedUnknown
       then OutcomeUnknown else early.quota[k].state
  }

  predicate Backfilled(policy: Policy, s: Store, quota: Quota, k: QuotaId, now: nat) {
    k.LegacyOf? && k.task in s.tasks && LegacyCharge(
      policy, quota, k, s.tasks[k.task].owner, k.provider, now / DAY_MS,
      if s.tasks[k.task].status == Succeeded then Settled else OutcomeUnknown)
  }

  predicate ChargedAgain(policy: Policy, s: Store, quota: Quota, k: QuotaId, now: nat) {
    k.Of? && k.task in s.tasks && LegacyCharge(
      policy, quota, k, s.tasks[k.task].owner,
      if s.tasks[k.task].provider == Some(Seedream) then Seedream else OpenAI, now / DAY_MS, OutcomeUnknown)
  }

  predicate Stopped(early: Tasks, late: Tasks, now: nat) {
    && late.Keys == early.Keys
    && forall id :: id in early ==>
         late[id] == if early[id].status == Running then early[id].(status := FailedUnknown, updated := now)
                     else early[id]
  }

  /** Opening adds exactly the charges that are missing, each at the price of its provider and to
      its owner and day, leaves every other row but the state of those whose outcome became
      unknown, and changes no task but the running ones. */
  lemma OpenExactly(policy: Policy, s: Store, now: nat)
    ensures var t := Step(policy, s, Open, now);
            && Stopped(s.tasks, t.tasks, now)
            && (forall k :: k in t.quota <==> k in s.quota || Unaccounted(s, k, now) || Uncharged(s, k))
            && (forall k :: k in s.quota ==> StillCharged(s, t, k))
            && (forall k :: Unaccounted(s, k, now) ==> Backfilled(policy, s, t.quota, k, now))
            && (forall k :: Uncharged(s, k) ==> ChargedAgain(policy, s, t.quota, k, now))
  {
    hide Backfill, Recover, Stopped;
    var b := Backfill(policy, s, now);
    BackfillExactly(policy, s, now);
    RecoverExactly(policy, b, now);
    assert forall k :: Uncharged(b, k) <==> Uncharged(s, k);
  }

  lemma BackfillExactly(policy: Policy, s: Store, now: nat)
    ensures var t := Backfill(policy, s, now);
            && t.tasks == s.tasks && (forall k :: k in s.quota ==> k in t.quota && t.quota[k] == s.quota[k])
            && (forall k :: k in t.quota <==> k in s.quota || Unaccounted(s, k, now))
            && (forall k :: Unaccounted(s, k, now) ==> Backfilled(policy, s, t.quota, k, now))
  {
    forall k: QuotaId | k.LegacyOf? && k.task in s.tasks ensures k in LegacyIds(s.tasks) {
      LegacyIdsHold(s.tasks, k.task, k.provider);
    }
    hide LegacyIds;
  }

  lemma LegacyIdsHold(tasks: Tasks, id: Id, p: Provider)
    requires id in tasks
    ensures LegacyOf(id, p) in LegacyIds(tasks)
  {
    if p == OpenAI {
      assert LegacyOf(id, OpenAI) in LegacyIds(tasks);
    } else {
      assert LegacyOf(id, Seedream) in LegacyIds(tasks);
    }
  }

  lemma RecoverExactly(policy: Policy, s: Store, now: nat)
    ensures var t := Recover(policy, s, now);
            && Stopped(s.tasks, t.tasks, now)
            && (forall k :: k in t.quota <==> k in s.quota || Uncharged(s, k))
            && (forall k :: k in s.quota ==> StillCharged(s, t, k))
            && (forall k :: Uncharged(s, k) ==> ChargedAgain(policy, s, t.quota, k, now))
  {
    if ActiveRunning(s.tasks) == {} {
      forall id | id in s.tasks ensures s.tasks[id].status != Running { assert id !in ActiveRunning(s.tasks); }
      assert forall k :: k in s.quota ==> StillCharged(s, s, k);
    } else {
      RecoveredExactly(policy, s, now);
    }
  }

  lemma RecoveredExactly(policy: Policy, s: Store, now: nat)
    requires ActiveRunning(s.tasks) != {}
    ensures var t := Recover(policy, s, now);
            && Stopped(s.tasks, t.tasks, now)
            && (forall k :: k in t.quota <==> k in s.quota || Uncharged(s, k))
            && (forall k :: k in s.quota ==> StillCharged(s, t, k))
            && (forall k :: Uncharged(s, k) ==> ChargedAgain(policy, s, t.quota, k, now))
  {
    RecoveredTasks(policy, s, now);
    RecoveredRows(policy, s, now);
    hide Recover, Stopped;
  }

  lemma RecoveredTasks(policy: Policy, s: Store, now: nat)
    requires ActiveRunning(s.tasks) != {}
    ensures Stopped(s.tasks, Recover(policy, s, now).tasks, now)
  {
  }

  lemma RecoveredRows(policy: Policy, s: Store, now: nat)
    requires ActiveRunning(s.tasks) != {}
    ensures var t := Recover(policy, s, now);
            && (forall k :: k in t.quota <==> k in s.quota || Uncharged(s, k))
            && (forall k :: k in s.quota ==> StillCharged(s, t, k))
            && (forall k :: Uncharged(s, k) ==> ChargedAgain(policy, s, t.quota, k, now))
  {
    var id :| id in ActiveRunning(s.tasks);
    assert id in s.tasks && s.tasks[id].status == Running;
    hide ActiveRunning, Interrupted;
  }

  /** A sweep drops exactly the finished tasks past their time, an unconfirmed result having its
      own, and the rows of earlier days that nothing is reserved in. */
  lemma SweepExactly(policy: Policy, s: Store, terminal: nat, unconfirmed: nat, period: nat, now: nat)
    ensures var t := Step(policy, s, Sweep(terminal, unconfirmed, period), now);
            && (forall id :: id in t.tasks ==> id in s.tasks && t.tasks[id] == s.tasks[id])
            && (forall id :: id in s.tasks ==> (id in t.tasks <==>
                  var task := s.tasks[id];
                  || task.status in {Queued, Running}
                  || task.updated >= if task.status == Succeeded && task.acknowledgedAt == None
                                     then unconfirmed else terminal))
            && (forall k :: k in t.quota ==> k in s.quota && t.quota[k] == s.quota[k])
            && (forall k :: k in s.quota ==>
                  (k in t.quota <==> s.quota[k].state == Reserved || s.quota[k].period >= period))
  {
  }

  // ---- Over whole runs ----

  lemma StepKeepsCharge(policy: Policy, s: Store, e: Event, now: nat, k: QuotaId)
    requires k in s.quota
    ensures var late := Step(policy, s, e, now).quota; k in late ==> late[k].SameCharge(s.quota[k])
  {
    hide Expired, OwnerFull, ProviderFull, FindByIdempotency;
  }

  /** While it is kept, a row charges the same amount to the same owner, account and day. */
  lemma {:induction false} ChargeForGood(policy: Policy, start: Store, events: seq<Timed>, k: QuotaId)
    requires k in start.quota
    requires forall i :: 0 <= i <= |events| ==> k in Run(policy, start, events[..i]).quota
    ensures var quota := Run(policy, start, events).quota; k in quota && quota[k].SameCharge(start.quota[k])
    decreases |events|
  {
    hide Step;
    assert events[..|events|] == events;
    if events != [] {
      var before := events[..|events| - 1];
      forall i | 0 <= i <= |before| ensures k in Run(policy, start, before[..i]).quota {
        assert before[..i] == events[..i];
      }
      ChargeForGood(policy, start, before, k);
      StepKeepsCharge(policy, Run(policy, start, before), events[|events| - 1].event, events[|events| - 1].now, k);
    }
  }

  lemma {:induction false} RunMore(policy: Policy, start: Store, a: seq<Timed>, b: seq<Timed>)
    ensures Run(policy, start, a + b) == Run(policy, Run(policy, start, a), b)
    decreases |b|
  {
    hide Step;
    if b == [] {
      assert a + b == a;
    } else {
      RunMore(policy, start, a, b[..|b| - 1]);
      assert (a + b)[..|a + b| - 1] == a + b[..|b| - 1];
    }
  }

  /** A run takes its events one by one. */
  lemma RunNext(policy: Policy, start: Store, events: seq<Timed>, e: Event, now: nat)
    ensures Run(policy, start, []) == start
    ensures Run(policy, start, events + [Timed(e, now)]) == Step(policy, Run(policy, start, events), e, now)
  {
    hide Step;
    assert (events + [Timed(e, now)])[..|events|] == events;
  }

  /** The i-th event creates this submission, and its row is kept from then on. */
  ghost predicate CreatesAndKeeps(policy: Policy, start: Store, events: seq<Timed>, i: nat, n: Submission) {
    && i < |events| && events[i].event == Create(n)
    && CreateReply(policy, Run(policy, start, events[..i]), n) == Created
    && forall j :: i < j <= |events| ==> Of(n.id) in Run(policy, start, events[..j]).quota
  }

  lemma CreatedCharge(policy: Policy, start: Store, events: seq<Timed>, i: nat, n: Submission)
    requires CreatesAndKeeps(policy, start, events, i, n)
    ensures var quota := Run(policy, start, events).quota;
            && Of(n.id) in quota && quota[Of(n.id)].guarded && quota[Of(n.id)].amount == n.quote.amount
            && OfOwner(n.owner, n.quote.period).Selects(quota[Of(n.id)])
            && OfAccount(n.quote.provider, n.quote.account, n.quote.period).Selects(quota[Of(n.id)])
  {
    hide Run, CreateReply, CreateStep;
    var created, rest := Run(policy, start, events[..i + 1]), events[i + 1..];
    CreatedRow(policy, start, events, i, n);
    KeptSince(policy, start, events, i, n);
    ChargeForGood(policy, created, rest, Of(n.id));
    assert events == events[..i + 1] + rest;
    RunMore(policy, start, events[..i + 1], rest);
  }

  lemma CreatedRow(policy: Policy, start: Store, events: seq<Timed>, i: nat, n: Submission)
    requires CreatesAndKeeps(policy, start, events, i, n)
    ensures var quota := Run(policy, start, events[..i + 1]).quota;
            && Of(n.id) in quota && quota[Of(n.id)].guarded && quota[Of(n.id)].amount == n.quote.amount
            && OfOwner(n.owner, n.quote.period).Selects(quota[Of(n.id)])
            && OfAccount(n.quote.provider, n.quote.account, n.quote.period).Selects(quota[Of(n.id)])
  {
    hide CreateReply, Run;
    assert events[..i + 1] == events[..i] + [Timed(Create(n), events[i].now)];
    RunNext(policy, start, events[..i], Create(n), events[i].now);
  }

  lemma KeptSince(policy: Policy, start: Store, events: seq<Timed>, i: nat, n: Submission)
    requires CreatesAndKeeps(policy, start, events, i, n)
    ensures var created, rest := Run(policy, start, events[..i + 1]), events[i + 1..];
            forall j :: 0 <= j <= |rest| ==> Of(n.id) in Run(policy, created, rest[..j]).quota
  {
    hide Run, CreateReply;
    var created, rest := Run(policy, start, events[..i + 1]), events[i + 1..];
    forall j | 0 <= j <= |rest| ensures Of(n.id) in Run(policy, created, rest[..j]).quota {
      RunMore(policy, start, events[..i + 1], rest[..j]);
      assert events[..i + 1] + rest[..j] == events[..i + 1 + j];
    }
  }

  /** Two submissions of one owner and day, or of one account and day, whose quotes together
      exceed the limit are never both charged. */
  lemma NeverBothCharged(policy: Policy, events: seq<Timed>, i: nat, j: nat, a: Submission, b: Submission)
    requires CreatesAndKeeps(policy, Store(map[], map[]), events, i, a) && a.id != b.id
    requires CreatesAndKeeps(policy, Store(map[], map[]), events, j, b)
    requires var quota := Run(policy, Store(map[], map[]), events).quota;
             && (Of(a.id) in quota ==> quota[Of(a.id)].state != Released)
             && (Of(b.id) in quota ==> quota[Of(b.id)].state != Released)
    requires a.quote.period == b.quote.period
    ensures a.owner == b.owner ==> a.quote.amount + b.quote.amount <= policy.ownerLimit
    ensures a.quote.provider == b.quote.provider && a.quote.account == b.quote.account ==>
              a.quote.amount + b.quote.amount <=
                if a.quote.provider == OpenAI then policy.openaiLimit else policy.seedreamLimit
  {
    var empty := Store(map[], map[]);
    CreatedCharge(policy, empty, events, i, a);
    CreatedCharge(policy, empty, events, j, b);
    var quota := Run(policy, empty, events).quota;
    var owner, account := OfOwner(a.owner, a.quote.period),
      OfAccount(a.quote.provider, a.quote.account, a.quote.period);
    RunKeepsBound(policy, empty, events, owner);
    RunKeepsBound(policy, empty, events, account);
    hide Run;
    NothingGuarded(owner);
    NothingGuarded(account);
    if a.owner == b.owner { TotalTwo(GuardedWeights(quota, owner, true), Of(a.id), Of(b.id)); }
    if a.quote.provider == b.quote.provider && a.quote.account == b.quote.account {
      TotalTwo(GuardedWeights(quota, account, true), Of(a.id), Of(b.id));
    }
  }

  lemma NothingGuarded(sel: Selection)
    ensures GuardedSpent(map[], sel) == 0
  {
    assert GuardedWeights(map[], sel, true) == map[];
  }
}
