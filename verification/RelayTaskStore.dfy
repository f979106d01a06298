/** TaskStore of relay/app.ts as the class it is: every method is one transaction on the two
    tables, proved against the specification RelayTasks. */
module RelayStoring {
  import opened Sums
  import opened RelayTasks
  import opened RelayQuota

  class TaskStore {
    const policy: Policy
    var tasks: Tasks
    var quota: Quota

    function View(): Store
      reads this
    {
      Store(tasks, quota)
    }

    ghost predicate Valid()
      reads this
    {
      UniqueKeys(tasks)
    }

    /** Opens the tables that a previous process left: legacy spending is charged, and what
        was running is unknown and keeps a charge. */
    constructor (policy: Policy, previous: Store, now: nat)
      requires UniqueKeys(previous.tasks)
      ensures Valid() && this.policy == policy
      ensures View() == Step(policy, previous, Open, now)
      ensures forall id :: id in tasks ==> tasks[id].status != Running
      ensures forall id :: id in previous.tasks && previous.tasks[id].status == Running ==> HeldAsUnknown(View(), id)
    {
      StepKeepsUniqueKeys(policy, previous, Open, now);
      hide UniqueKeys, Recover, Backfill;
      this.policy := policy;
      tasks, quota := previous.tasks, previous.quota;
      new;
      BackfillLegacyTerminalQuota(now);
      OpenedTables(policy, previous, now);
      RecoverRunning(now);
    }

    /** Charges finished work of this day that no row accounts for, task by task. */
    method BackfillLegacyTerminalQuota(now: nat)
      modifies this`quota
      ensures View() == Backfill(policy, old(View()), now)
    {
      ghost var start := View();
      var rest := tasks.Keys;
      while rest != {}
        invariant rest <= tasks.Keys
        invariant forall k :: k in quota <==> k in start.quota || (NeedsBackfill(start, k, now) && k.task !in rest)
        invariant forall k :: k in start.quota ==> quota[k] == start.quota[k]
        invariant forall k :: NeedsBackfill(start, k, now) && k.task !in rest ==>
                quota[k] == LegacyRow(policy, tasks[k.task], k.provider)
        decreases |rest|
      {
        var id :| id in rest;
        var task := tasks[id];
        if Day(task.updated) == Day(now) && (task.status == Succeeded || task.receipts != []) && Of(id) !in quota {
          ChargeLegacy(id, task);
        }
        rest := rest - {id};
      }
      BackfilledRows(policy, start, quota, now);
    }

    /** A task whose provider is not known is charged to both; rows that exist are kept. */
    method ChargeLegacy(id: Id, task: Task)
      modifies this`quota
      ensures forall k: QuotaId ::
                k in quota <==> k in old(quota) || (k.LegacyOf? && k.task == id && k.provider in ChargedProviders(task))
      ensures forall k :: k in old(quota) ==> quota[k] == old(quota)[k]
      ensures forall k: QuotaId :: k.LegacyOf? && k in quota && k !in old(quota) ==>
              quota[k] == LegacyRow(policy, task, k.provider)
    {
      var providers := if task.provider.Some? then [task.provider.value] else [OpenAI, Seedream];
      for i := 0 to |providers|
        invariant forall k: QuotaId ::
                    k in quota <==> k in old(quota) || (k.LegacyOf? && k.task == id && k.provider in providers[..i])
        invariant forall k :: k in old(quota) ==> quota[k] == old(quota)[k]
        invariant forall k: QuotaId :: k.LegacyOf? && k in quota && k !in old(quota) ==>
                quota[k] == LegacyRow(policy, task, k.provider)
      {
        if LegacyOf(id, providers[i]) !in quota {
          quota := quota[LegacyOf(id, providers[i]) := LegacyRow(policy, task, providers[i])];
        }
      }
      assert providers[..|providers|] == providers;
      assert forall p :: p in providers <==> p in ChargedProviders(task);
    }

    /** One transaction: what runs without a row gets one, and then all of it is unknown. */
    method RecoverRunning(now: nat)
      modifies this
      ensures View() == Recover(policy, old(View()), now)
    {
      ghost var start := View();
      var running := ActiveRunning(tasks);
      if running == {} {
        return;
      }
      InsertLost(running, now);
      FailRunning(now);
      HoldFailed();
      RecoveredTables(policy, start, View(), now);
    }

    method InsertLost(running: set<Id>, now: nat)
      requires running == ActiveRunning(tasks)
      modifies this`quota
      ensures forall k :: k in quota <==> k in old(quota) || LostReservation(old(View()), k)
      ensures forall k :: k in old(quota) ==> quota[k] == old(quota)[k]
      ensures forall k :: LostReservation(old(View()), k) ==> quota[k] == ActiveRow(policy, tasks[k.task], now)
    {
      var rest := running;
      while rest != {}
        invariant rest <= running
        invariant forall k :: k in quota <==> k in old(quota) || (LostReservation(old(View()), k) && k.task !in rest)
        invariant forall k :: k in old(quota) ==> quota[k] == old(quota)[k]
        invariant forall k :: LostReservation(old(View()), k) && k.task !in rest ==>
                quota[k] == ActiveRow(policy, tasks[k.task], now)
        decreases |rest|
      {
        var id :| id in rest;
        if Of(id) !in quota {
          quota := quota[Of(id) := ActiveRow(policy, tasks[id], now)];
        }
        rest := rest - {id};
      }
    }

    method FailRunning(now: nat)
      modifies this`tasks
      ensures tasks.Keys == old(tasks).Keys
      ensures forall id :: id in tasks ==> tasks[id] == Interrupted(old(tasks)[id], now)
    {
      var rest := tasks.Keys;
      while rest != {}
        invariant rest <= tasks.Keys == old(tasks).Keys
        invariant forall id :: id in tasks ==>
                tasks[id] == if id in rest then old(tasks)[id] else Interrupted(old(tasks)[id], now)
        decreases |rest|
      {
        var id :| id in rest;
        if tasks[id].status == Running {
          tasks := tasks[id := tasks[id].(status := FailedUnknown, updated := now)];
        }
        rest := rest - {id};
      }
    }

    /** The charge of every task that failed with an unknown outcome is unknown. */
    method HoldFailed()
      modifies this`quota
      ensures quota.Keys == old(quota).Keys
      ensures forall k :: k in quota ==> quota[k] == HeldUnknown(tasks, k, old(quota)[k])
    {
      var rest := quota.Keys;
      while rest != {}
        invariant rest <= quota.Keys == old(quota).Keys
        invariant forall k :: k in quota ==>
                quota[k] == if k in rest then old(quota)[k] else HeldUnknown(tasks, k, old(quota)[k])
        decreases |rest|
      {
        var k :| k in rest;
        if k.Of? && k.task in tasks && tasks[k.task].status == FailedUnknown
          && quota[k].state in {Reserved, OutcomeUnknown} {
          quota := quota[k := quota[k].(state := OutcomeUnknown)];
        }
        rest := rest - {k};
      }
    }

    method CreateWithReservation(n: Submission, now: nat) returns (reply: Reply)
      requires Valid()
      modifies this
      ensures Valid() && reply == CreateReply(policy, old(View()), n)
      ensures View() == CreateStep(policy, old(View()), n, now)
    {
      StepKeepsUniqueKeys(policy, View(), Create(n), now);
      var existing := LookupKey(n.owner, n.key);
      hide UniqueKeys, ActiveIds, ActiveIdsOf, OwnerFull, ProviderFull, FindByIdempotency;
      if existing.Some? {
        return if tasks[existing.value].fingerprint != Some(n.fingerprint)
               then Refused(IdempotencyConflict) else Reused(existing.value);
      }
      if |ActiveIds(tasks)| >= n.queueMax {
        return Refused(QueueFull);
      }
      if |ActiveIdsOf(tasks, n.owner)| >= n.ownerTaskMax {
        return Refused(OwnerTasksFull);
      }
      var exceeded := CheckQuota(n.owner, n.quote);
      if exceeded.Refused? {
        return exceeded;
      }
      if n.id in tasks || Of(n.id) in quota {
        return Refused(DuplicateId);
      }
      tasks := tasks[n.id := NewTask(n, now)];
      quota := quota[Of(n.id) := NewReservation(n.owner, n.quote, Reserved, true)];
      return Created;
    }

    method EnsureQueuedReservation(id: Id, q: Quote) returns (reply: Reply)
      requires Valid()
      modifies this`quota
      ensures Valid() && reply == EnsureReply(policy, old(View()), id, q)
      ensures View() == EnsureStep(policy, old(View()), id, q)
    {
      hide UniqueKeys, OwnerFull, ProviderFull;
      if Of(id) in quota {
        return if quota[Of(id)].account != q.account then Refused(AccountChanged) else Reused(id);
      }
      if id !in tasks || tasks[id].status != Queued {
        return Reused(id);
      }
      var exceeded := CheckQuota(tasks[id].owner, q);
      if exceeded.Refused? {
        return exceeded;
      }
      quota := quota[Of(id) := NewReservation(tasks[id].owner, q, Reserved, true)];
      return Created;
    }

    /** The owner's limit is tested before the provider account's. */
    method CheckQuota(owner: Name, q: Quote) returns (reply: Reply)
      ensures reply == if OwnerFull(policy, quota, owner, q) then Refused(OwnerQuota)
                       else if ProviderFull(policy, quota, q) then Refused(ProviderQuota) else Created
    {
      var ownerSpent := SumQuota(OfOwner(owner, q.period));
      if ownerSpent + q.amount > policy.ownerLimit {
        return Refused(OwnerQuota);
      }
      var providerSpent := SumQuota(OfAccount(q.provider, q.account, q.period));
      if providerSpent + q.amount > policy.ProviderLimit(q.provider) {
        return Refused(ProviderQuota);
      }
      return Created;
    }

    method SumQuota(sel: Selection) returns (amount: int)
      ensures amount == Spent(quota, sel)
    {
      amount := 0;
      var rest := quota;
      while rest != map[]
        invariant amount + Spent(rest, sel) == Spent(quota, sel)
        decreases |rest|
      {
        var k :| k in rest;
        SpentWithout(rest, sel, k);
        if sel.Selects(rest[k]) && rest[k].state != Released {
          amount := amount + rest[k].amount;
        }
        rest := rest - {k};
      }
      assert Weights(map[], sel) == map[];
    }

    method LookupKey(owner: Name, key: Name) returns (found: Option<Id>)
      requires Valid()
      ensures found == FindByIdempotency(tasks, owner, key)
    {
      var rest := tasks.Keys;
      while rest != {}
        invariant rest <= tasks.Keys
        invariant forall id :: id in tasks && id !in rest ==> !HasKey(tasks, id, owner, key)
        decreases |rest|
      {
        var id :| id in rest;
        if HasKey(tasks, id, owner, key) {
          return Some(id);
        }
        rest := rest - {id};
      }
      return None;
    }

    // ---- One task and its reservation ----

    method UpdateQuota(id: Id, from: set<QuotaState>, state: QuotaState)
      modifies this`quota
      ensures View() == Move(old(View()), id, from, state)
    {
      if Of(id) in quota && quota[Of(id)].state in from {
        quota := quota[Of(id) := quota[Of(id)].(state := state)];
      }
    }

    method UpdateStatus(id: Id, status: Status, now: nat)
      modifies this`tasks
      ensures View() == SetStatus(old(View()), id, status, now)
    {
      if id in tasks {
        tasks := tasks[id := tasks[id].(status := status, updated := now)];
      }
    }

    method RemoveAndReleaseTask(id: Id)
      modifies this
      ensures View() == RemoveAndRelease(old(View()), id)
    {
      UpdateQuota(id, {Reserved}, Released);
      tasks := tasks - {id};
    }

    method AppendProviderReceipt(id: Id, receipt: Name, now: nat)
      modifies this
      ensures View() == AppendReceipt(old(View()), id, receipt, now)
    {
      if id in tasks {
        tasks := tasks[id := tasks[id].(receipts := tasks[id].receipts + [receipt], updated := now)];
      }
      UpdateQuota(id, {Reserved, OutcomeUnknown}, OutcomeUnknown);
    }

    method MarkTaskRunning(id: Id, now: nat)
      modifies this`tasks
      ensures View() == MarkRunning(old(View()), id, now)
    {
      UpdateStatus(id, Running, now);
    }

    method RetryPreProviderAdmission(id: Id, now: nat) returns (reply: Retry)
      modifies this
      ensures reply == RetryReply(old(View()), id) && View() == RetryStep(old(View()), id, now)
    {
      if id !in tasks {
        return Ineligible;
      }
      var current := tasks[id];
      if (current.status != Queued && current.status != Running) || current.receipts != [] {
        return Ineligible;
      }
      var retryCount := current.retries + 1;
      if retryCount > MAX_PRE_PROVIDER_ADMISSION_RETRIES {
        tasks := tasks[id := current.(status := Failed, retries := retryCount, updated := now)];
        UpdateQuota(id, {Reserved}, Released);
        return Exhausted;
      }
      tasks := tasks[id := current.(status := Queued, retries := retryCount, updated := now)];
      return Requeued;
    }

    method MarkTaskSucceeded(id: Id, complete: bool, now: nat)
      modifies this
      ensures View() == MarkSucceeded(old(View()), id, complete, now)
    {
      if id in tasks {
        tasks := tasks[id := tasks[id].(status := Succeeded, complete := Some(complete), updated := now)];
      }
      UpdateQuota(id, {Reserved, OutcomeUnknown}, if complete then Settled else OutcomeUnknown);
    }

    method RecoverSucceededManifestResult(id: Id, now: nat) returns (recovered: bool)
      modifies this
      ensures recovered == Recoverable(old(View()), id)
      ensures View() == RecoverSucceeded(old(View()), id, now)
    {
      if id !in tasks {
        return false;
      }
      var current := tasks[id];
      if current.status != FailedUnknown || current.receipts == [] || current.acknowledgedAt.Some? {
        return false;
      }
      tasks := tasks[id := current.(status := Succeeded, complete := Some(false), updated := now)];
      UpdateQuota(id, {Reserved, OutcomeUnknown, Settled}, OutcomeUnknown);
      return true;
    }

    method MarkKnownFailedAndRelease(id: Id, now: nat)
      modifies this
      ensures View() == MarkKnownFailed(old(View()), id, now)
    {
      UpdateStatus(id, Failed, now);
      UpdateQuota(id, {Reserved}, Released);
    }

    method MarkTaskOutcomeUnknown(id: Id, now: nat)
      modifies this
      ensures View() == MarkOutcomeUnknown(old(View()), id, now)
    {
      UpdateStatus(id, FailedUnknown, now);
      UpdateQuota(id, {Reserved, OutcomeUnknown}, OutcomeUnknown);
    }

    method CancelQueuedAndRelease(id: Id, now: nat) returns (cancelled: bool)
      modifies this
      ensures cancelled == (id in old(tasks) && old(tasks)[id].status == Queued)
      ensures View() == CancelQueued(old(View()), id, now)
    {
      if id !in tasks || tasks[id].status != Queued {
        return false;
      }
      UpdateStatus(id, Cancelled, now);
      UpdateQuota(id, {Reserved}, Released);
      return true;
    }

    method AcknowledgeResult(id: Id, now: nat) returns (at: Option<nat>)
      modifies this`tasks
      ensures View() == Acknowledge(old(View()), id, now)
      ensures at == if id !in old(tasks) then None
                    else if old(tasks)[id].acknowledgedAt.Some? then old(tasks)[id].acknowledgedAt else Some(now)
    {
      if id !in tasks {
        return None;
      }
      var current := tasks[id];
      if current.acknowledgedAt.Some? {
        return current.acknowledgedAt;
      }
      tasks := tasks[id := current.(acknowledgedAt := Some(now), updated := now)];
      return Some(now);
    }

    /** Drops what has expired. Work that is queued or running stays, and so does a delivered
        result until it is confirmed or its own retention time is over, and every charge that
        is still reserved. */
    method SweepTables(terminalCutoff: nat, unacknowledgedCutoff: nat, period: nat) returns (swept: set<Id>)
      modifies this
      ensures View() == SweepQuota(SweepExpired(old(View()), terminalCutoff, unacknowledgedCutoff), period)
      ensures swept == old(tasks).Keys - tasks.Keys
      ensures forall id :: id in old(tasks) && Needed(old(tasks)[id], terminalCutoff, unacknowledgedCutoff) ==>
              id !in swept
      ensures forall id :: id in tasks ==> tasks[id] == old(tasks)[id]
      ensures forall k :: k in old(quota) && (old(quota)[k].state == Reserved || old(quota)[k].period >= period) ==>
              k in quota
      ensures forall k :: k in quota ==> quota[k] == old(quota)[k]
    {
      swept := DeleteExpired(terminalCutoff, unacknowledgedCutoff);
      DeleteQuotaBefore(period);
    }

    method DeleteExpired(terminalCutoff: nat, unacknowledgedCutoff: nat) returns (swept: set<Id>)
      modifies this`tasks
      ensures tasks == SweepExpired(old(View()), terminalCutoff, unacknowledgedCutoff).tasks
      ensures swept == old(tasks).Keys - tasks.Keys
    {
      swept := {};
      var rest := tasks.Keys;
      while rest != {}
        invariant rest <= tasks.Keys && swept == old(tasks).Keys - tasks.Keys
        invariant forall id :: id in tasks <==>
                    id in old(tasks) && (id in rest || !Expired(old(tasks)[id], terminalCutoff, unacknowledgedCutoff))
        invariant forall id :: id in tasks ==> tasks[id] == old(tasks)[id]
        decreases |rest|
      {
        var id :| id in rest;
        if Expired(tasks[id], terminalCutoff, unacknowledgedCutoff) {
          tasks, swept := tasks - {id}, swept + {id};
        }
        rest := rest - {id};
      }
    }

    method DeleteQuotaBefore(period: nat)
      modifies this`quota
      ensures quota == SweepQuota(old(View()), period).quota
    {
      var rest := quota.Keys;
      while rest != {}
        invariant rest <= quota.Keys
        invariant forall k :: k in quota <==>
                    && k in old(quota)
                    && (k in rest || !(old(quota)[k].period < period && old(quota)[k].state != Reserved))
        invariant forall k :: k in quota ==> quota[k] == old(quota)[k]
        decreases |rest|
      {
        var k :| k in rest;
        if quota[k].period < period && quota[k].state in {Settled, Released, OutcomeUnknown} {
          quota := quota - {k};
        }
        rest := rest - {k};
      }
    }
  }

  /** The task failed with an unknown outcome, and its charge is not given back by that. */
  predicate HeldAsUnknown(s: Store, id: Id) {
    id in s.tasks && s.tasks[id].status == FailedUnknown && Of(id) in s.quota && s.quota[Of(id)].state != Reserved
  }

  /** Work in progress, a result that may still be fetched, and whatever changed lately. */
  predicate Needed(t: Task, terminalCutoff: nat, unacknowledgedCutoff: nat) {
    || Active(t)
    || (t.status == Succeeded && t.acknowledgedAt.None? && t.updated >= unacknowledgedCutoff)
    || (t.updated >= terminalCutoff && t.updated >= unacknowledgedCutoff)
  }

  lemma OpenedTables(policy: Policy, s: Store, now: nat)
    ensures var t := Step(policy, s, Open, now);
            && (forall id :: id in t.tasks ==> t.tasks[id].status != Running)
            && (forall id :: id in s.tasks && s.tasks[id].status == Running ==> HeldAsUnknown(t, id))
  {
    RecoveredRows(policy, Backfill(policy, s, now), now);
    hide Recover, HeldAsUnknown;
  }

  lemma RecoveredRows(policy: Policy, s: Store, now: nat)
    ensures var t := Recover(policy, s, now);
            && (forall id :: id in t.tasks ==> t.tasks[id].status != Running)
            && (forall id :: id in s.tasks && s.tasks[id].status == Running ==> HeldAsUnknown(t, id))
  {
    if ActiveRunning(s.tasks) != {} { RecoveredCharges(policy, s, now); }
    forall id | id in s.tasks && s.tasks[id].status == Running ensures id in ActiveRunning(s.tasks) {
    }
    hide HeldUnknown, LostReservation, ActiveRow, HeldAsUnknown;
  }

  lemma RecoveredCharges(policy: Policy, s: Store, now: nat)
    requires ActiveRunning(s.tasks) != {}
    ensures forall id :: id in s.tasks && s.tasks[id].status == Running ==> HeldAsUnknown(Recover(policy, s, now), id)
  {
    forall id | id in s.tasks && s.tasks[id].status == Running
      ensures Of(id) in s.quota || LostReservation(s, Of(id))
    {
    }
  }

  lemma BackfilledRows(policy: Policy, s: Store, quota: Quota, now: nat)
    requires forall k :: k in quota <==> k in s.quota || NeedsBackfill(s, k, now)
    requires forall k :: k in s.quota ==> quota[k] == s.quota[k]
    requires forall k :: NeedsBackfill(s, k, now) ==>
            k in quota && quota[k] == LegacyRow(policy, s.tasks[k.task], k.provider)
    ensures Store(s.tasks, quota) == Backfill(policy, s, now)
  {
    var t := Backfill(policy, s, now).quota;
    forall k ensures (k in quota <==> k in t) && (k in t ==> t[k] == quota[k]) {
      hide LegacyRow;
    }
    assert quota == t;
  }

  lemma RecoveredTables(policy: Policy, s: Store, t: Store, now: nat)
    requires ActiveRunning(s.tasks) != {} && t.tasks.Keys == s.tasks.Keys
    requires forall id :: id in t.tasks ==> t.tasks[id] == Interrupted(s.tasks[id], now)
    requires forall k :: k in t.quota <==> k in s.quota || LostReservation(s, k)
    requires forall k :: k in t.quota ==>
               var r := if LostReservation(s, k) then ActiveRow(policy, s.tasks[k.task], now) else s.quota[k];
               t.quota[k] == HeldUnknown(t.tasks, k, r)
    ensures t == Recover(policy, s, now)
  {
    var r := Recover(policy, s, now);
    assert t.tasks == r.tasks;
    hide ActiveRow, HeldUnknown, Interrupted, ActiveRunning;
    forall k ensures k in t.quota <==> k in r.quota { }
    forall k | k in t.quota ensures t.quota[k] == r.quota[k] { }
    assert t.quota == r.quota;
  }

  lemma SpentWithout(quota: Quota, sel: Selection, k: QuotaId)
    requires k in quota
    ensures Spent(quota, sel) == Spent(quota - {k}, sel) + if sel.Selects(quota[k]) then quota[k].Counted() else 0
  {
    var weights := Weights(quota, sel);
    assert Weights(quota - {k}, sel) == weights - {k};
    if sel.Selects(quota[k]) { TotalSplit(weights, k); } else { assert weights - {k} == weights; }
  }
}
