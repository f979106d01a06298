/** The hard image quota: over all runs of the relay's store, guarded reservations stay
    within the limits, and an amount once released never counts again. */
module RelayQuota {
  import opened Sums
  import opened RelayTasks

  // ---- Guarded and legacy spending ----

  lemma SpentSplits(quota: Quota, sel: Selection)
    ensures Spent(quota, sel) == GuardedSpent(quota, sel) + LegacySpent(quota, sel)
    ensures 0 <= GuardedSpent(quota, sel) && 0 <= LegacySpent(quota, sel)
  {
    var all := Weights(quota, sel);
    var guarded := map k | k in all :: if quota[k].guarded then all[k] else 0;
    var legacy := map k | k in all :: if quota[k].guarded then 0 else all[k];
    TotalSum(guarded, legacy, all);
    DropZeros(guarded, GuardedWeights(quota, sel, true));
    DropZeros(legacy, GuardedWeights(quota, sel, false));
    TotalNonNegative(GuardedWeights(quota, sel, true));
    TotalNonNegative(GuardedWeights(quota, sel, false));
  }

  lemma DropZeros<K>(all: map<K, int>, some: map<K, int>)
    requires some.Keys <= all.Keys
    requires forall k :: k in all ==> 0 <= all[k] && (if k in some then all[k] == some[k] else all[k] == 0)
    ensures Total(all) == Total(some)
  {
    TotalSubset(some, all);
    Padded(all, some);
  }

  lemma {:induction false} Padded<K>(all: map<K, int>, some: map<K, int>)
    requires some.Keys <= all.Keys
    requires forall k :: k in all ==> if k in some then all[k] == some[k] else all[k] == 0
    ensures Total(all) == Total(some)
    decreases |all|
  {
    if all != map[] {
      var k :| k in all;
      TotalSplit(all, k);
      if k in some {
        TotalSplit(some, k);
        Padded(all - {k}, some - {k});
      } else {
        assert some - {k} == some;
        Padded(all - {k}, some);
      }
    } else {
      assert some == map[];
    }
  }

  // ---- Changes that never raise the guarded spending ----

  /** Every guarded row of `late` is one of `early`, and counts for no more. */
  ghost predicate NoNewCharge(early: Quota, late: Quota) {
    forall k :: k in late && late[k].guarded ==>
      k in early && late[k].SameCharge(early[k]) && late[k].Counted() <= early[k].Counted()
  }

  lemma NoNewChargeSpendsLess(early: Quota, late: Quota, sel: Selection)
    requires NoNewCharge(early, late)
    ensures GuardedSpent(late, sel) <= GuardedSpent(early, sel)
  {
    TotalSubset(GuardedWeights(late, sel, true), GuardedWeights(early, sel, true));
  }

  /** All events but the two guarded insertions. */
  predicate Inserts(e: Event) { e.Create? || e.Ensure? }

  lemma OtherStepsChargeNothing(policy: Policy, s: Store, e: Event, now: nat)
    requires !Inserts(e)
    ensures NoNewCharge(s.quota, Step(policy, s, e, now).quota)
  {
    hide NoNewCharge, Recover, Backfill, Expired, SweepQuota;
    match e
    case Open => OpenChargesNothing(policy, s, now);
    case Sweep(terminal, unacknowledged, period) =>
      SweepChargesNothing(SweepExpired(s, terminal, unacknowledged), period);
    case Succeed(_, _) => OutcomeChargesNothing(policy, s, e, now);
    case RecoverResult(_) => OutcomeChargesNothing(policy, s, e, now);
    case FailKnown(_) => OutcomeChargesNothing(policy, s, e, now);
    case FailUnknown(_) => OutcomeChargesNothing(policy, s, e, now);
    case Cancel(_) => OutcomeChargesNothing(policy, s, e, now);
    case _ => ProgressChargesNothing(policy, s, e, now);
  }

  lemma SweepChargesNothing(s: Store, period: nat)
    ensures NoNewCharge(s.quota, SweepQuota(s, period).quota)
  {
  }

  lemma OutcomeChargesNothing(policy: Policy, s: Store, e: Event, now: nat)
    requires e.Succeed? || e.RecoverResult? || e.FailKnown? || e.FailUnknown? || e.Cancel?
    ensures NoNewCharge(s.quota, Step(policy, s, e, now).quota)
  {
    hide Recover, Backfill, SweepExpired, SweepQuota;
  }

  lemma ProgressChargesNothing(policy: Policy, s: Store, e: Event, now: nat)
    requires e.Remove? || e.Receipt? || e.Ack? || e.Start? || e.RetryAdmission?
    ensures NoNewCharge(s.quota, Step(policy, s, e, now).quota)
  {
    hide Recover, Backfill, SweepExpired, SweepQuota;
  }

  lemma OpenChargesNothing(policy: Policy, s: Store, now: nat)
    ensures NoNewCharge(s.quota, Recover(policy, Backfill(policy, s, now), now).quota)
  {
    BackfillChargesNothing(policy, s, now);
    RecoverChargesNothing(policy, Backfill(policy, s, now), now);
  }

  lemma BackfillChargesNothing(policy: Policy, s: Store, now: nat)
    ensures NoNewCharge(s.quota, Backfill(policy, s, now).quota)
  {
  }

  lemma RecoverChargesNothing(policy: Policy, s: Store, now: nat)
    ensures NoNewCharge(s.quota, Recover(policy, s, now).quota)
  {
  }

  // ---- The two guarded insertions ----

  lemma InsertionFits(policy: Policy, s: Store, k: QuotaId, owner: Name, q: Quote, sel: Selection)
    requires k !in s.quota && !OwnerFull(policy, s.quota, owner, q) && !ProviderFull(policy, s.quota, q)
    ensures var late := s.quota[k := NewReservation(owner, q, Reserved, true)];
            GuardedSpent(late, sel) <= Max(sel.Limit(policy), GuardedSpent(s.quota, sel))
  {
    var r := NewReservation(owner, q, Reserved, true);
    var weights := GuardedWeights(s.quota, sel, true);
    if sel.Selects(r) {
      TotalInsert(weights, k, r.Counted());
      assert GuardedWeights(s.quota[k := r], sel, true) == weights[k := r.Counted()];
      SpentSplits(s.quota, sel);
      assert sel == OfOwner(owner, q.period) || sel == OfAccount(q.provider, q.account, q.period);
    } else {
      assert GuardedWeights(s.quota[k := r], sel, true) == weights;
    }
  }

  function Max(a: int, b: int): int { if a < b then b else a }

  lemma StepKeepsBound(policy: Policy, s: Store, e: Event, now: nat, sel: Selection)
    ensures GuardedSpent(Step(policy, s, e, now).quota, sel) <= Max(sel.Limit(policy), GuardedSpent(s.quota, sel))
  {
    hide GuardedSpent, OwnerFull, ProviderFull;
    if !Inserts(e) {
      OtherStepsChargeNothing(policy, s, e, now);
      NoNewChargeSpendsLess(s.quota, Step(policy, s, e, now).quota, sel);
    } else if e.Create? {
      var n := e.submission;
      if CreateReply(policy, s, n) == Created { InsertionFits(policy, s, Of(n.id), n.owner, n.quote, sel); }
    } else if EnsureReply(policy, s, e.id, e.quote) == Created {
      InsertionFits(policy, s, Of(e.id), s.tasks[e.id].owner, e.quote, sel);
    }
  }

  lemma {:induction false} RunKeepsBound(policy: Policy, start: Store, events: seq<Timed>, sel: Selection)
    ensures GuardedSpent(Run(policy, start, events).quota, sel) <=
              Max(sel.Limit(policy), GuardedSpent(start.quota, sel))
    decreases |events|
  {
    hide Step, GuardedSpent;
    if events != [] {
      RunKeepsBound(policy, start, events[..|events| - 1], sel);
      var last := events[|events| - 1];
      StepKeepsBound(policy, Run(policy, start, events[..|events| - 1]), last.event, last.now, sel);
    }
  }

  /** The hard quota: after every run under one policy, and for every owner and day and
      every provider account and day, what counts is at most the daily limit plus what the
      unguarded legacy paths inserted (or what the opened ledger held already). */
  lemma HardQuota(policy: Policy, start: Store, events: seq<Timed>, sel: Selection)
    ensures var quota := Run(policy, start, events).quota;
            Spent(quota, sel) <= Max(sel.Limit(policy), GuardedSpent(start.quota, sel)) + LegacySpent(quota, sel)
  {
    RunKeepsBound(policy, start, events, sel);
    SpentSplits(Run(policy, start, events).quota, sel);
  }

  lemma HardQuotaFromEmpty(policy: Policy, events: seq<Timed>, sel: Selection)
    ensures var quota := Run(policy, Store(map[], map[]), events).quota;
            Spent(quota, sel) <= sel.Limit(policy) + LegacySpent(quota, sel)
  {
    HardQuota(policy, Store(map[], map[]), events, sel);
    assert GuardedWeights(map[], sel, true) == map[];
    assert GuardedSpent(map[], sel) == 0;
  }

  // ---- Released for good ----

  lemma StepKeepsReleased(policy: Policy, s: Store, e: Event, now: nat, k: QuotaId)
    requires k in s.quota && s.quota[k].state == Released
    ensures var late := Step(policy, s, e, now).quota; k in late ==> late[k] == s.quota[k]
  {
    hide Expired, OwnerFull, ProviderFull, FindByIdempotency;
  }

  /** While the row of a released reservation is kept, its amount never counts again. */
  lemma {:induction false} ReleasedForGood(policy: Policy, start: Store, events: seq<Timed>, k: QuotaId)
    requires k in start.quota && start.quota[k].state == Released
    requires forall i :: 0 <= i <= |events| ==> k in Run(policy, start, events[..i]).quota
    ensures var quota := Run(policy, start, events).quota; k in quota && quota[k] == start.quota[k]
    decreases |events|
  {
    hide Step;
    assert events[..|events|] == events;
    if events != [] {
      var before := events[..|events| - 1];
      forall i | 0 <= i <= |before| ensures k in Run(policy, start, before[..i]).quota {
        assert before[..i] == events[..i];
      }
      ReleasedForGood(policy, start, before, k);
      StepKeepsReleased(policy, Run(policy, start, before), events[|events| - 1].event, events[|events| - 1].now, k);
    }
  }

  // ---- Idempotency ----

  /** One task at most for a key of an owner. */
  ghost predicate UniqueKeys(tasks: Tasks) {
    forall a, b :: a in tasks && b in tasks ==>
      tasks[a].key.Some? && tasks[a].owner == tasks[b].owner && tasks[a].key == tasks[b].key ==> a == b
  }

  /** Every task keeps its identity, and no task is new. */
  ghost predicate SameTasks(early: Tasks, late: Tasks) {
    forall id :: id in late ==>
      && id in early && late[id].owner == early[id].owner
      && late[id].key == early[id].key && late[id].fingerprint == early[id].fingerprint
  }

  lemma OtherStepsAddNoTask(policy: Policy, s: Store, e: Event, now: nat)
    requires !e.Create?
    ensures SameTasks(s.tasks, Step(policy, s, e, now).tasks)
  {
    hide SameTasks, EnsureStep, RemoveAndRelease, AppendReceipt, Recover, Backfill, SweepExpired, SweepQuota;
    hide Acknowledge, MarkRunning, RetryStep, MarkSucceeded;
    hide RecoverSucceeded, MarkKnownFailed, MarkOutcomeUnknown, CancelQueued;
    match e
    case Open => OpenAddsNoTask(policy, s, now);
    case Sweep(terminal, unacknowledged, period) => SweepAddsNoTask(s, terminal, unacknowledged, period);
    case Ensure(_, _) => AdmissionAddsNoTask(policy, s, e, now);
    case Remove(_) => AdmissionAddsNoTask(policy, s, e, now);
    case Receipt(_, _) => AdmissionAddsNoTask(policy, s, e, now);
    case Ack(_) => AdmissionAddsNoTask(policy, s, e, now);
    case Start(_) => AdmissionAddsNoTask(policy, s, e, now);
    case RetryAdmission(_) => RetryAddsNoTask(policy, s, e, now);
    case Cancel(_) => RetryAddsNoTask(policy, s, e, now);
    case FailKnown(_) => FailureAddsNoTask(policy, s, e, now);
    case FailUnknown(_) => FailureAddsNoTask(policy, s, e, now);
    case _ => OutcomeAddsNoTask(policy, s, e, now);
  }

  lemma AdmissionAddsNoTask(policy: Policy, s: Store, e: Event, now: nat)
    requires e.Ensure? || e.Remove? || e.Receipt? || e.Ack? || e.Start?
    ensures SameTasks(s.tasks, Step(policy, s, e, now).tasks)
  {
    hide EnsureReply, Recover, Backfill, SweepExpired, SweepQuota;
  }

  lemma RetryAddsNoTask(policy: Policy, s: Store, e: Event, now: nat)
    requires e.RetryAdmission? || e.Cancel?
    ensures SameTasks(s.tasks, Step(policy, s, e, now).tasks)
  {
    hide Recover, Backfill, SweepExpired, SweepQuota;
  }

  lemma FailureAddsNoTask(policy: Policy, s: Store, e: Event, now: nat)
    requires e.FailKnown? || e.FailUnknown?
    ensures SameTasks(s.tasks, Step(policy, s, e, now).tasks)
  {
    hide Recover, Backfill, SweepExpired, SweepQuota;
  }

  lemma OutcomeAddsNoTask(policy: Policy, s: Store, e: Event, now: nat)
    requires e.Succeed? || e.RecoverResult?
    ensures SameTasks(s.tasks, Step(policy, s, e, now).tasks)
  {
    hide Recover, Backfill, SweepExpired, SweepQuota;
  }

  lemma OpenAddsNoTask(policy: Policy, s: Store, now: nat)
    ensures SameTasks(s.tasks, Recover(policy, Backfill(policy, s, now), now).tasks)
  {
    hide NeedsBackfill, LostReservation;
  }

  lemma SweepAddsNoTask(s: Store, terminalCutoff: nat, unacknowledgedCutoff: nat, period: nat)
    ensures SameTasks(s.tasks, SweepQuota(SweepExpired(s, terminalCutoff, unacknowledgedCutoff), period).tasks)
  {
    hide Expired;
  }

  lemma StepKeepsUniqueKeys(policy: Policy, s: Store, e: Event, now: nat)
    requires UniqueKeys(s.tasks)
    ensures UniqueKeys(Step(policy, s, e, now).tasks)
  {
    if e.Create? {
      var n := e.submission;
      hide ActiveIds, ActiveIdsOf, OwnerFull, ProviderFull;
      if CreateReply(policy, s, n) == Created {
        forall id | id in s.tasks ensures !(s.tasks[id].owner == n.owner && s.tasks[id].key == Some(n.key)) {
          assert !HasKey(s.tasks, id, n.owner, n.key);
        }
      }
    } else {
      OtherStepsAddNoTask(policy, s, e, now);
      hide Step;
    }
  }

  /** A repeated submission finds the first task as long as that task is kept: the same
      input reuses it, another input is a conflict, and neither reserves anything. */
  lemma SubmitAgain(policy: Policy, s: Store, n: Submission, id: Id)
    requires UniqueKeys(s.tasks) && HasKey(s.tasks, id, n.owner, n.key)
    ensures CreateReply(policy, s, n) ==
              if s.tasks[id].fingerprint == Some(n.fingerprint) then Reused(id) else Refused(IdempotencyConflict)
    ensures forall now :: CreateStep(policy, s, n, now) == s
  {
    hide ActiveIds, ActiveIdsOf, OwnerFull, ProviderFull;
    var found := FindByIdempotency(s.tasks, n.owner, n.key);
    assert found.Some? && found.value == id;
  }

  lemma {:induction false} RunKeepsUniqueKeys(policy: Policy, start: Store, events: seq<Timed>)
    requires UniqueKeys(start.tasks)
    ensures UniqueKeys(Run(policy, start, events).tasks)
    decreases |events|
  {
    hide Step, UniqueKeys;
    if events != [] {
      RunKeepsUniqueKeys(policy, start, events[..|events| - 1]);
      var last := events[|events| - 1];
      StepKeepsUniqueKeys(policy, Run(policy, start, events[..|events| - 1]), last.event, last.now);
    }
  }
}
