/** The daily limits of the video relay over all its runs. */
module VideoQuota {
  import opened Sums
  import opened VideoRelay

  type Quotas = map<Id, Quota>

  /** What a row was admitted for, and what a settled row costs beyond that. */
  function Planned(q: Quota): nat { if q.state == Released then 0 else q.units }

  function Overrun(q: Quota): nat {
    if q.state == QuotaState.Settled && q.settledUnits > q.units then q.settledUnits - q.units else 0
  }

  function PlannedWeights(quotas: Quotas, sel: Selection): map<Id, int> {
    map q | q in quotas && sel.Selects(quotas[q]) :: Planned(quotas[q])
  }

  function OverrunWeights(quotas: Quotas, sel: Selection): map<Id, int> {
    map q | q in quotas && sel.Selects(quotas[q]) :: Overrun(quotas[q])
  }

  ghost function PlannedSum(quotas: Quotas, sel: Selection): int { Total(PlannedWeights(quotas, sel)) }

  ghost function OverrunSum(quotas: Quotas, sel: Selection): int { Total(OverrunWeights(quotas, sel)) }

  /** A settled row never costs less than it reserved. */
  ghost predicate NeverCheaper(quotas: Quotas) {
    forall q :: q in quotas && quotas[q].state == QuotaState.Settled ==> quotas[q].settledUnits >= quotas[q].units
  }

  lemma SpentSplits(quotas: Quotas, sel: Selection)
    requires NeverCheaper(quotas)
    ensures Spent(quotas, sel) == PlannedSum(quotas, sel) + OverrunSum(quotas, sel) && 0 <= OverrunSum(quotas, sel)
  {
    TotalSum(PlannedWeights(quotas, sel), OverrunWeights(quotas, sel), Weights(quotas, sel));
    TotalNonNegative(OverrunWeights(quotas, sel));
  }

  // ---- Changes of rows ----

  predicate SameCharge(a: Quota, b: Quota) {
    a.owner == b.owner && a.units == b.units && a.period == b.period && a.account == b.account
  }

  /** No row is new, and none is planned for more. */
  ghost predicate NothingNew(early: Quotas, late: Quotas) {
    && NeverCheaper(late)
    && forall q :: q in late ==> q in early && SameCharge(late[q], early[q]) && Planned(late[q]) <= Planned(early[q])
  }

  lemma NothingNewPlansLess(early: Quotas, late: Quotas, sel: Selection)
    requires NothingNew(early, late)
    ensures PlannedSum(late, sel) <= PlannedSum(early, sel)
  {
    TotalSubset(PlannedWeights(late, sel), PlannedWeights(early, sel));
  }

  lemma AdmittedFits(quotas: Quotas, p: Post, sel: Selection)
    requires NeverCheaper(quotas) && p.quota !in quotas && QuotaVerdict(quotas, p).None?
    requires PlannedSum(quotas, sel) <= sel.Limit(p.policy)
    ensures var late := quotas[p.quota := NewQuota(p)];
            NeverCheaper(late) && PlannedSum(late, sel) <= sel.Limit(p.policy)
  {
    hide PlannedSum, OverrunSum, Spent;
    PlannedInsert(quotas, p.quota, NewQuota(p), sel);
    SpentSplits(quotas, sel);
    if sel.Selects(NewQuota(p)) {
      assert sel == OfOwner(p.owner, p.period) || sel == OfAccount(p.policy.account, p.period);
    }
  }

  lemma PlannedInsert(quotas: Quotas, q: Id, row: Quota, sel: Selection)
    requires q !in quotas
    ensures PlannedSum(quotas[q := row], sel) == PlannedSum(quotas, sel) + if sel.Selects(row) then Planned(row) else 0
  {
    var weights := PlannedWeights(quotas, sel);
    if sel.Selects(row) {
      TotalInsert(weights, q, Planned(row));
      assert PlannedWeights(quotas[q := row], sel) == weights[q := Planned(row)];
    } else {
      assert PlannedWeights(quotas[q := row], sel) == weights;
    }
  }

  // ---- The steps ----

  lemma GuardedWrites(w: World, q: Id, units: nat)
    requires NeverCheaper(w.quotas)
    ensures NothingNew(w.quotas, RetainQuota(w, q).quotas) && NothingNew(w.quotas, ReleaseQuota(w, q).quotas)
    ensures NothingNew(w.quotas, SettleQuota(w, q, units).quotas)
  {
    SameIsNothingNew(w.quotas);
    if q in w.quotas && w.quotas[q].state != Released {
      OneRow(w.quotas, q, SettledRow(w.quotas[q], units));
      if w.quotas[q].state == Reserved {
        OneRow(w.quotas, q, w.quotas[q].(state := Unknown));
        OneRow(w.quotas, q, w.quotas[q].(state := Released));
      }
    }
    hide NothingNew, NeverCheaper;
  }

  lemma OneRow(quotas: Quotas, q: Id, row: Quota)
    requires NeverCheaper(quotas) && q in quotas && SameCharge(row, quotas[q]) && Planned(row) <= Planned(quotas[q])
    requires row.state == QuotaState.Settled ==> row.settledUnits >= row.units
    ensures NothingNew(quotas, quotas[q := row])
  {
  }

  lemma FailWrites(w: World, id: Id)
    requires NeverCheaper(w.quotas)
    ensures NothingNew(w.quotas, FailBeforeProvider(w, id).quotas)
  {
    hide RetainQuota, ReleaseQuota, SettleQuota, NothingNew;
    SameIsNothingNew(w.quotas);
    if Unfenced(w, id) { GuardedWrites(SetState(w, id, Failed), w.operations[id].quota, 0); }
  }

  lemma SameIsNothingNew(quotas: Quotas)
    requires NeverCheaper(quotas)
    ensures NothingNew(quotas, quotas)
  {
  }

  lemma RetainWrites(w: World, id: Id)
    requires NeverCheaper(w.quotas) && Interrupted(w, id)
    ensures NothingNew(w.quotas, RetainQuota(SetState(w, id, OutcomeUnknown), w.operations[id].quota).quotas)
  {
    hide RetainQuota, ReleaseQuota, SettleQuota, NothingNew;
    GuardedWrites(SetState(w, id, OutcomeUnknown), w.operations[id].quota, 0);
  }

  lemma ConcludeWrites(w: World, id: Id, state: OperationState, charge: Charge)
    requires NeverCheaper(w.quotas)
    ensures NothingNew(w.quotas, ConcludeStep(w, id, state, charge).quotas)
  {
    hide RetainQuota, ReleaseQuota, SettleQuota, NothingNew;
    SameIsNothingNew(w.quotas);
    if id in w.operations {
      GuardedWrites(SetState(w, id, state), w.operations[id].quota, if charge.Settle? then charge.units else 0);
    }
  }

  lemma CancelWrites(w: World, id: Id, owner: Name, key: Name, hash: Name)
    requires NeverCheaper(w.quotas)
    ensures NothingNew(w.quotas, CancelStep(w, id, owner, key, hash).quotas)
  {
    hide RetainQuota, ReleaseQuota, SettleQuota, NothingNew;
    SameIsNothingNew(w.quotas);
    if Unfenced(w, id) { GuardedWrites(SetState(w, id, Cancelled), w.operations[id].quota, 0); }
  }

  /** The POST opens a new operation. */
  ghost predicate Opens(w: World, e: Event) {
    e.Arrive? && Fresh(w, e.post) && Key(e.post.owner, e.post.key) !in w.keys && ArriveVerdict(w, e.post).Proceeds?
  }

  lemma OtherWrites(w: World, e: Event)
    requires NeverCheaper(w.quotas) && !Opens(w, e)
    ensures NothingNew(w.quotas, Step(w, e).quotas)
  {
    hide RetainQuota, ReleaseQuota, SettleQuota, NothingNew, NeverCheaper;
    hide FailBeforeProvider, ConcludeStep, CancelStep, LocalTaken;
    SameIsNothingNew(w.quotas);
    match e
    case Arrive(p) =>
      if Fresh(w, p) && ArriveVerdict(w, p).InterruptedReply? { RetainWrites(w, ArriveVerdict(w, p).operation); }
    case Fail(r) => if r in w.flights { FailWrites(w, w.flights[r].operation); }
    case Conclude(id, state, charge) => ConcludeWrites(w, id, state, charge);
    case Cancel(id, owner, key, hash) => CancelWrites(w, id, owner, key, hash);
    case SweepOrphan(id, _) => FailWrites(w, id);
    case SweepInterrupted(id, _) => if Interrupted(w, id) { RetainWrites(w, id); }
    case _ =>
  }

  lemma StepKeepsBound(policy: Policy, w: World, e: Event, sel: Selection)
    requires NeverCheaper(w.quotas) && PlannedSum(w.quotas, sel) <= sel.Limit(policy)
    requires e.Arrive? ==> e.post.policy == policy
    ensures NeverCheaper(Step(w, e).quotas) && PlannedSum(Step(w, e).quotas, sel) <= sel.Limit(policy)
  {
    hide PlannedSum, LocalTaken;
    if Opens(w, e) {
      hide NeverCheaper, QuotaVerdict;
      AdmittedFits(w.quotas, e.post, sel);
    } else {
      OtherWrites(w, e);
      hide Step;
      NothingNewPlansLess(w.quotas, Step(w, e).quotas, sel);
    }
  }

  /** The daily limits: after every run under one policy, for every owner and day and every
      provider account and day, what counts is at most the limit plus what settled operations
      cost beyond their reservations. */
  lemma {:induction false} DailyLimit(policy: Policy, events: seq<Event>, sel: Selection)
    requires forall e :: e in events && e.Arrive? ==> e.post.policy == policy
    ensures var quotas := Run(Initial, events).quotas;
            && NeverCheaper(quotas) && PlannedSum(quotas, sel) <= sel.Limit(policy)
            && Spent(quotas, sel) <= sel.Limit(policy) + OverrunSum(quotas, sel)
            && (sel.OfOwner? ==> Spent(quotas, sel) <= policy.ownerDaily + OverrunSum(quotas, sel))
            && (sel.OfAccount? && sel.account == policy.account ==>
                  Spent(quotas, sel) <= policy.accountDaily + OverrunSum(quotas, sel))
            && (sel.OfAccount? && sel.account != policy.account ==> Spent(quotas, sel) <= OverrunSum(quotas, sel))
    decreases |events|
  {
    hide Step, PlannedSum, OverrunSum, Spent, NeverCheaper;
    if events == [] {
      NothingPlanned(sel);
    } else {
      DailyLimit(policy, events[..|events| - 1], sel);
      assert events[|events| - 1] in events;
      StepKeepsBound(policy, Run(Initial, events[..|events| - 1]), events[|events| - 1], sel);
    }
    SpentSplits(Run(Initial, events).quotas, sel);
  }

  lemma NothingPlanned(sel: Selection)
    ensures NeverCheaper(map[]) && PlannedSum(map[], sel) == 0
  {
    assert PlannedWeights(map[], sel) == map[];
  }
}
