/** Image tasks never pay twice: what holds over the whole life of every task. */
module ImageTaskTheorems {
  import opened RelayTasks
  import opened ImageTaskLife
  import R = ImageResults

  type Life = seq<ImageTaskLife.Timed>

  // ---- The steps of the runner ----

  lemma BelowGrows(n: nat)
    ensures R.Below(n) + [n] == R.Below(n + 1) && |R.Below(n)| == n && R.Below(0) == []
  {
  }

  lemma AdmitKeeps(policy: Policy, w: World, id: Id, q: Quote, now: nat)
    requires Inv(w, id) && w.runner.Some? && w.runner.value.phase.Acquiring?
    ensures Inv(AdmitStep(policy, w, id, q, now), id)
  {
    hide OwnerFull, ProviderFull;
  }

  lemma BeginKeeps(w: World, id: Id, now: nat)
    requires Inv(w, id) && w.runner.Some? && w.runner.value.phase.Admitted?
    ensures Inv(BeginStep(w, id, now), id)
  {
    BelowGrows(0);
  }

  lemma CallKeeps(w: World, id: Id)
    requires Inv(w, id) && w.runner.Some? && w.runner.value.phase.Calling?
    ensures Inv(CallStep(w), id)
  {
    BelowGrows(|w.runner.value.phase.answers|);
    BelowGrows(|w.runner.value.phase.answers| + 1);
  }

  lemma ReceiptKeeps(w: World, id: Id, receipt: Name, now: nat)
    requires Inv(w, id) && w.runner.Some? && w.runner.value.phase.Posted?
    ensures Inv(ReceiptStep(w, id, receipt, now), id)
  {
    BelowGrows(|w.runner.value.phase.answers| + 1);
  }

  lemma FailKeeps(w: World, id: Id, answers: seq<R.Answer>, error: Error)
    requires Inv(w, id) && w.runner.Some? && w.runner.value.phase != Leaving(true)
    requires w.runner.value.phase != Leaving(false)
    requires R.Images(answers) != [] ==> Paying(w, id, answers)
    requires RunnerFits(w.runner.value.(phase := Failing(error)), TaskAt(w, id), w.calls, w.stored, w.plan.value)
    ensures Inv(Fail(w, answers, error), id)
  {
  }

  /** Images were brought, and nothing is stored yet. */
  predicate Paying(w: World, id: Id, answers: seq<R.Answer>)
    requires w.runner.Some? && w.plan.Some?
  {
    |answers| <= w.plan.value.count && w.stored == [] && !w.runner.value.aborted && Runs(TaskAt(w, id), true)
  }

  lemma DeliverKeeps(w: World, id: Id, images: seq<nat>, complete: bool)
    requires Inv(w, id) && w.runner.Some? && w.runner.value.phase.Paid?
    requires images != [] ==> Fit(images, complete, w.plan.value)
    ensures Inv(Deliver(w, images, complete), id)
  {
  }

  lemma ReadKeeps(w: World, id: Id, items: seq<R.Item>)
    requires Inv(w, id) && w.runner.Some? && w.runner.value.phase.Paid?
    ensures Inv(ReadStep(w, items), id)
  {
    var p := w.runner.value.phase;
    var answers := p.answers + [R.Data(items)];
    PaidFacts(w, id);
    if p.plan.provider == OpenAI {
      if R.CleanOf(items, p.plan.count) { R.CleanOfIsComplete(items, p.plan.count); }
      DeliverKeeps(w, id, R.ImagesOf(items, p.plan.count), R.CleanOf(items, p.plan.count));
    } else if !R.Legible(R.Data(items)) {
      FailKeeps(w, id, p.answers, Unknown);
    } else if |answers| < p.plan.count {
      NextCallKeeps(w, id, items);
    } else {
      if R.Clean(answers) { R.CleanIsComplete(answers); }
      DeliverKeeps(w, id, R.Images(answers), R.Clean(answers));
    }
  }

  lemma PaidFacts(w: World, id: Id)
    requires Inv(w, id) && w.runner.Some? && w.runner.value.phase.Paid?
    ensures w.plan == Some(w.runner.value.phase.plan) && Paying(w, id, w.runner.value.phase.answers)
    ensures |w.runner.value.phase.answers| < w.plan.value.MostCalls()
    ensures RunnerFits(w.runner.value.(phase := Failing(Unknown)), TaskAt(w, id), w.calls, w.stored, w.plan.value)
  {
  }

  lemma NextCallKeeps(w: World, id: Id, items: seq<R.Item>)
    requires Inv(w, id) && w.runner.Some? && w.runner.value.phase.Paid?
    requires R.Legible(R.Data(items)) && |w.runner.value.phase.answers| + 1 < w.runner.value.phase.plan.count
    requires w.runner.value.phase.plan.provider == Seedream
    ensures var p := w.runner.value.phase; Inv(MoveTo(w, Calling(p.plan, p.answers + [R.Data(items)])), id)
  {
  }

  lemma CommitKeeps(w: World, id: Id)
    requires Inv(w, id) && w.runner.Some? && w.runner.value.phase.Delivering?
    ensures Inv(CommitStep(w), id)
  {
  }

  lemma MarkKeeps(w: World, id: Id, now: nat)
    requires Inv(w, id) && w.runner.Some? && w.runner.value.phase.Stored?
    ensures Inv(MarkStep(w, id, now), id)
  {
  }

  lemma ThrowKeeps(w: World, id: Id, error: Error)
    requires Inv(w, id) && w.runner.Some?
    ensures Inv(ThrowStep(w, error), id)
  {
    var phase := w.runner.value.phase;
    if phase.Calling? || (phase.Posted? && error != Admission) || phase.Paid? {
      AskingFails(w, id, error);
      hide Inv, Fail, RunnerFits;
      FailKeeps(w, id, phase.answers, error);
    } else if phase.Acquiring? || phase.Admitted? {
      hide Fail;
      FailingKeeps(w, id, error);
    } else if phase.Delivering? || phase.Stored? {
      hide Fail;
      FailingKeeps(w, id, if phase.Stored? then Other else Unknown);
    }
  }

  lemma AskingFails(w: World, id: Id, error: Error)
    requires Inv(w, id) && w.runner.Some?
    requires var p := w.runner.value.phase; p.Calling? || (p.Posted? && error != Admission) || p.Paid?
    ensures w.plan.Some?
    ensures R.Images(w.runner.value.phase.answers) != [] ==> Paying(w, id, w.runner.value.phase.answers)
    ensures RunnerFits(w.runner.value.(phase := Failing(error)), TaskAt(w, id), w.calls, w.stored, w.plan.value)
  {
  }

  lemma FailingKeeps(w: World, id: Id, error: Error)
    requires Inv(w, id) && w.runner.Some?
    requires var p := w.runner.value.phase;
             p.Acquiring? || p.Admitted? || (error != Admission && (p.Delivering? || p.Stored?))
    ensures Inv(MoveTo(w, Failing(error)), id)
  {
  }

  lemma CatchKeeps(w: World, id: Id, works: bool, now: nat)
    requires Inv(w, id) && w.runner.Some? && w.runner.value.phase.Failing?
    ensures Inv(CatchStep(w, id, works, now), id)
  {
    hide Inv, RetryReply, RetryStep, MarkOutcomeUnknown, MarkKnownFailed;
    var error := w.runner.value.phase.error;
    if StatusOf(w, id) == Some(Cancelled) || !works { NothingWritten(w, id); }
    if error == Admission && RetryReply(w.store, id) != Ineligible { RetryKeeps(w, id, now); }
    UnknownKeeps(w, id, now);
    if !HasReceipt(w, id) { KnownFailureKeeps(w, id, now); }
  }

  lemma NothingWritten(w: World, id: Id)
    requires Inv(w, id) && w.runner.Some? && w.runner.value.phase.Failing?
    ensures Inv(MoveTo(w, Leaving(false)), id)
  {
  }

  lemma RetryKeeps(w: World, id: Id, now: nat)
    requires Inv(w, id) && w.runner.Some? && w.runner.value.phase == Failing(Admission)
    requires RetryReply(w.store, id) != Ineligible
    ensures var t := w.(store := RetryStep(w.store, id, now));
            if RetryReply(w.store, id) == Requeued then Inv(MoveTo(t.(requeues := w.requeues + 1), Leaving(true)), id)
            else Inv(MoveTo(t, Leaving(false)), id)
  {
  }

  lemma UnknownKeeps(w: World, id: Id, now: nat)
    requires Inv(w, id) && w.runner.Some? && w.runner.value.phase.Failing?
    ensures Inv(MoveTo(w.(store := MarkOutcomeUnknown(w.store, id, now)), Leaving(false)), id)
  {
  }

  lemma KnownFailureKeeps(w: World, id: Id, now: nat)
    requires Inv(w, id) && w.runner.Some? && w.runner.value.phase.Failing? && !HasReceipt(w, id)
    ensures Inv(MoveTo(w.(store := MarkKnownFailed(w.store, id, now)), Leaving(false)), id)
  {
  }

  lemma LeaveKeeps(w: World, id: Id)
    requires Inv(w, id) && w.runner.Some? && w.runner.value.phase.Leaving?
    ensures Inv(LeaveStep(w), id)
  {
  }

  lemma RunnerKeeps(policy: Policy, w: World, id: Id, e: ImageTaskLife.Event, now: nat)
    requires Inv(w, id)
    ensures Inv(RunnerStep(policy, w, id, e, now), id)
  {
    hide Inv, AdmitStep, BeginStep, CallStep, ReceiptStep, ReadStep;
    hide CommitStep, MarkStep, ThrowStep, CatchStep, LeaveStep;
    if w.runner.Some? {
      match (e, w.runner.value.phase)
      case (Admit(q), Acquiring) => AdmitKeeps(policy, w, id, q, now);
      case (Begin, Admitted(_)) => BeginKeeps(w, id, now);
      case (Call, Calling(_, _)) => CallKeeps(w, id);
      case (Receipt(receipt), Posted(_, _)) => ReceiptKeeps(w, id, receipt, now);
      case (Read(items), Paid(_, _)) => ReadKeeps(w, id, items);
      case (Commit, Delivering(_, _)) => CommitKeeps(w, id);
      case (Mark, Stored(_)) => MarkKeeps(w, id, now);
      case (Throw(error), _) => ThrowKeeps(w, id, error);
      case (Catch(works), Failing(_)) => CatchKeeps(w, id, works, now);
      case (Leave, Leaving(_)) => LeaveKeeps(w, id);
      case _ =>
    }
  }

  // ---- The other events ----

  lemma OthersKeep(w: World, id: Id, store: Store)
    requires Inv(w, id) && SameRows(w.store, store, id)
    ensures Inv(w.(store := store), id)
  {
  }

  lemma SubmitKeeps(policy: Policy, w: World, id: Id, n: Submission, plan: Plan, keeps: Keeps, now: nat)
    requires Inv(w, id)
    ensures Inv(SubmitStep(policy, w, id, n, plan, keeps, now), id)
  {
    hide OwnerFull, ProviderFull, ActiveIds, ActiveIdsOf, FindByIdempotency;
  }

  lemma LaunchKeeps(w: World, id: Id, now: nat)
    requires Inv(w, id)
    ensures Inv(LaunchStep(w, id, now), id)
  {
  }

  lemma CancelKeeps(w: World, id: Id, dies: bool, now: nat)
    requires Inv(w, id)
    ensures Inv(CancelStep(w, id, dies, now), id)
  {
  }

  lemma ConfirmKeeps(w: World, id: Id, dies: bool, now: nat)
    requires Inv(w, id)
    ensures Inv(ConfirmStep(w, id, dies, now), id)
  {
  }

  lemma SweepKeeps(w: World, id: Id, terminalCutoff: nat, unacknowledgedCutoff: nat, period: nat)
    requires Inv(w, id)
    ensures Inv(SweepStep(w, id, terminalCutoff, unacknowledgedCutoff, period), id)
  {
    SweptRows(w, id, terminalCutoff, unacknowledgedCutoff, period);
    hide SweepQuota, SweepExpired;
  }

  /** A sweep leaves a row as it is or drops it, and drops no active task. */
  lemma SweptRows(w: World, id: Id, terminalCutoff: nat, unacknowledgedCutoff: nat, period: nat)
    ensures var t := SweepStep(w, id, terminalCutoff, unacknowledgedCutoff, period);
            && t == w.(store := t.store, input := t.input, stored := t.stored)
            && (TaskAt(t, id) == TaskAt(w, id) || TaskAt(t, id).None?)
            && (ChargeAt(t, id) == ChargeAt(w, id) || ChargeAt(t, id).None?)
            && (TaskAt(w, id).Some? && Active(TaskAt(w, id).value) ==> TaskAt(t, id).Some?)
            && (t.input == w.input || (TaskAt(t, id).None? && t.input.None?))
            && (t.stored == w.stored || (t.stored == [] && TaskAt(w, id).Some? &&
                  (TaskAt(t, id).None? || TaskAt(w, id).value.acknowledgedAt.Some?)))
            && (w.plan.None? && TaskAt(w, id).None? && Of(id) !in w.store.quota ==>
                  TaskAt(t, id).None? && Of(id) !in t.store.quota && t.stored == w.stored && t.input == w.input)
  {
  }

  /** What opening the store does to the rows of one task. */
  predicate OpenedAs(s: Store, t: Store, id: Id, now: nat) {
    && (id in t.tasks <==> id in s.tasks)
    && (id in s.tasks ==> t.tasks[id] == Interrupted(s.tasks[id], now))
    && (Of(id) in s.quota ==> Of(id) in t.quota && HeldAs(s.quota[Of(id)], t.quota[Of(id)]))
    && (Of(id) !in s.quota && Of(id) in t.quota ==> id in s.tasks && t.quota[Of(id)].state == OutcomeUnknown)
    && (id in s.tasks && s.tasks[id].status == Running ==> Of(id) in t.quota && t.quota[Of(id)].state != Reserved)
  }

  predicate HeldAs(early: Reservation, late: Reservation) {
    late == early || ((early.state == Reserved || early.state == OutcomeUnknown) && late.state == OutcomeUnknown)
  }

  lemma OpenAt(policy: Policy, s: Store, id: Id, now: nat)
    ensures OpenedAs(s, Recover(policy, Backfill(policy, s, now), now), id, now)
  {
    hide Backfill, Recover;
    BackfillAt(policy, s, id, now);
    RecoverAt(policy, Backfill(policy, s, now), id, now);
  }

  lemma BackfillAt(policy: Policy, s: Store, id: Id, now: nat)
    ensures var t := Backfill(policy, s, now);
            && t.tasks == s.tasks && (Of(id) in t.quota <==> Of(id) in s.quota)
            && (Of(id) in s.quota ==> t.quota[Of(id)] == s.quota[Of(id)])
  {
  }

  lemma RecoverAt(policy: Policy, s: Store, id: Id, now: nat)
    ensures OpenedAs(s, Recover(policy, s, now), id, now)
  {
    if id in s.tasks && s.tasks[id].status == Running { assert id in ActiveRunning(s.tasks); }
  }

  lemma RestartKeeps(policy: Policy, w: World, id: Id, inputLost: bool, now: nat)
    requires Inv(w, id)
    ensures Inv(RestartStep(policy, w, id, inputLost, now), id)
  {
    hide Recover, Backfill;
    OpenAt(policy, w.store, id, now);
  }

  lemma ProjectKeeps(w: World, id: Id, passing: set<nat>, works: bool, dies: bool, now: nat)
    requires Inv(w, id)
    ensures Inv(ProjectStep(w, id, passing, works, dies, now), id)
  {
    hide Deliverable;
  }

  lemma StepKeeps(policy: Policy, w: World, id: Id, e: ImageTaskLife.Event, now: nat)
    requires Inv(w, id)
    ensures Inv(ImageTaskLife.Step(policy, w, id, e, now), id)
  {
    hide Inv, SubmitStep, LaunchStep, CancelStep, ConfirmStep, SweepStep, RestartStep, ProjectStep, RunnerStep;
    match e
    case Others(store) => if SameRows(w.store, store, id) { OthersKeep(w, id, store); }
    case Submit(n, plan, keeps) => SubmitKeeps(policy, w, id, n, plan, keeps, now);
    case Launch => LaunchKeeps(w, id, now);
    case Cancel(dies) => CancelKeeps(w, id, dies, now);
    case Confirm(dies) => ConfirmKeeps(w, id, dies, now);
    case Sweep(terminal, unacknowledged, period) => SweepKeeps(w, id, terminal, unacknowledged, period);
    case Restart(inputLost) => RestartKeeps(policy, w, id, inputLost, now);
    case Project(passing, works, dies) => ProjectKeeps(w, id, passing, works, dies, now);
    case _ => RunnerKeeps(policy, w, id, e, now);
  }

  // ---- Whole lives ----

  lemma UnbornInv(w: World, id: Id)
    requires Unborn(w, id)
    ensures Inv(w, id)
  {
    BelowGrows(0);
  }

  lemma {:induction false} RunKeepsInv(policy: Policy, w: World, id: Id, events: Life)
    requires Unborn(w, id)
    ensures Inv(ImageTaskLife.Run(policy, w, id, events), id)
    decreases |events|
  {
    hide Inv, ImageTaskLife.Step;
    if events == [] {
      UnbornInv(w, id);
    } else {
      RunKeepsInv(policy, w, id, events[..|events| - 1]);
      var last := events[|events| - 1];
      StepKeeps(policy, ImageTaskLife.Run(policy, w, id, events[..|events| - 1]), id, last.event, last.now);
    }
  }

  /** Over submission, retries, cancellation, failures, crashes and restarts, at most one
      generation call is sent for each output index, in order, and to OpenAI one in all; the
      task is put back into the queue at most three times; what is stored are requested images,
      each once and in order; a released amount never belongs to a task with a provider receipt. */
  lemma NeverPaidTwice(policy: Policy, w: World, id: Id, events: Life)
    requires Unborn(w, id)
    ensures var t := ImageTaskLife.Run(policy, w, id, events);
            && (forall i :: 0 <= i < |t.calls| ==> t.calls[i] == i)
            && (t.plan.None? ==> t.calls == [])
            && (t.plan.Some? ==>
                  |t.calls| <= if t.plan.value.provider == OpenAI then 1 else t.plan.value.count)
            && (t.plan.Some? ==> R.Ascending(t.stored) && forall i :: i in t.stored ==> i < t.plan.value.count)
            && t.requeues <= 3
            && (ChargeAt(t, id) == Some(Released) ==> !HasReceipt(t, id))
  {
    RunKeepsInv(policy, w, id, events);
  }

  // ---- A cancelled task is never called for ----

  /** No call can follow: the runner, if there is one, is told, and nothing can start another
      that has an input. */
  predicate Doomed(w: World, id: Id) {
    && w.plan.Some? && (w.runner.Some? ==> w.runner.value.aborted)
    && (w.runner.Some? || (TaskAt(w, id).Some? && Active(TaskAt(w, id).value)) ==> w.input.None?)
  }

  lemma CancelDooms(w: World, id: Id, dies: bool, now: nat)
    requires Inv(w, id) && StatusOf(w, id) == Some(Queued)
    ensures Doomed(CancelStep(w, id, dies, now), id) && CancelStep(w, id, dies, now).calls == []
  {
  }

  lemma RunnerDoomed(policy: Policy, w: World, id: Id, e: ImageTaskLife.Event, now: nat)
    requires Doomed(w, id)
    ensures Doomed(RunnerStep(policy, w, id, e, now), id) && RunnerStep(policy, w, id, e, now).calls == w.calls
  {
    hide EnsureReply, EnsureStep, RetryReply, RetryStep, MarkOutcomeUnknown;
    hide MarkKnownFailed, MarkSucceeded, AppendReceipt, MarkRunning;
  }

  lemma RestartDoomed(policy: Policy, w: World, id: Id, inputLost: bool, now: nat)
    requires Doomed(w, id)
    ensures Doomed(RestartStep(policy, w, id, inputLost, now), id)
  {
    hide Recover, Backfill;
    OpenAt(policy, w.store, id, now);
  }

  lemma StepDoomed(policy: Policy, w: World, id: Id, e: ImageTaskLife.Event, now: nat)
    requires Doomed(w, id)
    ensures Doomed(ImageTaskLife.Step(policy, w, id, e, now), id)
    ensures ImageTaskLife.Step(policy, w, id, e, now).calls == w.calls
  {
    hide RunnerStep, Deliverable, Recover, Backfill;
    match e
    case Restart(inputLost) => RestartDoomed(policy, w, id, inputLost, now);
    case _ => RunnerDoomed(policy, w, id, e, now);
  }

  lemma {:induction false} RunDoomed(policy: Policy, w: World, id: Id, events: Life)
    requires Doomed(w, id)
    ensures Doomed(ImageTaskLife.Run(policy, w, id, events), id)
    ensures ImageTaskLife.Run(policy, w, id, events).calls == w.calls
    decreases |events|
  {
    hide Doomed, ImageTaskLife.Step;
    if events != [] {
      RunDoomed(policy, w, id, events[..|events| - 1]);
      var last := events[|events| - 1];
      StepDoomed(policy, ImageTaskLife.Run(policy, w, id, events[..|events| - 1]), id, last.event, last.now);
    }
  }

  /** A cancelled task never reaches the provider, whatever happens afterwards, although its
      status may still change. */
  lemma CancelledNeverCalls(policy: Policy, w: World, id: Id, before: Life, dies: bool, now: nat, after: Life)
    requires Unborn(w, id) && StatusOf(ImageTaskLife.Run(policy, w, id, before), id) == Some(Queued)
    ensures var cancelled := CancelStep(ImageTaskLife.Run(policy, w, id, before), id, dies, now);
            ImageTaskLife.Run(policy, cancelled, id, after).calls == []
  {
    RunKeepsInv(policy, w, id, before);
    CancelDooms(ImageTaskLife.Run(policy, w, id, before), id, dies, now);
    RunDoomed(policy, CancelStep(ImageTaskLife.Run(policy, w, id, before), id, dies, now), id, after);
  }

  // ---- When cancelled is final ----

  predicate CancelledOrGone(w: World, id: Id) { StatusOf(w, id) == Some(Cancelled) || StatusOf(w, id) == None }

  /** The runner, if there is one, still looks at the status before it writes. */
  predicate Final(w: World, id: Id) {
    && w.plan.Some? && CancelledOrGone(w, id) && !w.unsettled
    && (w.runner.Some? ==>
          w.runner.value.phase.Acquiring? || w.runner.value.phase.Failing? || w.runner.value.phase.Leaving?)
  }

  lemma StepKeepsFinal(policy: Policy, w: World, id: Id, e: ImageTaskLife.Event, now: nat)
    requires Final(w, id)
    ensures Final(ImageTaskLife.Step(policy, w, id, e, now), id)
  {
    hide Final, RunnerStep, RestartStep;
    match e
    case Restart(inputLost) => RestartKeepsFinal(policy, w, id, inputLost, now);
    case _ =>
      RunnerKeepsFinal(policy, w, id, e, now);
      RoutesKeepFinal(policy, w, id, e, now);
  }

  lemma RestartKeepsFinal(policy: Policy, w: World, id: Id, inputLost: bool, now: nat)
    requires Final(w, id)
    ensures Final(RestartStep(policy, w, id, inputLost, now), id)
  {
    hide Recover, Backfill;
    OpenAt(policy, w.store, id, now);
  }

  lemma RunnerKeepsFinal(policy: Policy, w: World, id: Id, e: ImageTaskLife.Event, now: nat)
    requires Final(w, id)
    ensures Final(RunnerStep(policy, w, id, e, now), id)
  {
    hide EnsureReply, EnsureStep;
  }

  lemma RoutesKeepFinal(policy: Policy, w: World, id: Id, e: ImageTaskLife.Event, now: nat)
    requires Final(w, id) && !e.Restart?
    ensures Final(RunnerStep(policy, w, id, e, now), id) ==> Final(ImageTaskLife.Step(policy, w, id, e, now), id)
  {
    hide RunnerStep, Recover, Backfill, Deliverable;
  }

  lemma {:induction false} RunKeepsFinal(policy: Policy, w: World, id: Id, events: Life)
    requires Final(w, id)
    ensures Final(ImageTaskLife.Run(policy, w, id, events), id)
    decreases |events|
  {
    hide Final, ImageTaskLife.Step;
    if events != [] {
      RunKeepsFinal(policy, w, id, events[..|events| - 1]);
      var last := events[|events| - 1];
      StepKeepsFinal(policy, ImageTaskLife.Run(policy, w, id, events[..|events| - 1]), id, last.event, last.now);
    }
  }

  lemma CancelIsFinal(w: World, id: Id, dies: bool, now: nat)
    requires Inv(w, id) && StatusOf(w, id) == Some(Queued)
    ensures var c := CancelStep(w, id, dies, now);
            if c.runner.Some? && c.runner.value.phase.Admitted?
            then StatusOf(BeginStep(c, id, now), id) == Some(Running)
            else Final(c, id)
  {
  }

  /** After a cancellation in any reachable state, the task stays cancelled until it is swept,
      whatever happens, if and only if its runner was not between its last look at the status
      and `markRunning`. */
  lemma CancelledForGoodExactly(policy: Policy, w: World, id: Id, before: Life, dies: bool, now: nat)
    requires Unborn(w, id) && StatusOf(ImageTaskLife.Run(policy, w, id, before), id) == Some(Queued)
    ensures var c := CancelStep(ImageTaskLife.Run(policy, w, id, before), id, dies, now);
            (forall after: Life :: CancelledOrGone(ImageTaskLife.Run(policy, c, id, after), id))
            <==> !(c.runner.Some? && c.runner.value.phase.Admitted?)
  {
    var q := ImageTaskLife.Run(policy, w, id, before);
    var c := CancelStep(q, id, dies, now);
    RunKeepsInv(policy, w, id, before);
    CancelIsFinal(q, id, dies, now);
    hide Inv, CancelStep, Final;
    if c.runner.Some? && c.runner.value.phase.Admitted? {
      BeginRuns(policy, c, id, now);
    } else {
      forall after: Life ensures CancelledOrGone(ImageTaskLife.Run(policy, c, id, after), id) {
        RunKeepsFinal(policy, c, id, after);
        FinalStatus(ImageTaskLife.Run(policy, c, id, after), id);
      }
    }
  }

  lemma FinalStatus(w: World, id: Id)
    requires Final(w, id)
    ensures CancelledOrGone(w, id)
  {
  }

  lemma BeginRuns(policy: Policy, c: World, id: Id, now: nat)
    requires c.runner.Some? && c.runner.value.phase.Admitted? && StatusOf(BeginStep(c, id, now), id) == Some(Running)
    ensures exists after: Life :: !CancelledOrGone(ImageTaskLife.Run(policy, c, id, after), id)
  {
    var after := [ImageTaskLife.Timed(Begin, now)];
    assert after[..0] == [];
    assert ImageTaskLife.Run(policy, c, id, after[..0]) == c;
    assert ImageTaskLife.Run(policy, c, id, after) == BeginStep(c, id, now);
  }

  // ---- Runs that do happen ----

  /** The store would accept this first task. */
  ghost predicate Accepts(policy: Policy, w: World, n: Submission, plan: Plan) {
    Unborn(w, n.id) && plan.count > 0 && CreateReply(policy, w.store, n) == Created
  }

  lemma EmptyStoreAccepts(policy: Policy, n: Submission, plan: Plan)
    requires plan.count > 0 && n.queueMax > 0 && n.ownerTaskMax > 0
    requires n.quote.amount <= policy.ownerLimit && n.quote.amount <= policy.ProviderLimit(n.quote.provider)
    ensures Accepts(policy, World(Store(map[], map[]), None, [], None, [], 0, None, false), n, plan)
  {
    var none: Tasks, empty: Quota := map[], map[];
    assert Weights(empty, OfOwner(n.owner, n.quote.period)) == map[];
    assert Weights(empty, OfAccount(n.quote.provider, n.quote.account, n.quote.period)) == map[];
    assert ActiveIds(none) == {} && ActiveIdsOf(none, n.owner) == {};
    var found := FindByIdempotency(none, n.owner, n.key);
    assert found.None?;
  }

  lemma RunMore(policy: Policy, w: World, id: Id, events: Life, e: ImageTaskLife.Event)
    ensures ImageTaskLife.Run(policy, w, id, events + [ImageTaskLife.Timed(e, 0)])
         == ImageTaskLife.Step(policy, ImageTaskLife.Run(policy, w, id, events), id, e, 0)
  {
    hide ImageTaskLife.Step;
    assert (events + [ImageTaskLife.Timed(e, 0)])[..|events|] == events;
  }

  function Now(e: ImageTaskLife.Event): ImageTaskLife.Timed { ImageTaskLife.Timed(e, 0) }

  /** Submitted, launched, admitted: the runner waits for its last check. */
  function ToAdmission(n: Submission, plan: Plan): Life { [Now(Submit(n, plan, KeepsInput))] + [Now(Admit(n.quote))] }

  lemma AdmittedWorld(policy: Policy, w: World, n: Submission, plan: Plan)
    requires Accepts(policy, w, n, plan)
    ensures var t := ImageTaskLife.Run(policy, w, n.id, ToAdmission(n, plan));
            && TaskAt(t, n.id) == Some(NewTask(n, 0)) && ChargeAt(t, n.id) == Some(Reserved)
            && t == World(t.store, Some(plan), [], Some(Runner(false, Admitted(plan))), [], 0, Some(plan), false)
  {
    hide CreateReply;
    RunMore(policy, w, n.id, [], Submit(n, plan, KeepsInput));
    assert [] + [Now(Submit(n, plan, KeepsInput))] == [Now(Submit(n, plan, KeepsInput))];
    assert ImageTaskLife.Run(policy, w, n.id, []) == w;
    RunMore(policy, w, n.id, [Now(Submit(n, plan, KeepsInput))], Admit(n.quote));
  }

  /** The status `cancelled` is not final: a task that is submitted, admitted and cancelled
      is marked as running by the runner that had passed its last check. */
  lemma CancelledMayRun(policy: Policy, w: World, n: Submission, plan: Plan)
    requires Accepts(policy, w, n, plan)
    ensures var cancelled := ToAdmission(n, plan) + [Now(ImageTaskLife.Cancel(false))];
            && StatusOf(ImageTaskLife.Run(policy, w, n.id, cancelled), n.id) == Some(Cancelled)
            && StatusOf(ImageTaskLife.Run(policy, w, n.id, cancelled + [Now(Begin)]), n.id) == Some(Running)
  {
    hide Accepts, ToAdmission, ImageTaskLife.Run;
    AdmittedWorld(policy, w, n, plan);
    RunMore(policy, w, n.id, ToAdmission(n, plan), ImageTaskLife.Cancel(false));
    RunMore(policy, w, n.id, ToAdmission(n, plan) + [Now(ImageTaskLife.Cancel(false))], Begin);
  }

  /** The one call was sent and its receipt is on record. */
  function ToReceipt(n: Submission, plan: Plan): Life {
    ToAdmission(n, plan) + [Now(Begin)] + [Now(Call)] + [Now(ImageTaskLife.Receipt(1))]
  }

  function ToCommit(n: Submission, plan: Plan): Life { ToReceipt(n, plan) + [Now(Read([R.Image]))] + [Now(Commit)] }

  lemma PaidWorld(policy: Policy, w: World, n: Submission, plan: Plan)
    requires Accepts(policy, w, n, plan)
    ensures var t := ImageTaskLife.Run(policy, w, n.id, ToReceipt(n, plan));
            && TaskAt(t, n.id) == Some(NewTask(n, 0).(status := Running, receipts := [1]))
            && ChargeAt(t, n.id) == Some(OutcomeUnknown)
            && t == World(t.store, Some(plan), [], Some(Runner(false, Paid(plan, []))), [0], 0, Some(plan), false)
  {
    hide Accepts, ToAdmission, ImageTaskLife.Run;
    var a := ToAdmission(n, plan);
    AdmittedWorld(policy, w, n, plan);
    RunMore(policy, w, n.id, a, Begin);
    RunMore(policy, w, n.id, a + [Now(Begin)], Call);
    RunMore(policy, w, n.id, a + [Now(Begin)] + [Now(Call)], ImageTaskLife.Receipt(1));
    assert [] + [0] == [0] && [] + [1] == [1];
  }

  lemma CommittedWorld(policy: Policy, w: World, n: Submission, plan: Plan)
    requires Accepts(policy, w, n, plan) && plan == Plan(plan.provider, 1)
    ensures var t := ImageTaskLife.Run(policy, w, n.id, ToCommit(n, plan));
            && TaskAt(t, n.id) == Some(NewTask(n, 0).(status := Running, receipts := [1]))
            && ChargeAt(t, n.id) == Some(OutcomeUnknown)
            && t == World(t.store, Some(plan), [0], Some(Runner(false, Stored(true))), [0], 0, Some(plan), false)
  {
    hide Accepts, ToReceipt, ImageTaskLife.Run, ReadStep, CommitStep;
    var a := ToReceipt(n, plan);
    PaidWorld(policy, w, n, plan);
    var paid := ImageTaskLife.Run(policy, w, n.id, a);
    RunMore(policy, w, n.id, a, Read([R.Image]));
    OneImageRead(paid, plan);
    RunMore(policy, w, n.id, a + [Now(Read([R.Image]))], Commit);
  }

  lemma OneImageRead(w: World, plan: Plan)
    requires w.runner == Some(Runner(false, Paid(plan, []))) && plan.count == 1 && w.stored == []
    ensures var t := ReadStep(w, [R.Image]);
            t == MoveTo(w, Delivering([0], true)) && CommitStep(t) == MoveTo(w.(stored := [0]), Stored(true))
  {
    OneImage();
    hide R.Images, R.ImagesOf, R.Clean, R.CleanOf;
  }

  lemma OneImage()
    ensures R.ImagesOf([R.Image], 1) == [0] && R.CleanOf([R.Image], 1)
    ensures [] + [R.Data([R.Image])] == [R.Data([R.Image])]
    ensures R.Images([R.Data([R.Image])]) == [0] && R.Clean([R.Data([R.Image])])
  {
    OneAnswer(R.Data([R.Image]));
    assert R.ImagesOf([R.Image], 0) == [];
    hide R.Images;
  }

  lemma OneAnswer(a: R.Answer)
    requires R.Delivers(a)
    ensures R.Images([a]) == [0]
  {
    assert [a][..0] == [];
    assert R.Images([]) == [];
  }

  /** The crash for which the recovery exists does happen: a single image is paid for and
      committed, the process dies before the task is marked, and the restart delivers it with
      an unknown charge. */
  lemma DeliveredAfterCrash(policy: Policy, w: World, n: Submission, plan: Plan)
    requires Accepts(policy, w, n, plan) && plan == Plan(plan.provider, 1)
    ensures var events := ToCommit(n, plan) + [Now(Restart(false))];
            var t := ImageTaskLife.Run(policy, w, n.id, events + [Now(Project({0}, true, false))]);
            && StatusOf(ImageTaskLife.Run(policy, w, n.id, ToCommit(n, plan)), n.id) == Some(Running)
            && StatusOf(t, n.id) == Some(Succeeded) && ChargeAt(t, n.id) == Some(OutcomeUnknown)
  {
    hide Accepts, ToCommit, ImageTaskLife.Run, RestartStep, ProjectStep;
    var c := ImageTaskLife.Run(policy, w, n.id, ToCommit(n, plan));
    CommittedWorld(policy, w, n, plan);
    RunMore(policy, w, n.id, ToCommit(n, plan), Restart(false));
    RunMore(policy, w, n.id, ToCommit(n, plan) + [Now(Restart(false))], Project({0}, true, false));
    InterruptedAt(policy, c, n.id, false, 0);
    FirstPasses(plan);
    ProjectedAt(c, RestartStep(policy, c, n.id, false, 0), n.id, {0}, false, 0);
  }

  lemma FirstPasses(plan: Plan)
    requires plan.count == 1
    ensures Deliverable([0], {0}, plan)
  {
    var found := FoundIn([0], {0});
    assert R.CandidateAt(found, 0) == 0 && found[0].image;
    assert R.Verified(found, plan.count, |found|, 0);
  }

  // ---- Interrupted tasks ----

  /** Nothing of this task runs or waits to run. */
  predicate Over(w: World, id: Id) {
    w.plan.Some? && w.runner.None? && (TaskAt(w, id).Some? ==> !Active(TaskAt(w, id).value))
  }

  lemma StepKeepsOver(policy: Policy, w: World, id: Id, e: ImageTaskLife.Event, now: nat)
    requires Over(w, id)
    ensures Over(ImageTaskLife.Step(policy, w, id, e, now), id)
    ensures ImageTaskLife.Step(policy, w, id, e, now).calls == w.calls
  {
    hide Recover, Backfill, Deliverable;
    if e.Restart? { OpenAt(policy, w.store, id, now); }
  }

  lemma {:induction false} RunKeepsOver(policy: Policy, w: World, id: Id, events: Life)
    requires Over(w, id)
    ensures Over(ImageTaskLife.Run(policy, w, id, events), id)
    ensures ImageTaskLife.Run(policy, w, id, events).calls == w.calls
    decreases |events|
  {
    hide Over, ImageTaskLife.Step;
    if events != [] {
      RunKeepsOver(policy, w, id, events[..|events| - 1]);
      var last := events[|events| - 1];
      StepKeepsOver(policy, ImageTaskLife.Run(policy, w, id, events[..|events| - 1]), id, last.event, last.now);
    }
  }

  /** What a restart after a crash in this state needs to deliver the task. */
  ghost predicate Recovers(w: World, id: Id, inputLost: bool, passing: set<nat>) {
    && !inputLost && w.input.Some? && Deliverable(w.stored, passing, w.input.value)
    && HasReceipt(w, id) && w.store.tasks[id].acknowledgedAt.None?
  }

  /** Wherever in its life a running task is hit by a crash, the restart delivers it exactly
      when its input, a receipt, and a committed output set with a valid image are there and
      it was not confirmed; otherwise its outcome is unknown. Its charge is kept as unknown,
      unless it was released by a cancellation. No call is ever sent for it again. */
  lemma InterruptedTask(policy: Policy, w: World, id: Id, events: Life, inputLost: bool, passing: set<nat>,
                        dies: bool, crash: nat, open: nat, later: Life)
    requires Unborn(w, id) && StatusOf(ImageTaskLife.Run(policy, w, id, events), id) == Some(Running)
    ensures var r := ImageTaskLife.Run(policy, w, id, events);
            var t := ProjectStep(RestartStep(policy, r, id, inputLost, crash), id, passing, true, dies, open);
            && StatusOf(t, id) == Some(if Recovers(r, id, inputLost, passing) then Succeeded else FailedUnknown)
            && ChargeAt(t, id) == Some(if ChargeAt(r, id) == Some(Released) then Released else OutcomeUnknown)
            && ImageTaskLife.Run(policy, t, id, later).calls == r.calls
  {
    var r := ImageTaskLife.Run(policy, w, id, events);
    RunKeepsInv(policy, w, id, events);
    CommonFacts(r, id);
    hide Inv, Over, RestartStep, ProjectStep, ImageTaskLife.Run, Recovers;
    var restarted := RestartStep(policy, r, id, inputLost, crash);
    InterruptedAt(policy, r, id, inputLost, crash);
    ProjectedAt(r, restarted, id, passing, dies, open);
    RecoversAt(r, restarted, id, inputLost, passing);
    RunKeepsOver(policy, ProjectStep(restarted, id, passing, true, dies, open), id, later);
  }

  /** The task failed with an unknown outcome, or was swept, and nothing looks at it again. */
  predicate Lost(w: World, id: Id) {
    && w.plan.Some? && w.runner.None? && !w.unsettled
    && (StatusOf(w, id) == Some(FailedUnknown) || StatusOf(w, id) == None)
  }

  lemma StepKeepsLost(policy: Policy, w: World, id: Id, e: ImageTaskLife.Event, now: nat)
    requires Lost(w, id)
    ensures Lost(ImageTaskLife.Step(policy, w, id, e, now), id)
  {
    hide Recover, Backfill, Deliverable;
    if e.Restart? { OpenAt(policy, w.store, id, now); }
  }

  lemma {:induction false} RunKeepsLost(policy: Policy, w: World, id: Id, events: Life)
    requires Lost(w, id)
    ensures Lost(ImageTaskLife.Run(policy, w, id, events), id)
    decreases |events|
  {
    hide Lost, ImageTaskLife.Step;
    if events != [] {
      RunKeepsLost(policy, w, id, events[..|events| - 1]);
      var last := events[|events| - 1];
      StepKeepsLost(policy, ImageTaskLife.Run(policy, w, id, events[..|events| - 1]), id, last.event, last.now);
    }
  }

  /** A restart has one chance: if its write fails, or the process dies again before it looks
      at the task, then the task stays unknown until it is swept, whatever is stored for it. */
  lemma RecoveryHasOneChance(policy: Policy, w: World, id: Id, events: Life, inputLost: bool, crash: nat,
                             passing: set<nat>, dies: bool, lostAgain: bool, again: nat, later: Life)
    requires Unborn(w, id) && StatusOf(ImageTaskLife.Run(policy, w, id, events), id) == Some(Running)
    ensures var restarted := RestartStep(policy, ImageTaskLife.Run(policy, w, id, events), id, inputLost, crash);
            var failed := ProjectStep(restarted, id, passing, false, dies, again);
            var twice := RestartStep(policy, restarted, id, lostAgain, again);
            && Lost(ImageTaskLife.Run(policy, failed, id, later), id)
            && Lost(ImageTaskLife.Run(policy, twice, id, later), id)
  {
    var r := ImageTaskLife.Run(policy, w, id, events);
    RunKeepsInv(policy, w, id, events);
    CommonFacts(r, id);
    hide Inv, RestartStep, ImageTaskLife.Run, Lost, ProjectStep;
    var restarted := RestartStep(policy, r, id, inputLost, crash);
    InterruptedAt(policy, r, id, inputLost, crash);
    LostAt(policy, restarted, id, passing, dies, lostAgain, again);
    RunKeepsLost(policy, ProjectStep(restarted, id, passing, false, dies, again), id, later);
    RunKeepsLost(policy, RestartStep(policy, restarted, id, lostAgain, again), id, later);
  }

  lemma LostAt(policy: Policy, w: World, id: Id, passing: set<nat>, dies: bool, lostAgain: bool, again: nat)
    requires w.plan.Some? && w.runner.None? && w.unsettled && StatusOf(w, id) == Some(FailedUnknown)
    ensures Lost(ProjectStep(w, id, passing, false, dies, again), id)
    ensures Lost(RestartStep(policy, w, id, lostAgain, again), id)
  {
    hide Recover, Backfill, Deliverable;
    OpenAt(policy, w.store, id, again);
  }

  lemma CommonFacts(w: World, id: Id)
    requires Inv(w, id) && StatusOf(w, id) == Some(Running)
    ensures w.plan.Some? && ChargeAt(w, id) != Some(Settled)
    ensures ChargeAt(w, id) == Some(Released) ==> !HasReceipt(w, id)
  {
  }

  lemma InterruptedAt(policy: Policy, w: World, id: Id, inputLost: bool, crash: nat)
    requires StatusOf(w, id) == Some(Running) && ChargeAt(w, id) != Some(Settled)
    ensures var t := RestartStep(policy, w, id, inputLost, crash);
            && t == w.(store := t.store, runner := None, input := t.input, unsettled := true)
            && t.input == (if inputLost then None else w.input)
            && id in t.store.tasks && t.store.tasks[id] == w.store.tasks[id].(status := FailedUnknown, updated := crash)
            && ChargeAt(t, id) == Some(if ChargeAt(w, id) == Some(Released) then Released else OutcomeUnknown)
  {
    hide Recover, Backfill;
    OpenAt(policy, w.store, id, crash);
  }

  lemma RecoversAt(w: World, r: World, id: Id, inputLost: bool, passing: set<nat>)
    requires id in w.store.tasks && id in r.store.tasks
    requires r.store.tasks[id] == w.store.tasks[id].(status := FailedUnknown, updated := r.store.tasks[id].updated)
    requires r.input == (if inputLost then None else w.input) && r.stored == w.stored
    ensures Recovers(w, id, inputLost, passing) <==>
              r.input.Some? && Deliverable(r.stored, passing, r.input.value) && Recoverable(r.store, id)
  {
    hide Deliverable;
  }

  lemma ProjectedAt(w: World, r: World, id: Id, passing: set<nat>, dies: bool, open: nat)
    requires w.plan.Some? && r == w.(store := r.store, runner := None, input := r.input, unsettled := true)
    requires id in r.store.tasks && r.store.tasks[id].status == FailedUnknown
    requires ChargeAt(r, id) == Some(OutcomeUnknown) || (ChargeAt(r, id) == Some(Released) && !HasReceipt(r, id))
    ensures var t := ProjectStep(r, id, passing, true, dies, open);
            && Over(t, id) && t.calls == w.calls && ChargeAt(t, id) == ChargeAt(r, id)
            && StatusOf(t, id) == Some(
                 if r.input.Some? && Deliverable(r.stored, passing, r.input.value) && Recoverable(r.store, id)
                 then Succeeded else FailedUnknown)
  {
    hide Deliverable;
  }

  // ---- Settled means complete ----

  predicate NotSettled(w: World, id: Id) { ChargeAt(w, id) != Some(Settled) }

  lemma RunnerSettles(policy: Policy, w: World, id: Id, e: ImageTaskLife.Event, now: nat)
    requires NotSettled(w, id) && !NotSettled(RunnerStep(policy, w, id, e, now), id)
    ensures e.Mark? && w.runner.Some? && w.runner.value.phase == Stored(true)
  {
    hide EnsureReply, RetryReply;
  }

  lemma StepSettles(policy: Policy, w: World, id: Id, e: ImageTaskLife.Event, now: nat)
    requires NotSettled(w, id) && !NotSettled(ImageTaskLife.Step(policy, w, id, e, now), id)
    ensures e.Mark? && w.runner.Some? && w.runner.value.phase == Stored(true)
  {
    hide NotSettled, RunnerStep, RestartStep, SubmitStep, LaunchStep, CancelStep, ConfirmStep, SweepStep, ProjectStep;
    match e
    case Others(_) => RoutesSettleNothing(policy, w, id, e, now);
    case Submit(n, plan, keeps) => SubmitSettlesNothing(policy, w, id, n, plan, keeps, now);
    case Launch => RoutesSettleNothing(policy, w, id, e, now);
    case Cancel(_) => RoutesSettleNothing(policy, w, id, e, now);
    case Confirm(_) => RoutesSettleNothing(policy, w, id, e, now);
    case Sweep(_, _, _) => RoutesSettleNothing(policy, w, id, e, now);
    case Restart(inputLost) => RestartSettlesNothing(policy, w, id, inputLost, now);
    case Project(_, _, _) => RoutesSettleNothing(policy, w, id, e, now);
    case _ => RunnerSettles(policy, w, id, e, now);
  }

  lemma RoutesSettleNothing(policy: Policy, w: World, id: Id, e: ImageTaskLife.Event, now: nat)
    requires NotSettled(w, id)
    requires e.Others? || e.Launch? || e.Cancel? || e.Confirm? || e.Sweep? || e.Project?
    ensures NotSettled(ImageTaskLife.Step(policy, w, id, e, now), id)
  {
    hide Deliverable, Expired;
  }

  lemma SubmitSettlesNothing(policy: Policy, w: World, id: Id, n: Submission, plan: Plan, keeps: Keeps, now: nat)
    requires NotSettled(w, id)
    ensures NotSettled(SubmitStep(policy, w, id, n, plan, keeps, now), id)
  {
    hide CreateReply;
  }

  lemma RestartSettlesNothing(policy: Policy, w: World, id: Id, inputLost: bool, now: nat)
    requires NotSettled(w, id)
    ensures NotSettled(RestartStep(policy, w, id, inputLost, now), id)
  {
    hide Recover, Backfill;
    OpenAt(policy, w.store, id, now);
  }

  /** A charge becomes settled only when a task is marked whose committed outputs are exactly
      the images that were asked for, all of them and in order. */
  lemma SettledOnlyComplete(policy: Policy, w: World, id: Id, events: Life, e: ImageTaskLife.Event, now: nat)
    requires Unborn(w, id) && NotSettled(ImageTaskLife.Run(policy, w, id, events), id)
    requires !NotSettled(ImageTaskLife.Step(policy, ImageTaskLife.Run(policy, w, id, events), id, e, now), id)
    ensures var t := ImageTaskLife.Run(policy, w, id, events);
            e.Mark? && t.plan.Some? && t.stored == R.Below(t.plan.value.count) && HasReceipt(t, id)
  {
    hide ImageTaskLife.Step;
    var t := ImageTaskLife.Run(policy, w, id, events);
    RunKeepsInv(policy, w, id, events);
    StepSettles(policy, t, id, e, now);
  }
}
