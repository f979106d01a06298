/** What each step of an image task comes to: what a submission, a failure, a restart or a route
    leaves of the task, its charge, its input and its outputs, and that a task that nothing
    disturbs delivers exactly the images that its calls brought and is charged for them. */
module ImageTaskOutcomes {
  import opened RelayTasks
  import opened ImageTaskLife
  import opened ImageTaskTheorems
  import opened ImageTaskRounds
  import O = RelayOutcomes
  import R = ImageResults

  // ---- Submission and start ----

  /** A first submission that the store creates is queued and charged; with its input stored its
      runner starts, without it the task is removed and its charge given back, and a crash
      leaves it queued without input. Any other submission changes nothing. */
  lemma SubmitExactly(policy: Policy, w: World, id: Id, n: Submission, plan: Plan, keeps: Keeps, now: nat)
    ensures var t := ImageTaskLife.Step(policy, w, id, Submit(n, plan, keeps), now);
            if w.plan.Some? || n.id != id || plan.count == 0 || CreateReply(policy, w.store, n) != Created then t == w
            else
              var created := CreateStep(policy, w.store, n, now);
              match keeps
              case KeepsInput =>
                t == w.(store := created, plan := Some(plan), input := Some(plan),
                        runner := Some(Runner(false, Acquiring)))
              case LosesInput =>
                && t == w.(store := t.store, plan := Some(plan)) && t.store.tasks == created.tasks - {id}
                && O.Moves(created.quota, t.store.quota, id, {Reserved}, Released)
              case Crashes => t == w.(store := created, plan := Some(plan))
  {
    hide CreateReply, CreateStep, O.Moves;
    O.RemoveExactly(CreateStep(policy, w.store, n, now), id, 0, now);
  }

  /** A queued task without a runner is started, or fails at once if its input is gone, and then
      gives its charge back. */
  lemma LaunchExactly(policy: Policy, w: World, id: Id, now: nat)
    ensures var t := ImageTaskLife.Step(policy, w, id, Launch, now);
            if StatusOf(w, id) != Some(Queued) || w.runner.Some? then t == w
            else if w.input.Some? then t == w.(runner := Some(Runner(false, Acquiring)))
            else
              && t == w.(store := t.store) && StatusOf(t, id) == Some(Failed)
              && O.Moves(w.store.quota, t.store.quota, id, {Reserved}, Released)
  {
    hide O.Moves;
    O.FailExactly(w.store, id, now);
  }

  /** With its permit the runner goes on only if the task is still queued, its input there and
      its charge made; what the call to the store was refused ends as an ordinary failure. */
  lemma AdmitExactly(policy: Policy, w: World, id: Id, q: Quote, now: nat)
    requires w.runner.Some? && w.runner.value.phase.Acquiring?
    ensures var t := ImageTaskLife.Step(policy, w, id, Admit(q), now);
            && t.runner.Some? && t.runner.value.aborted == w.runner.value.aborted
            && t == w.(store := t.store, runner := t.runner)
            && if StatusOf(w, id) != Some(Queued) then t.store == w.store && t.runner.value.phase == Leaving(false)
               else if w.input.None? then
                 && StatusOf(t, id) == Some(Failed) && t.runner.value.phase == Leaving(false)
                 && O.Moves(w.store.quota, t.store.quota, id, {Reserved}, Released)
               else if EnsureReply(policy, w.store, id, q).Refused? then
                 t.store == w.store && t.runner.value.phase == Failing(Other)
               else
                 && t.store == EnsureStep(policy, w.store, id, q) && Of(id) in t.store.quota
                 && t.runner.value.phase == Admitted(w.input.value)
  {
    hide EnsureReply, O.Moves;
    O.FailExactly(w.store, id, now);
    O.EnsureExactly(policy, w.store, id, q);
  }

  /** The last check is behind it: the task is marked as running whatever its status is, and the
      first call comes next; a call is sent unless the task was aborted. */
  lemma BeginExactly(policy: Policy, w: World, id: Id, now: nat)
    requires w.runner.Some?
    ensures w.runner.value.phase.Admitted? ==>
              var t := ImageTaskLife.Step(policy, w, id, Begin, now);
              && t == MoveTo(w.(store := t.store), Calling(w.runner.value.phase.plan, []))
              && t.store.quota == w.store.quota && (id in w.store.tasks ==> StatusOf(t, id) == Some(Running))
    ensures w.runner.value.phase.Calling? ==>
              var t, p := ImageTaskLife.Step(policy, w, id, Call, now), w.runner.value.phase;
              t == if w.runner.value.aborted then w
                   else MoveTo(w.(calls := w.calls + [|p.answers|]), Posted(p.plan, p.answers))
  {
    O.StartExactly(w.store, id, now);
  }

  /** The receipt of an answer is recorded before anything else is made of it, and holds the
      charge as unknown. */
  lemma ReceiptExactly(policy: Policy, w: World, id: Id, receipt: Name, now: nat)
    requires w.runner.Some? && w.runner.value.phase.Posted?
    ensures var t, p := ImageTaskLife.Step(policy, w, id, ImageTaskLife.Receipt(receipt), now), w.runner.value.phase;
            && t == MoveTo(w.(store := t.store), Paid(p.plan, p.answers))
            && O.Moves(w.store.quota, t.store.quota, id, {Reserved, OutcomeUnknown}, OutcomeUnknown)
            && (id in w.store.tasks ==>
                  t.store.tasks[id].receipts == w.store.tasks[id].receipts + [receipt])
  {
    hide O.Moves;
    O.RemoveExactly(w.store, id, receipt, now);
  }

  // ---- Answers and results ----

  /** What an answer is made of: OpenAI's one answer holds all images, Seedream's the next one,
      and its loop goes on while answers can be read and images are missing. */
  lemma ReadExactly(policy: Policy, w: World, id: Id, items: seq<R.Item>, now: nat)
    requires w.runner.Some? && w.runner.value.phase.Paid?
    ensures var t, p := ImageTaskLife.Step(policy, w, id, Read(items), now), w.runner.value.phase;
            var answers, n := p.answers + [R.Data(items)], p.plan.count;
            t == MoveTo(w,
              if p.plan.provider == OpenAI then DeliveredAs(R.ImagesOf(items, n), R.CleanOf(items, n))
              else if R.ItemAt(items, 0).Unfetchable? then FailedAfter(p.answers, Error.Unknown)
              else if |answers| < n then Calling(p.plan, answers)
              else DeliveredAs(R.Images(answers), R.Clean(answers)))
  {
    hide R.ImagesOf, R.CleanOf, R.Images, R.Clean;
  }

  /** Nothing that can be shown leaves the outcome unknown. */
  function DeliveredAs(images: seq<nat>, complete: bool): Phase {
    if images == [] then Failing(Error.Unknown) else Delivering(images, complete)
  }

  /** A failure between calls: images that earlier calls brought are delivered as incomplete. */
  function FailedAfter(answers: seq<R.Answer>, error: Error): Phase {
    if R.Images(answers) == [] then Failing(error) else Delivering(R.Images(answers), false)
  }

  /** Where a failure leads from each place of the runner. */
  lemma ThrowExactly(policy: Policy, w: World, id: Id, error: Error, now: nat)
    requires w.runner.Some?
    ensures var t := ImageTaskLife.Step(policy, w, id, Throw(error), now);
            match w.runner.value.phase
            case Acquiring => t == MoveTo(w, Failing(error))
            case Admitted(_) => t == MoveTo(w, Failing(error))
            case Calling(_, answers) => t == MoveTo(w, FailedAfter(answers, error))
            case Posted(_, answers) => t == if error == Admission then w else MoveTo(w, FailedAfter(answers, error))
            case Paid(_, answers) => t == MoveTo(w, FailedAfter(answers, error))
            case Delivering(_, _) => t == MoveTo(w, Failing(Error.Unknown))
            case Stored(_) => t == MoveTo(w, Failing(Other))
            case _ => t == w
  {
    hide R.Images;
  }

  /** At most three images are committed, once, and a task is marked as delivered with exactly
      the verdict it was read with; a complete result settles its charge. */
  lemma CommitExactly(policy: Policy, w: World, id: Id, now: nat)
    requires w.runner.Some?
    ensures w.runner.value.phase.Delivering? ==>
              var t, p := ImageTaskLife.Step(policy, w, id, Commit, now), w.runner.value.phase;
              t == if |p.images| <= 3 && w.stored == [] then MoveTo(w.(stored := p.images), Stored(p.complete))
                   else MoveTo(w, Failing(Error.Unknown))
    ensures w.runner.value.phase.Stored? ==>
              var t, complete := ImageTaskLife.Step(policy, w, id, Mark, now), w.runner.value.phase.complete;
              && t == MoveTo(w.(store := t.store), Leaving(false))
              && (id in w.store.tasks ==>
                    t.store.tasks[id] ==
                      w.store.tasks[id].(status := Succeeded, complete := Some(complete), updated := now))
              && O.Moves(w.store.quota, t.store.quota, id, {Reserved, OutcomeUnknown},
                         if complete then Settled else OutcomeUnknown)
  {
    hide O.Moves;
    if w.runner.value.phase.Stored? { O.SucceedExactly(w.store, id, w.runner.value.phase.complete, now); }
  }

  // ---- The catch block and after ----

  /** What a failure leaves: a cancelled task and a failed write nothing; a failed admission
      before any receipt is queued again up to three times, its input kept; else the outcome is
      unknown if there is a receipt or the failure says so, and only otherwise is the charge
      given back. */
  ghost predicate Caught(w: World, t: World, id: Id, works: bool)
    requires w.runner.Some? && w.runner.value.phase.Failing? && id in w.store.tasks
  {
    var task, error := w.store.tasks[id], w.runner.value.phase.error;
    if task.status == Cancelled || !works then t == MoveTo(w, Leaving(false))
    else if Retries(task, error) && task.retries < 3 then
      && t == MoveTo(w.(store := t.store, requeues := w.requeues + 1), Leaving(true))
      && StatusOf(t, id) == Some(Queued) && t.store.tasks[id].retries == task.retries + 1
      && t.store.quota == w.store.quota
    else
      && t == MoveTo(w.(store := t.store), Leaving(false))
      && if task.receipts != [] || error == Error.Unknown then
           && StatusOf(t, id) == Some(FailedUnknown)
           && O.Moves(w.store.quota, t.store.quota, id, {Reserved, OutcomeUnknown}, OutcomeUnknown)
         else
           StatusOf(t, id) == Some(Failed) && O.Moves(w.store.quota, t.store.quota, id, {Reserved}, Released)
  }

  /** The admission failed before any receipt. */
  predicate Retries(task: Task, error: Error) {
    error == Admission && task.status in {Queued, Running} && task.receipts == []
  }

  lemma CatchExactly(policy: Policy, w: World, id: Id, works: bool, now: nat)
    requires w.runner.Some? && w.runner.value.phase.Failing? && id in w.store.tasks
    ensures Caught(w, ImageTaskLife.Step(policy, w, id, Catch(works), now), id, works)
  {
    hide Caught, CatchStep, Retries;
    if Retries(w.store.tasks[id], w.runner.value.phase.error) {
      RetryIsCaught(w, id, works, now);
    } else {
      FailureIsCaught(w, id, works, now);
    }
  }

  lemma RetryIsCaught(w: World, id: Id, works: bool, now: nat)
    requires w.runner.Some? && w.runner.value.phase.Failing? && id in w.store.tasks
    requires Retries(w.store.tasks[id], w.runner.value.phase.error)
    ensures Caught(w, CatchStep(w, id, works, now), id, works)
  {
    hide O.Moves, MarkOutcomeUnknown, MarkKnownFailed, RetryStep;
    O.RetryExactly(w.store, id, now);
  }

  lemma FailureIsCaught(w: World, id: Id, works: bool, now: nat)
    requires w.runner.Some? && w.runner.value.phase.Failing? && id in w.store.tasks
    requires !Retries(w.store.tasks[id], w.runner.value.phase.error)
    ensures Caught(w, CatchStep(w, id, works, now), id, works)
  {
    hide O.Moves, MarkOutcomeUnknown, MarkKnownFailed, RetryStep, CancelQueued;
    O.FailExactly(w.store, id, now);
  }

  /** The input goes with the runner unless it is kept for a retry. */
  lemma LeaveExactly(policy: Policy, w: World, id: Id, now: nat)
    requires w.runner.Some? && w.runner.value.phase.Leaving?
    ensures ImageTaskLife.Step(policy, w, id, Leave, now) ==
              w.(runner := None, input := if w.runner.value.phase == Leaving(true) then w.input else None)
  {
  }

  // ---- Routes and restarts ----

  /** Only a queued task is cancelled: its charge is given back, and unless the process dies its
      runner is told and its input dropped. */
  lemma CancelExactly(policy: Policy, w: World, id: Id, dies: bool, now: nat)
    ensures var t := ImageTaskLife.Step(policy, w, id, ImageTaskLife.Cancel(dies), now);
            if StatusOf(w, id) != Some(Queued) then t == w
            else
              && StatusOf(t, id) == Some(Cancelled) && O.Moves(w.store.quota, t.store.quota, id, {Reserved}, Released)
              && t == if dies then w.(store := t.store, runner := None)
                      else w.(store := t.store, input := None,
                              runner := if w.runner.None? then None else Some(w.runner.value.(aborted := true)))
  {
    hide O.Moves;
    O.FailExactly(w.store, id, now);
  }

  /** A delivered task is confirmed while its outputs are there, or again; the outputs then go,
      unless the process dies first. */
  lemma ConfirmExactly(policy: Policy, w: World, id: Id, dies: bool, now: nat)
    ensures var t := ImageTaskLife.Step(policy, w, id, Confirm(dies), now);
            if StatusOf(w, id) != Some(Succeeded) || (w.store.tasks[id].acknowledgedAt == None && w.stored == [])
            then t == w
            else
              && t == w.(store := t.store, stored := if dies then w.stored else [])
              && t.store.quota == w.store.quota
              && t.store.tasks[id].acknowledgedAt ==
                   Some(if w.store.tasks[id].acknowledgedAt.Some? then w.store.tasks[id].acknowledgedAt.value else now)
  {
  }

  /** What expires takes its input and outputs with it, and the outputs of a confirmed task go. */
  lemma SweepExactly(policy: Policy, w: World, id: Id, terminal: nat, unconfirmed: nat, period: nat, now: nat)
    ensures var t := ImageTaskLife.Step(policy, w, id, ImageTaskLife.Sweep(terminal, unconfirmed, period), now);
            var expires := id in w.store.tasks && id !in t.store.tasks;
            var confirmed := id in w.store.tasks && w.store.tasks[id].acknowledgedAt.Some?;
            && t.store == RelayTasks.Step(policy, w.store, RelayTasks.Sweep(terminal, unconfirmed, period), now)
            && t == w.(store := t.store, input := if expires then None else w.input,
                       stored := if expires || confirmed then [] else w.stored)
  {
    hide SweepQuota, SweepExpired;
  }

  /** A restart opens the store and keeps the files, but for an input that was not synced; only
      a task that was running is looked at afterwards. */
  lemma RestartExactly(policy: Policy, w: World, id: Id, inputLost: bool, now: nat)
    ensures var t := ImageTaskLife.Step(policy, w, id, Restart(inputLost), now);
            && t.store == RelayTasks.Step(policy, w.store, Open, now)
            && t == w.(store := t.store, runner := None, input := if inputLost then None else w.input,
                       unsettled := id in w.store.tasks && w.store.tasks[id].status == Running)
  {
    hide Recover, Backfill;
  }

  /** Looking at it delivers the task if a stored output passes, and drops its input either way. */
  lemma ProjectExactly(policy: Policy, w: World, id: Id, passing: set<nat>, works: bool, dies: bool, now: nat)
    ensures var t := ImageTaskLife.Step(policy, w, id, Project(passing, works, dies), now);
            if !w.unsettled then t == w
            else
              && t == w.(store := t.store, input := if dies then w.input else None, unsettled := false)
              && if works && w.input.Some? && (exists i :: i in w.stored && i in passing && i < w.input.value.count)
                 then t.store == RelayTasks.Step(policy, w.store, RecoverResult(id), now) else t.store == w.store
  {
    hide RecoverSucceeded;
    if w.input.Some? { DeliverableExactly(w.stored, passing, w.input.value); }
    hide Deliverable;
  }

  lemma DeliverableExactly(stored: seq<nat>, passing: set<nat>, plan: Plan)
    ensures Deliverable(stored, passing, plan) <==> exists i :: i in stored && i in passing && i < plan.count
  {
    var found := FoundIn(stored, passing);
    if i: nat :| i in stored && i in passing && i < plan.count {
      var at: nat :| at < |stored| && stored[at] == i;
      assert found[at] == R.Found([i], true);
      assert R.Verified(found, plan.count, |found|, i);
    }
    if i: nat :| R.Verified(found, plan.count, |found|, i) {
      assert i in stored && i in passing;
    }
  }

  // ---- What counts as an image ----

  /** The loop ends with the first call that was refused, declined or unanswered, whose answer
      does not parse, or whose image could not be fetched; an answer brings an image exactly if
      its first record is one, and is clean if it has no other. */
  lemma ImagesExactly(answers: seq<R.Answer>, i: nat)
    requires i < |answers|
    ensures R.Stop(answers) > i ==> answers[i].Data? && (answers[i].items != [] ==> !answers[i].items[0].Unfetchable?)
    ensures R.Stop(answers) == i ==> !answers[i].Data? || (answers[i].items != [] && answers[i].items[0].Unfetchable?)
    ensures i in R.Images(answers) <==> answers[i].Data? && answers[i].items != [] && answers[i].items[0].Image?
    ensures R.Clean(answers) ==> answers[i] == R.Data([R.Image])
    ensures (forall j :: 0 <= j < |answers| ==> answers[j] == R.Data([R.Image])) ==> R.Clean(answers)
    ensures R.Ascending(R.Images(answers)) && forall j :: j in R.Images(answers) ==> j < |answers|
  {
    if R.Clean(answers) { OneItem(answers[i]); }
  }

  lemma OneItem(a: R.Answer)
    requires R.Delivers(a) && |a.items| == 1
    ensures a == R.Data([R.Image])
  {
    assert a.items == [a.items[0]];
  }

  /** OpenAI's answer brings an image at each place whose record is one, and is complete if there
      are as many records as were asked for and all are images. */
  lemma ImagesOfExactly(items: seq<R.Item>, n: nat, i: nat)
    ensures i in R.ImagesOf(items, n) <==> i < n && i < |items| && items[i].Image?
    ensures R.Ascending(R.ImagesOf(items, n))
    ensures R.CleanOf(items, n) <==> |items| == n && forall j :: 0 <= j < n ==> items[j].Image?
  {
    assert forall j :: 0 <= j < |items| ==> R.ItemAt(items, j) == items[j];
  }

  // ---- A task that nothing disturbs ----

  /** From its submission to the end of its runner. */
  function Whole(n: Submission, plan: Plan, answers: seq<R.Answer>): Life {
    ToAdmission(n, plan) + [Now(Begin)] + Rounds(Heard(answers)) + [Now(Commit)] + [Now(Mark)] + [Now(Leave)]
  }

  /** The calls of the loop, up to the one that ends it. */
  function CallsOf(answers: seq<R.Answer>): seq<nat> {
    var k := R.Stop(answers);
    R.Below(if k == |answers| || answers[k].Unsent? then k else k + 1)
  }

  /** A Seedream task that is not disturbed sends the calls of its loop and delivers the images
      that they brought, if there is one and they fit; it is charged what it was quoted if all
      came, and held as unknown if not. */
  lemma WholeTask(policy: Policy, w: World, n: Submission, plan: Plan, answers: seq<R.Answer>)
    requires Accepts(policy, w, n, plan) && plan == Plan(Seedream, |answers|)
    requires forall i :: 0 <= i < |answers| && answers[i].Unanswered? ==> answers[i].error != R.Admission
    requires 0 < |R.Images(answers[..R.Stop(answers)])| <= 3
    ensures var t := ImageTaskLife.Run(policy, w, n.id, Whole(n, plan, answers));
            var complete := R.Stop(answers) == |answers| && R.Clean(answers);
            && StatusOf(t, n.id) == Some(Succeeded) && t.runner.None? && t.input.None?
            && t.calls == CallsOf(answers) && t.stored == R.Images(answers[..R.Stop(answers)])
            && ChargeAt(t, n.id) == Some(if complete then Settled else OutcomeUnknown)
  {
    hide ImageTaskLife.Run, ToAdmission, Rounds, Heard, Accepts, R.Images, R.Clean, R.Stop, R.Below, Inv;
    var images, complete := R.Images(answers[..R.Stop(answers)]), R.Stop(answers) == |answers| && R.Clean(answers);
    var a := ToAdmission(n, plan) + [Now(Begin)];
    var b := a + Rounds(Heard(answers));
    var read := ImageTaskLife.Run(policy, w, n.id, b);
    ReadWorld(policy, w, n, plan, answers);
    UntilRead(read, n.id, images, complete);
    RunNext(policy, w, n.id, b, Commit, 0);
    RunNext(policy, w, n.id, b + [Now(Commit)], Mark, 0);
    RunNext(policy, w, n.id, b + [Now(Commit)] + [Now(Mark)], Leave, 0);
    DeliveredWorld(policy, read, n.id, images, complete);
  }

  /** What is known once the last answer was read. */
  lemma ReadWorld(policy: Policy, w: World, n: Submission, plan: Plan, answers: seq<R.Answer>)
    requires Accepts(policy, w, n, plan) && plan == Plan(Seedream, |answers|)
    requires forall i :: 0 <= i < |answers| && answers[i].Unanswered? ==> answers[i].error != R.Admission
    requires R.Images(answers[..R.Stop(answers)]) != []
    ensures var t := ImageTaskLife.Run(
              policy, w, n.id, ToAdmission(n, plan) + [Now(Begin)] + Rounds(Heard(answers)));
            && Inv(t, n.id) && t.calls == CallsOf(answers) && Of(n.id) in t.store.quota && t.runner.Some?
            && t.runner.value.phase == Delivering(
                 R.Images(answers[..R.Stop(answers)]), R.Stop(answers) == |answers| && R.Clean(answers))
  {
    hide ImageTaskLife.Run, ToAdmission, Rounds, Heard, R.Images, R.Clean, R.Stop, R.Below, Inv;
    var a := ToAdmission(n, plan);
    AdmittedWorld(policy, w, n, plan);
    var admitted := ImageTaskLife.Run(policy, w, n.id, a);
    RunNext(policy, w, n.id, a, Begin, 0);
    BeginExactly(policy, admitted, n.id, 0);
    var begun := ImageTaskLife.Run(policy, w, n.id, a + [Now(Begin)]);
    RunTwice(policy, w, n.id, a + [Now(Begin)], Rounds(Heard(answers)));
    LifeFollowsLoop(policy, begun, n.id, plan, answers);
    RunKeepsInv(policy, w, n.id, a + [Now(Begin)] + Rounds(Heard(answers)));
    RoundsKeepRow(policy, begun, n.id, Heard(answers));
    assert [] + CallsOf(answers) == CallsOf(answers);
  }

  lemma RoundKeepsRow(policy: Policy, w: World, id: Id, a: R.Answer)
    requires Of(id) in w.store.quota
    ensures Of(id) in ImageTaskLife.Run(policy, w, id, Round(a)).store.quota
  {
    EventsKeepRow(policy, w, id, Round(a));
  }

  lemma {:induction false} EventsKeepRow(policy: Policy, w: World, id: Id, events: Life)
    requires Of(id) in w.store.quota
    requires forall i :: 0 <= i < |events| ==>
               var e := events[i].event; e.Call? || e.Receipt? || e.Read? || e.Throw?
    ensures Of(id) in ImageTaskLife.Run(policy, w, id, events).store.quota
    decreases |events|
  {
    hide ImageTaskLife.Step;
    if events != [] {
      EventsKeepRow(policy, w, id, events[..|events| - 1]);
      EventKeepsRow(policy, ImageTaskLife.Run(policy, w, id, events[..|events| - 1]), id, events[|events| - 1].event,
          events[|events| - 1].now);
    }
  }

  lemma EventKeepsRow(policy: Policy, w: World, id: Id, e: ImageTaskLife.Event, now: nat)
    requires Of(id) in w.store.quota && (e.Call? || e.Receipt? || e.Read? || e.Throw?)
    ensures Of(id) in ImageTaskLife.Step(policy, w, id, e, now).store.quota
  {
    hide R.Images, R.Clean, R.ImagesOf, R.CleanOf;
  }

  lemma {:induction false} RoundsKeepRow(policy: Policy, w: World, id: Id, answers: seq<R.Answer>)
    requires Of(id) in w.store.quota
    ensures Of(id) in ImageTaskLife.Run(policy, w, id, Rounds(answers)).store.quota
  {
    hide ImageTaskLife.Run, Round;
    if answers == [] {
      RunNothing(policy, w, id);
    } else {
      var last := |answers| - 1;
      RoundsKeepRow(policy, w, id, answers[..last]);
      RunTwice(policy, w, id, Rounds(answers[..last]), Round(answers[last]));
      RoundKeepsRow(policy, ImageTaskLife.Run(policy, w, id, Rounds(answers[..last])), id, answers[last]);
    }
  }

  /** A task that waits to be delivered is running, and its charge is open. */
  lemma UntilRead(w: World, id: Id, images: seq<nat>, complete: bool)
    requires Inv(w, id) && w.runner.Some? && w.runner.value.phase == Delivering(images, complete)
    requires Of(id) in w.store.quota
    ensures id in w.store.tasks && w.stored == []
    ensures w.store.quota[Of(id)].state in {Reserved, OutcomeUnknown}
  {
    assert RunnerFits(w.runner.value, TaskAt(w, id), w.calls, w.stored, w.plan.value);
    assert Runs(TaskAt(w, id), true);
    var charge := w.store.quota[Of(id)].state;
    assert ChargeAt(w, id) == Some(charge);
    match charge
    case Reserved =>
    case OutcomeUnknown =>
    case Settled =>
    case Released =>
  }

  lemma DeliveredWorld(policy: Policy, w: World, id: Id, images: seq<nat>, complete: bool)
    requires w.runner.Some? && w.runner.value.phase == Delivering(images, complete) && |images| <= 3
    requires id in w.store.tasks && w.stored == [] && Of(id) in w.store.quota
    requires w.store.quota[Of(id)].state in {Reserved, OutcomeUnknown}
    ensures var c := ImageTaskLife.Step(policy, w, id, Commit, 0);
            var m := ImageTaskLife.Step(policy, c, id, Mark, 0);
            var t := ImageTaskLife.Step(policy, m, id, Leave, 0);
            && StatusOf(t, id) == Some(Succeeded) && t.runner.None? && t.input.None?
            && t.calls == w.calls && t.stored == images
            && ChargeAt(t, id) == Some(if complete then Settled else OutcomeUnknown)
  {
    var c := ImageTaskLife.Step(policy, w, id, Commit, 0);
    CommitExactly(policy, w, id, 0);
    CommitExactly(policy, c, id, 0);
    LeaveExactly(policy, ImageTaskLife.Step(policy, c, id, Mark, 0), id, 0);
    hide ImageTaskLife.Step;
  }

  /** A run takes its events one by one. */
  lemma RunNext(policy: Policy, w: World, id: Id, events: Life, e: ImageTaskLife.Event, now: nat)
    ensures ImageTaskLife.Run(policy, w, id, []) == w
    ensures ImageTaskLife.Run(policy, w, id, events + [ImageTaskLife.Timed(e, now)])
         == ImageTaskLife.Step(policy, ImageTaskLife.Run(policy, w, id, events), id, e, now)
  {
    hide ImageTaskLife.Step;
    assert (events + [ImageTaskLife.Timed(e, now)])[..|events|] == events;
  }
}
