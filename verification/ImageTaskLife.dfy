/** The life of one task of the image relay (runImageTask and the routes of relay/app.ts):
    submission, admission with retries, generation calls, delivery, cancellation, crash and
    restart. Every durable write of the runner is an event of its own, so the process may
    die, and other requests may come in, between any two of them; every step of the runner
    may also fail. All other tasks may change their own rows at any time. */
module ImageTaskLife {
  import opened RelayTasks
  import R = ImageResults

  /** What the stored input asks for. */
  datatype Plan = Plan(provider: Provider, count: nat) {
    /** OpenAI is asked once for all images, Seedream once for each. */
    function MostCalls(): nat { if provider == OpenAI then 1 else count }
  }

  /** What an exception is to the `catch` block. */
  datatype Error = Admission | Unknown | Other

  /** Where the runner of the task is: waiting for its permit, for the check before
      `markRunning`, or for a rate token; a call was sent, or its receipt recorded; images
      are in memory, or stored; in the `catch` or in the `finally` block. `answers` are those
      of the calls before the current one. */
  datatype Phase =
    | Acquiring
    | Admitted(plan: Plan)
    | Calling(plan: Plan, answers: seq<R.Answer>)
    | Posted(plan: Plan, answers: seq<R.Answer>)
    | Paid(plan: Plan, answers: seq<R.Answer>)
    | Delivering(images: seq<nat>, complete: bool)
    | Stored(complete: bool)
    | Failing(error: Error)
    | Leaving(keepsInput: bool)

  datatype Runner = Runner(aborted: bool, phase: Phase)

  /** `stored` are the candidate indices of the committed outputs, in order; `calls` the
      indices whose generation call was sent, in order; `plan` what was submitted, `unsettled`
      says that a restart has yet to look at the task. */
  datatype World = World(
    store: Store, input: Option<Plan>, stored: seq<nat>, runner: Option<Runner>,
    calls: seq<nat>, requeues: nat, plan: Option<Plan>, unsettled: bool)

  datatype Event =
    | Others(store: Store)
    | Submit(submission: Submission, plan: Plan, keeps: Keeps)
    | Launch
    | Admit(quote: Quote)
    | Begin
    | Call
    | Receipt(receipt: Name)
    | Read(items: seq<R.Item>)
    | Commit
    | Mark
    | Throw(error: Error)
    | Catch(works: bool)
    | Leave
    | Cancel(dies: bool)
    | Confirm(dies: bool)
    | Sweep(terminalCutoff: nat, unacknowledgedCutoff: nat, period: nat)
    | Restart(inputLost: bool)
    | Project(passing: set<nat>, works: bool, dies: bool)

  datatype Keeps = KeepsInput | LosesInput | Crashes

  const MAX_OUTPUT_FILES: nat := 3

  function StatusOf(w: World, id: Id): Option<Status> {
    if id in w.store.tasks then Some(w.store.tasks[id].status) else None
  }

  predicate HasReceipt(w: World, id: Id) { id in w.store.tasks && w.store.tasks[id].receipts != [] }

  function MoveTo(w: World, phase: Phase): World
    requires w.runner.Some?
  {
    w.(runner := Some(w.runner.value.(phase := phase)))
  }

  // ---- Submission and admission ----

  ghost function SubmitStep(policy: Policy, w: World, id: Id, n: Submission, plan: Plan, keeps: Keeps,
                            now: nat): World {
    if w.plan.Some? || n.id != id || plan.count == 0 || CreateReply(policy, w.store, n) != Created then w
    else
      var created := w.(store := CreateStep(policy, w.store, n, now), plan := Some(plan));
      match keeps
      case KeepsInput => created.(input := Some(plan), runner := Some(Runner(false, Acquiring)))
      case LosesInput => created.(store := RemoveAndRelease(created.store, id))
      case Crashes => created
  }

  /** A retry timer, or the restart, starts the runner of a queued task. */
  function LaunchStep(w: World, id: Id, now: nat): World {
    if StatusOf(w, id) != Some(Queued) || w.runner.Some? then w
    else if w.input.None? then w.(store := MarkKnownFailed(w.store, id, now))
    else w.(runner := Some(Runner(false, Acquiring)))
  }

  /** The permit was granted; status and input are looked at again, then the charge is made
      sure of. */
  ghost function AdmitStep(policy: Policy, w: World, id: Id, q: Quote, now: nat): World
    requires w.runner.Some?
  {
    if StatusOf(w, id) != Some(Queued) then MoveTo(w, Leaving(false))
    else if w.input.None? then MoveTo(w.(store := MarkKnownFailed(w.store, id, now)), Leaving(false))
    else if EnsureReply(policy, w.store, id, q).Refused? then MoveTo(w, Failing(Other))
    else MoveTo(w.(store := EnsureStep(policy, w.store, id, q)), Admitted(w.input.value))
  }

  /** `markRunning` overwrites the status whatever it is. */
  function BeginStep(w: World, id: Id, now: nat): World
    requires w.runner.Some? && w.runner.value.phase.Admitted?
  {
    MoveTo(w.(store := MarkRunning(w.store, id, now)), Calling(w.runner.value.phase.plan, []))
  }

  // ---- Calls and answers ----

  /** The rate token is refused to an aborted task; with a token the call is sent. */
  function CallStep(w: World): World
    requires w.runner.Some? && w.runner.value.phase.Calling?
  {
    var p := w.runner.value.phase;
    if w.runner.value.aborted then w else MoveTo(w.(calls := w.calls + [|p.answers|]), Posted(p.plan, p.answers))
  }

  /** The first durable write after an answer is its receipt. */
  function ReceiptStep(w: World, id: Id, receipt: Name, now: nat): World
    requires w.runner.Some? && w.runner.value.phase.Posted?
  {
    var p := w.runner.value.phase;
    MoveTo(w.(store := AppendReceipt(w.store, id, receipt, now)), Paid(p.plan, p.answers))
  }

  /** Without an image that could be delivered the outcome is unknown. */
  function Deliver(w: World, images: seq<nat>, complete: bool): World
    requires w.runner.Some?
  {
    MoveTo(w, if images == [] then Failing(Unknown) else Delivering(images, complete))
  }

  /** A failure before the last answer was read: images brought by earlier calls are
      delivered, otherwise the failure ends the run. */
  function Fail(w: World, answers: seq<R.Answer>, error: Error): World
    requires w.runner.Some?
  {
    if R.Images(answers) == [] then MoveTo(w, Failing(error)) else MoveTo(w, Delivering(R.Images(answers), false))
  }

  function ReadStep(w: World, items: seq<R.Item>): World
    requires w.runner.Some? && w.runner.value.phase.Paid?
  {
    var p := w.runner.value.phase;
    if p.plan.provider == OpenAI then Deliver(w, R.ImagesOf(items, p.plan.count), R.CleanOf(items, p.plan.count))
    else
      var answers := p.answers + [R.Data(items)];
      if !R.Legible(R.Data(items)) then Fail(w, p.answers, Unknown)
      else if |answers| < p.plan.count then MoveTo(w, Calling(p.plan, answers))
      else Deliver(w, R.Images(answers), R.Clean(answers))
  }

  // ---- Delivery and failure ----

  /** `putOutputs` refuses more outputs than it has files for, and a set that is committed. */
  function CommitStep(w: World): World
    requires w.runner.Some? && w.runner.value.phase.Delivering?
  {
    var p := w.runner.value.phase;
    if |p.images| > MAX_OUTPUT_FILES || w.stored != [] then MoveTo(w, Failing(Unknown))
    else MoveTo(w.(stored := p.images), Stored(p.complete))
  }

  function MarkStep(w: World, id: Id, now: nat): World
    requires w.runner.Some? && w.runner.value.phase.Stored?
  {
    MoveTo(w.(store := MarkSucceeded(w.store, id, w.runner.value.phase.complete, now)), Leaving(false))
  }

  /** An exception. What fails after a call was sent, before there is an answer, is never an
      admission error; a failure to store is an unknown outcome. */
  function ThrowStep(w: World, error: Error): World
    requires w.runner.Some?
  {
    match w.runner.value.phase
    case Calling(_, answers) => Fail(w, answers, error)
    case Posted(_, answers) => if error == Admission then w else Fail(w, answers, error)
    case Paid(_, answers) => Fail(w, answers, error)
    case Delivering(_, _) => MoveTo(w, Failing(Unknown))
    case Stored(_) => MoveTo(w, Failing(Other))
    case Failing(_) => w
    case Leaving(_) => w
    case _ => MoveTo(w, Failing(error))
  }

  /** The `catch` block; its one write may fail too. */
  function CatchStep(w: World, id: Id, works: bool, now: nat): World
    requires w.runner.Some? && w.runner.value.phase.Failing?
  {
    var error := w.runner.value.phase.error;
    if StatusOf(w, id) == Some(Cancelled) || !works then MoveTo(w, Leaving(false))
    else if error == Admission && RetryReply(w.store, id) == Requeued then
      MoveTo(w.(store := RetryStep(w.store, id, now), requeues := w.requeues + 1), Leaving(true))
    else if error == Admission && RetryReply(w.store, id) == Exhausted then
      MoveTo(w.(store := RetryStep(w.store, id, now)), Leaving(false))
    else if HasReceipt(w, id) || error == Unknown then
      MoveTo(w.(store := MarkOutcomeUnknown(w.store, id, now)), Leaving(false))
    else MoveTo(w.(store := MarkKnownFailed(w.store, id, now)), Leaving(false))
  }

  /** The `finally` block: the input goes too, unless it is kept for a retry. */
  function LeaveStep(w: World): World
    requires w.runner.Some? && w.runner.value.phase.Leaving?
  {
    w.(runner := None, input := if w.runner.value.phase.keepsInput then w.input else None)
  }

  // ---- Routes ----

  /** Only a queued task is cancelled; its runner, if any, is told and its input dropped,
      unless the process dies first. */
  function CancelStep(w: World, id: Id, dies: bool, now: nat): World {
    if StatusOf(w, id) != Some(Queued) then w
    else
      var cancelled := w.(store := CancelQueued(w.store, id, now));
      if dies then cancelled.(runner := None)
      else
        cancelled.(input := None, runner := if w.runner.Some? then Some(w.runner.value.(aborted := true)) else None)
  }

  /** A result is confirmed only while there are outputs, or again. */
  function ConfirmStep(w: World, id: Id, dies: bool, now: nat): World {
    if StatusOf(w, id) != Some(Succeeded) || (w.store.tasks[id].acknowledgedAt.None? && w.stored == []) then w
    else w.(store := Acknowledge(w.store, id, now), stored := if dies then w.stored else [])
  }

  function SweepStep(w: World, id: Id, terminalCutoff: nat, unacknowledgedCutoff: nat, period: nat): World {
    var swept := w.(store := SweepQuota(SweepExpired(w.store, terminalCutoff, unacknowledgedCutoff), period));
    if id in w.store.tasks && id !in swept.store.tasks then swept.(input := None, stored := [])
    else if id in w.store.tasks && w.store.tasks[id].acknowledgedAt.Some? then swept.(stored := [])
    else swept
  }

  // ---- Restart ----

  /** The process dies and the store is opened again; what ran is looked at afterwards. The
      input was written without a sync, so a crash may lose it. */
  function RestartStep(policy: Policy, w: World, id: Id, inputLost: bool, now: nat): World {
    w.(store := Recover(policy, Backfill(policy, w.store, now), now), runner := None,
       input := if inputLost then None else w.input, unsettled := StatusOf(w, id) == Some(Running))
  }

  /** The stored outputs as the restart finds them: each names its candidate index, and
      those in `passing` still hold an image. */
  function FoundIn(stored: seq<nat>, passing: set<nat>): seq<R.Found> {
    seq(|stored|, at requires 0 <= at < |stored| => R.Found([stored[at]], stored[at] in passing))
  }

  /** Some stored output is a valid candidate of this plan. */
  ghost predicate Deliverable(stored: seq<nat>, passing: set<nat>, plan: Plan) {
    var found := FoundIn(stored, passing);
    exists i: nat :: R.Verified(found, plan.count, |found|, i)
  }

  /** A task that was running is delivered if its stored outputs pass, and is otherwise left
      unknown; its input is dropped, so it is never run again. */
  ghost function ProjectStep(w: World, id: Id, passing: set<nat>, works: bool, dies: bool, now: nat): World {
    if !w.unsettled then w
    else
      var delivers := works && w.input.Some? && Deliverable(w.stored, passing, w.input.value);
      w.(store := if delivers then RecoverSucceeded(w.store, id, now) else w.store,
         input := if dies then w.input else None, unsettled := false)
  }

  // ---- Runs ----

  /** Other tasks leave the rows of this one alone. */
  predicate SameRows(a: Store, b: Store, id: Id) {
    && (id in a.tasks <==> id in b.tasks) && (id in a.tasks ==> a.tasks[id] == b.tasks[id])
    && (Of(id) in a.quota <==> Of(id) in b.quota) && (Of(id) in a.quota ==> a.quota[Of(id)] == b.quota[Of(id)])
  }

  /** What the runner itself does next. */
  ghost function RunnerStep(policy: Policy, w: World, id: Id, e: Event, now: nat): World {
    if w.runner.None? then w
    else
      match (e, w.runner.value.phase)
      case (Admit(q), Acquiring) => AdmitStep(policy, w, id, q, now)
      case (Begin, Admitted(_)) => BeginStep(w, id, now)
      case (Call, Calling(_, _)) => CallStep(w)
      case (Receipt(receipt), Posted(_, _)) => ReceiptStep(w, id, receipt, now)
      case (Read(items), Paid(_, _)) => ReadStep(w, items)
      case (Commit, Delivering(_, _)) => CommitStep(w)
      case (Mark, Stored(_)) => MarkStep(w, id, now)
      case (Throw(error), _) => ThrowStep(w, error)
      case (Catch(works), Failing(_)) => CatchStep(w, id, works, now)
      case (Leave, Leaving(_)) => LeaveStep(w)
      case _ => w
  }

  ghost function Step(policy: Policy, w: World, id: Id, e: Event, now: nat): World {
    match e
    case Others(store) => if SameRows(w.store, store, id) then w.(store := store) else w
    case Submit(n, plan, keeps) => SubmitStep(policy, w, id, n, plan, keeps, now)
    case Launch => LaunchStep(w, id, now)
    case Cancel(dies) => CancelStep(w, id, dies, now)
    case Confirm(dies) => ConfirmStep(w, id, dies, now)
    case Sweep(terminal, unacknowledged, period) => SweepStep(w, id, terminal, unacknowledged, period)
    case Restart(inputLost) => RestartStep(policy, w, id, inputLost, now)
    case Project(passing, works, dies) => ProjectStep(w, id, passing, works, dies, now)
    case _ => RunnerStep(policy, w, id, e, now)
  }

  datatype Timed = Timed(event: Event, now: nat)

  /** A task that does not exist yet, beside any others. */
  predicate Unborn(w: World, id: Id) {
    && w.plan.None? && id !in w.store.tasks && Of(id) !in w.store.quota
    && w.input.None? && w.stored == [] && w.runner.None? && w.calls == [] && w.requeues == 0 && !w.unsettled
  }

  ghost function Run(policy: Policy, w: World, id: Id, events: seq<Timed>): World
    decreases |events|
  {
    if events == [] then w
    else
      var last := |events| - 1;
      Step(policy, Run(policy, w, id, events[..last]), id, events[last].event, events[last].now)
  }

  // ---- What every step keeps ----

  function TaskAt(w: World, id: Id): Option<Task> {
    if id in w.store.tasks then Some(w.store.tasks[id]) else None
  }

  function ChargeAt(w: World, id: Id): Option<QuotaState> {
    if Of(id) in w.store.quota then Some(w.store.quota[Of(id)].state) else None
  }

  predicate AllLegible(answers: seq<R.Answer>) { forall i :: 0 <= i < |answers| ==> R.Legible(answers[i]) }

  /** The calls before this one were answered, and each left a receipt. */
  predicate Asks(plan: Plan, answers: seq<R.Answer>, calls: seq<nat>, sent: nat) {
    && AllLegible(answers) && calls == R.Below(|answers| + sent) && |answers| < plan.MostCalls()
  }

  /** A running task with or without a receipt. */
  predicate Runs(t: Option<Task>, paid: bool) {
    t.Some? && t.value.status == Running && (t.value.receipts != [] <==> paid)
  }

  /** Requested indices, each at most once and in order. */
  predicate Requested(images: seq<nat>, plan: Plan) {
    R.Ascending(images) && forall i :: i in images ==> i < plan.count
  }

  /** Images that may be stored; all that were requested if nothing is missing. */
  predicate Fit(images: seq<nat>, complete: bool, plan: Plan) {
    images != [] && Requested(images, plan) && (complete ==> images == R.Below(plan.count))
  }

  /** Where the runner is agrees with the row of its task and the calls it has sent. */
  predicate RunnerFits(r: Runner, t: Option<Task>, calls: seq<nat>, stored: seq<nat>, plan: Plan) {
    match r.phase
    case Acquiring => calls == [] && stored == [] && Waits(r, t)
    case Admitted(p) => p == plan && calls == [] && stored == [] && Waits(r, t)
    case Calling(p, answers) =>
      && p == plan && Asks(p, answers, calls, 0) && stored == [] && (answers != [] ==> !r.aborted)
      && (t.None? ==> r.aborted) && (t.Some? ==> Runs(t, answers != []))
    case Posted(p, answers) =>
      p == plan && Asks(p, answers, calls, 1) && stored == [] && !r.aborted && Runs(t, answers != [])
    case Paid(p, answers) => p == plan && Asks(p, answers, calls, 1) && stored == [] && !r.aborted && Runs(t, true)
    case Delivering(images, complete) => Fit(images, complete, plan) && stored == [] && !r.aborted && Runs(t, true)
    case Stored(complete) => Fit(stored, complete, plan) && !r.aborted && Runs(t, true)
    case Failing(error) =>
      t.Some? ==>
        if t.value.status == Running then error == Admission ==> calls == [] || t.value.receipts != []
        else calls == [] && t.value.receipts == [] && (t.value.status == Queued || t.value.status == Cancelled)
    case Leaving(_) => true
  }

  /** Before its first call a runner's task is queued, or was cancelled under it. */
  predicate Waits(r: Runner, t: Option<Task>) {
    && (t.None? ==> r.aborted)
    && (t.Some? ==> t.value.receipts == [] && (t.value.status == Queued || (t.value.status == Cancelled && r.aborted)))
  }

  /** There is a runner, and more than its `finally` block is left. */
  predicate Busy(runner: Option<Runner>) { runner.Some? && !runner.value.phase.Leaving? }

  /** A released amount belongs to a task without a receipt that can make no call. */
  predicate ReleasedFits(t: Option<Task>, charge: Option<QuotaState>, input: Option<Plan>, runner: Option<Runner>) {
    charge == Some(Released) ==>
      && (t.Some? ==> t.value.receipts == [])
      && (Busy(runner) ==> runner.value.aborted)
      && (t.Some? && (Active(t.value) || Busy(runner)) ==> input.None?)
  }

  predicate RetriesFit(t: Option<Task>, requeues: nat) {
    && requeues <= MAX_PRE_PROVIDER_ADMISSION_RETRIES
    && (t.Some? ==>
          if t.value.retries <= MAX_PRE_PROVIDER_ADMISSION_RETRIES then requeues == t.value.retries
          else t.value.status == Failed && t.value.retries == MAX_PRE_PROVIDER_ADMISSION_RETRIES + 1)
  }

  /** Only a delivered task is settled or confirmed. */
  predicate SettledFits(t: Option<Task>, charge: Option<QuotaState>) {
    t.Some? && t.value.status != Succeeded ==> charge != Some(Settled) && t.value.acknowledgedAt.None?
  }

  /** No call was sent for a queued or cancelled task, and a receipt has its call. */
  predicate CallsFit(t: Option<Task>, calls: seq<nat>) {
    t.Some? && (t.value.status == Queued || t.value.status == Cancelled || calls == []) ==>
          calls == [] && t.value.receipts == []
  }

  predicate PlanFits(w: World) {
    && w.calls == R.Below(|w.calls|)
    && (w.plan.Some? ==> w.plan.value.count > 0 && |w.calls| <= w.plan.value.MostCalls())
    && (w.input.Some? ==> w.input == w.plan)
    && (w.calls == [] ==> w.stored == [])
    && (w.plan.Some? ==> Requested(w.stored, w.plan.value))
  }

  predicate Inv(w: World, id: Id) {
    && PlanFits(w)
    && (w.runner.Some? ==> w.plan.Some? && RunnerFits(w.runner.value, TaskAt(w, id), w.calls, w.stored, w.plan.value))
    && CallsFit(TaskAt(w, id), w.calls)
    && ReleasedFits(TaskAt(w, id), ChargeAt(w, id), w.input, w.runner)
    && SettledFits(TaskAt(w, id), ChargeAt(w, id))
    && RetriesFit(TaskAt(w, id), w.requeues)
    && (w.unsettled ==> w.runner.None? && (TaskAt(w, id).Some? ==> !Active(TaskAt(w, id).value)))
    && (w.plan.None? ==> Unborn(w, id))
  }
}
