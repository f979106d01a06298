/** The tables of the image relay (TaskStore of relay/app.ts): tasks and the quota ledger.
    Each function is one transaction, or one statement outside of any, at one clock value. */
module RelayTasks {
  import opened Sums

  /** Identities and hashes are only compared. */
  type Name = nat
  type Id = nat

  datatype Option<T> = None | Some(value: T)

  const MAX_PRE_PROVIDER_ADMISSION_RETRIES: nat := 3
  const DAY_MS: nat := 24 * 60 * 60_000

  function Day(now: nat): nat { now / DAY_MS }

  datatype Status = Queued | Running | Succeeded | Failed | FailedUnknown | Cancelled

  datatype Provider = OpenAI | Seedream

  /** A task row; `receipts` are the hashes that were chained into one, none for null, and
      `complete` is what the result summary says: no part of the outcome is unknown. */
  datatype Task = Task(
    owner: Name, key: Option<Name>, fingerprint: Option<Name>, provider: Option<Provider>, inputBytes: nat,
    status: Status, receipts: seq<Name>, complete: Option<bool>,
    acknowledgedAt: Option<nat>, retries: nat, updated: nat)

  datatype QuotaState = Reserved | OutcomeUnknown | Settled | Released

  /** A row of the quota ledger; `guarded` rows were inserted under the limit check, the
      others carry a legacy policy revision. */
  datatype Reservation = Reservation(
    owner: Name, provider: Provider, account: Name, period: nat, amount: nat, guarded: bool, state: QuotaState)
  {
    function Counted(): nat { if state == Released then 0 else amount }

    predicate SameCharge(that: Reservation) {
      && owner == that.owner && provider == that.provider && account == that.account
      && period == that.period && amount == that.amount && guarded == that.guarded
    }
  }

  datatype QuotaId = Of(task: Id) | LegacyOf(task: Id, provider: Provider)

  type Tasks = map<Id, Task>
  type Quota = map<QuotaId, Reservation>

  datatype Store = Store(tasks: Tasks, quota: Quota)

  datatype Quote = Quote(provider: Provider, account: Name, period: nat, amount: nat)

  /** Limits, and what the relay charges for work whose quote was never recorded. */
  datatype Policy = Policy(
    ownerLimit: nat, openaiLimit: nat, seedreamLimit: nat,
    openaiAccount: Name, seedreamAccount: Name, openaiLegacy: nat, seedreamLegacy: nat)
  {
    function ProviderLimit(p: Provider): nat { if p == OpenAI then openaiLimit else seedreamLimit }

    function LegacyQuote(p: Provider, now: nat): Quote {
      if p == OpenAI then Quote(OpenAI, openaiAccount, Day(now), openaiLegacy)
      else Quote(Seedream, seedreamAccount, Day(now), seedreamLegacy)
    }
  }

  // ---- What a limit counts ----

  datatype Selection = OfOwner(owner: Name, period: nat) | OfAccount(provider: Provider, account: Name, period: nat) {
    predicate Selects(r: Reservation) {
      r.period == period && if OfOwner? then r.owner == owner else r.provider == provider && r.account == account
    }

    function Limit(policy: Policy): nat {
      if OfOwner? then policy.ownerLimit else policy.ProviderLimit(provider)
    }
  }

  function Weights(quota: Quota, sel: Selection): map<QuotaId, int> {
    map k | k in quota && sel.Selects(quota[k]) :: quota[k].Counted()
  }

  function GuardedWeights(quota: Quota, sel: Selection, guarded: bool): map<QuotaId, int> {
    map k | k in quota && quota[k].guarded == guarded && sel.Selects(quota[k]) :: quota[k].Counted()
  }

  ghost function Spent(quota: Quota, sel: Selection): int { Total(Weights(quota, sel)) }

  ghost function GuardedSpent(quota: Quota, sel: Selection): int { Total(GuardedWeights(quota, sel, true)) }

  ghost function LegacySpent(quota: Quota, sel: Selection): int { Total(GuardedWeights(quota, sel, false)) }

  ghost predicate OwnerFull(policy: Policy, quota: Quota, owner: Name, q: Quote) {
    Spent(quota, OfOwner(owner, q.period)) + q.amount > policy.ownerLimit
  }

  ghost predicate ProviderFull(policy: Policy, quota: Quota, q: Quote) {
    Spent(quota, OfAccount(q.provider, q.account, q.period)) + q.amount > policy.ProviderLimit(q.provider)
  }

  // ---- Submission ----

  datatype Submission = Submission(
    id: Id, owner: Name, key: Name, inputBytes: nat, fingerprint: Name, provider: Provider,
    quote: Quote, queueMax: nat, ownerTaskMax: nat)

  datatype Refusal =
    | IdempotencyConflict | QueueFull | OwnerTasksFull
    | OwnerQuota | ProviderQuota | AccountChanged | DuplicateId

  datatype Reply = Created | Reused(task: Id) | Refused(code: Refusal)

  predicate Active(t: Task) { t.status == Queued || t.status == Running }

  function ActiveIds(tasks: Tasks): set<Id> { set id | id in tasks && Active(tasks[id]) }

  function ActiveIdsOf(tasks: Tasks, owner: Name): set<Id> {
    set id | id in tasks && Active(tasks[id]) && tasks[id].owner == owner
  }

  predicate HasKey(tasks: Tasks, id: Id, owner: Name, key: Name) {
    id in tasks && tasks[id].owner == owner && tasks[id].key == Some(key)
  }

  ghost function FindByIdempotency(tasks: Tasks, owner: Name, key: Name): (found: Option<Id>)
    ensures found.Some? ==> HasKey(tasks, found.value, owner, key)
    ensures found.None? ==> forall id :: !HasKey(tasks, id, owner, key)
  {
    if exists id :: HasKey(tasks, id, owner, key) then
      var id :| HasKey(tasks, id, owner, key);
      Some(id)
    else None
  }

  function NewTask(n: Submission, now: nat): Task {
    Task(n.owner, Some(n.key), Some(n.fingerprint), Some(n.provider), n.inputBytes, Queued, [], None, None, 0, now)
  }

  function NewReservation(owner: Name, q: Quote, state: QuotaState, guarded: bool): Reservation {
    Reservation(owner, q.provider, q.account, q.period, q.amount, guarded, state)
  }

  ghost function CreateReply(policy: Policy, s: Store, n: Submission): Reply {
    var existing := FindByIdempotency(s.tasks, n.owner, n.key);
    if existing.Some? then
      if s.tasks[existing.value].fingerprint == Some(n.fingerprint) then Reused(existing.value)
      else Refused(IdempotencyConflict)
    else if |ActiveIds(s.tasks)| >= n.queueMax then Refused(QueueFull)
    else if |ActiveIdsOf(s.tasks, n.owner)| >= n.ownerTaskMax then Refused(OwnerTasksFull)
    else if OwnerFull(policy, s.quota, n.owner, n.quote) then Refused(OwnerQuota)
    else if ProviderFull(policy, s.quota, n.quote) then Refused(ProviderQuota)
    else if n.id in s.tasks || Of(n.id) in s.quota then Refused(DuplicateId)
    else Created
  }

  ghost function CreateStep(policy: Policy, s: Store, n: Submission, now: nat): Store {
    if CreateReply(policy, s, n) == Created
    then Store(s.tasks[n.id := NewTask(n, now)], s.quota[Of(n.id) := NewReservation(n.owner, n.quote, Reserved, true)])
    else s
  }

  ghost function EnsureReply(policy: Policy, s: Store, id: Id, q: Quote): Reply {
    if Of(id) in s.quota then
      if s.quota[Of(id)].account != q.account then Refused(AccountChanged) else Reused(id)
    else if id !in s.tasks || s.tasks[id].status != Queued then Reused(id)
    else if OwnerFull(policy, s.quota, s.tasks[id].owner, q) then Refused(OwnerQuota)
    else if ProviderFull(policy, s.quota, q) then Refused(ProviderQuota)
    else Created
  }

  ghost function EnsureStep(policy: Policy, s: Store, id: Id, q: Quote): Store {
    if EnsureReply(policy, s, id, q) == Created
    then s.(quota := s.quota[Of(id) := NewReservation(s.tasks[id].owner, q, Reserved, true)])
    else s
  }

  // ---- Changes of one task and its reservation ----

  function SetTask(s: Store, id: Id, t: Task): Store {
    if id in s.tasks then s.(tasks := s.tasks[id := t]) else s
  }

  /** Moves the reservation of a task to `state` if it is in one of the states `from`. */
  function Move(s: Store, id: Id, from: set<QuotaState>, state: QuotaState): Store {
    if Of(id) in s.quota && s.quota[Of(id)].state in from
    then s.(quota := s.quota[Of(id) := s.quota[Of(id)].(state := state)])
    else s
  }

  function RemoveAndRelease(s: Store, id: Id): Store {
    Move(s, id, {Reserved}, Released).(tasks := s.tasks - {id})
  }

  function AppendReceipt(s: Store, id: Id, receipt: Name, now: nat): Store {
    var r :=
      if id !in s.tasks then s
      else SetTask(s, id, s.tasks[id].(receipts := s.tasks[id].receipts + [receipt], updated := now));
    Move(r, id, {Reserved, OutcomeUnknown}, OutcomeUnknown)
  }

  function Acknowledge(s: Store, id: Id, now: nat): Store {
    if id in s.tasks && s.tasks[id].acknowledgedAt.None?
    then SetTask(s, id, s.tasks[id].(acknowledgedAt := Some(now), updated := now)) else s
  }

  /** The status is overwritten whatever it was. */
  function SetStatus(s: Store, id: Id, status: Status, now: nat): Store {
    if id in s.tasks then SetTask(s, id, s.tasks[id].(status := status, updated := now)) else s
  }

  function MarkRunning(s: Store, id: Id, now: nat): Store { SetStatus(s, id, Running, now) }

  datatype Retry = Requeued | Exhausted | Ineligible

  function RetryReply(s: Store, id: Id): Retry {
    if id !in s.tasks || !Active(s.tasks[id]) || s.tasks[id].receipts != [] then Ineligible
    else if s.tasks[id].retries + 1 > MAX_PRE_PROVIDER_ADMISSION_RETRIES then Exhausted
    else Requeued
  }

  function RetryStep(s: Store, id: Id, now: nat): Store {
    match RetryReply(s, id)
    case Ineligible => s
    case Exhausted =>
      var failed := s.tasks[id].(status := Failed, retries := s.tasks[id].retries + 1, updated := now);
      Move(SetTask(s, id, failed), id, {Reserved}, Released)
    case Requeued => SetTask(s, id, s.tasks[id].(status := Queued, retries := s.tasks[id].retries + 1, updated := now))
  }

  function MarkSucceeded(s: Store, id: Id, complete: bool, now: nat): Store {
    var t :=
      if id !in s.tasks then s
      else SetTask(s, id, s.tasks[id].(status := Succeeded, complete := Some(complete), updated := now));
    Move(t, id, {Reserved, OutcomeUnknown}, if complete then Settled else OutcomeUnknown)
  }

  predicate Recoverable(s: Store, id: Id) {
    && id in s.tasks && s.tasks[id].status == FailedUnknown
    && s.tasks[id].receipts != [] && s.tasks[id].acknowledgedAt.None?
  }

  function RecoverSucceeded(s: Store, id: Id, now: nat): Store {
    if !Recoverable(s, id) then s
    else Move(SetTask(s, id, s.tasks[id].(status := Succeeded, complete := Some(false), updated := now)),
              id, {Reserved, OutcomeUnknown, Settled}, OutcomeUnknown)
  }

  function MarkKnownFailed(s: Store, id: Id, now: nat): Store {
    Move(SetStatus(s, id, Failed, now), id, {Reserved}, Released)
  }

  function MarkOutcomeUnknown(s: Store, id: Id, now: nat): Store {
    Move(SetStatus(s, id, FailedUnknown, now), id, {Reserved, OutcomeUnknown}, OutcomeUnknown)
  }

  function CancelQueued(s: Store, id: Id, now: nat): Store {
    if id in s.tasks && s.tasks[id].status == Queued
    then Move(SetStatus(s, id, Cancelled, now), id, {Reserved}, Released) else s
  }

  // ---- Sweeps ----

  predicate Expired(t: Task, terminalCutoff: nat, unacknowledgedCutoff: nat) {
    || (t.status in {Failed, FailedUnknown, Cancelled} && t.updated < terminalCutoff)
    || (t.status == Succeeded && t.acknowledgedAt.Some? && t.updated < terminalCutoff)
    || (t.status == Succeeded && t.acknowledgedAt.None? && t.updated < unacknowledgedCutoff)
  }

  function SweepExpired(s: Store, terminalCutoff: nat, unacknowledgedCutoff: nat): Store {
    s.(tasks := map id | id in s.tasks && !Expired(s.tasks[id], terminalCutoff, unacknowledgedCutoff) :: s.tasks[id])
  }

  function SweepQuota(s: Store, period: nat): Store {
    s.(quota := map k | k in s.quota && !(s.quota[k].period < period && s.quota[k].state != Reserved) :: s.quota[k])
  }

  // ---- Opening the store ----

  /** The providers that terminal work of a task is charged to if the ledger lacks it. */
  function ChargedProviders(t: Task): set<Provider> {
    if t.provider.Some? then {t.provider.value} else {OpenAI, Seedream}
  }

  predicate NeedsBackfill(s: Store, k: QuotaId, now: nat) {
    && k.LegacyOf? && k.task in s.tasks && Of(k.task) !in s.quota && k !in s.quota
    && Day(s.tasks[k.task].updated) == Day(now)
    && (s.tasks[k.task].status == Succeeded || s.tasks[k.task].receipts != [])
    && k.provider in ChargedProviders(s.tasks[k.task])
  }

  function LegacyIds(tasks: Tasks): set<QuotaId> {
    (set id | id in tasks :: LegacyOf(id, OpenAI)) + (set id | id in tasks :: LegacyOf(id, Seedream))
  }

  function LegacyRow(policy: Policy, t: Task, p: Provider): Reservation {
    var state := if t.status == Succeeded then Settled else OutcomeUnknown;
    NewReservation(t.owner, policy.LegacyQuote(p, t.updated), state, false)
  }

  function Backfill(policy: Policy, s: Store, now: nat): Store {
    s.(quota := s.quota + map k | k in LegacyIds(s.tasks) && NeedsBackfill(s, k, now) ::
                            LegacyRow(policy, s.tasks[k.task], k.provider))
  }

  predicate LostReservation(s: Store, k: QuotaId) {
    k.Of? && k.task in s.tasks && s.tasks[k.task].status == Running && k !in s.quota
  }

  function ActiveRow(policy: Policy, t: Task, now: nat): Reservation {
    var provider := if t.provider == Some(Seedream) then Seedream else OpenAI;
    NewReservation(t.owner, policy.LegacyQuote(provider, now), OutcomeUnknown, false)
  }

  /** A restart: what ran is unknown and keeps its charge, whatever it was. */
  function Recover(policy: Policy, s: Store, now: nat): Store {
    var tasks := map id | id in s.tasks :: Interrupted(s.tasks[id], now);
    if ActiveRunning(s.tasks) == {} then s
    else
      var lost := map k | k in OfIds(s.tasks) && LostReservation(s, k) :: ActiveRow(policy, s.tasks[k.task], now);
      var inserted := s.quota + lost;
      Store(tasks, map k | k in inserted :: HeldUnknown(tasks, k, inserted[k]))
  }

  function Interrupted(t: Task, now: nat): Task {
    if t.status == Running then t.(status := FailedUnknown, updated := now) else t
  }

  function ActiveRunning(tasks: Tasks): set<Id> { set id | id in tasks && tasks[id].status == Running }

  function OfIds(tasks: Tasks): set<QuotaId> { set id | id in tasks :: Of(id) }

  function HeldUnknown(tasks: Tasks, k: QuotaId, r: Reservation): Reservation {
    if k.Of? && k.task in tasks && tasks[k.task].status == FailedUnknown
      && (r.state == Reserved || r.state == OutcomeUnknown)
    then r.(state := OutcomeUnknown) else r
  }

  // ---- Runs ----

  datatype Event =
    | Create(submission: Submission)
    | Ensure(id: Id, quote: Quote)
    | Remove(id: Id)
    | Receipt(id: Id, receipt: Name)
    | Ack(id: Id)
    | Start(id: Id)
    | RetryAdmission(id: Id)
    | Succeed(id: Id, complete: bool)
    | RecoverResult(id: Id)
    | FailKnown(id: Id)
    | FailUnknown(id: Id)
    | Cancel(id: Id)
    | Sweep(terminalCutoff: nat, unacknowledgedCutoff: nat, period: nat)
    | Open

  ghost function Step(policy: Policy, s: Store, e: Event, now: nat): Store {
    match e
    case Create(n) => CreateStep(policy, s, n, now)
    case Ensure(id, q) => EnsureStep(policy, s, id, q)
    case Remove(id) => RemoveAndRelease(s, id)
    case Receipt(id, receipt) => AppendReceipt(s, id, receipt, now)
    case Ack(id) => Acknowledge(s, id, now)
    case Start(id) => MarkRunning(s, id, now)
    case RetryAdmission(id) => RetryStep(s, id, now)
    case Succeed(id, complete) => MarkSucceeded(s, id, complete, now)
    case RecoverResult(id) => RecoverSucceeded(s, id, now)
    case FailKnown(id) => MarkKnownFailed(s, id, now)
    case FailUnknown(id) => MarkOutcomeUnknown(s, id, now)
    case Cancel(id) => CancelQueued(s, id, now)
    case Sweep(terminal, unacknowledged, period) => SweepQuota(SweepExpired(s, terminal, unacknowledged), period)
    case Open => Recover(policy, Backfill(policy, s, now), now)
  }

  datatype Timed = Timed(event: Event, now: nat)

  ghost function Run(policy: Policy, s: Store, events: seq<Timed>): Store
    decreases |events|
  {
    if events == [] then s
    else Step(policy, Run(policy, s, events[..|events| - 1]), events[|events| - 1].event, events[|events| - 1].now)
  }
}
