/** The submission fence of the video relay (video-media-relay/app.ts): operations, their
    idempotency keys and quota reservations, concurrent POSTs, cancellation, sweeps and
    restarts. An event is one stretch of code between two waits. */
module VideoRelay {
  import opened Sums

  /** Identities and request hashes are only compared. */
  type Name = nat
  type Id = nat
  type Request = nat

  datatype Option<T> = None | Some(value: T)

  datatype OperationState = Accepted | Submitted | Running | Succeeded | Failed | Cancelled | Expired | OutcomeUnknown

  /** `fenced` is a submission time; `process` numbers the process that created the row. */
  datatype Operation = Operation(owner: Name, local: Name, state: OperationState, fenced: bool, quota: Id, process: nat)

  datatype QuotaState = Reserved | Unknown | Settled | Released

  datatype Quota = Quota(
    owner: Name, operation: Id, units: nat, period: nat, account: Name, settledUnits: nat, state: QuotaState)
  {
    /** What the row counts for: what it reserved, or what it cost. */
    function Charged(): nat {
      match state
      case Released => 0
      case Settled => settledUnits
      case _ => units
    }
  }

  /** The daily limits of one owner and of the provider account. */
  datatype Policy = Policy(account: Name, ownerDaily: nat, accountDaily: nat)

  datatype Selection = OfOwner(owner: Name, period: nat) | OfAccount(account: Name, period: nat) {
    predicate Selects(q: Quota) { q.period == period && if OfOwner? then q.owner == owner else q.account == account }

    /** Nothing is reserved for another account than that of the policy. */
    function Limit(policy: Policy): nat {
      if OfOwner? then policy.ownerDaily else if account == policy.account then policy.accountDaily else 0
    }
  }

  function Weights(quotas: map<Id, Quota>, sel: Selection): map<Id, int> {
    map q | q in quotas && sel.Selects(quotas[q]) :: quotas[q].Charged()
  }

  ghost function Spent(quotas: map<Id, Quota>, sel: Selection): int { Total(Weights(quotas, sel)) }

  datatype Key = Key(owner: Name, name: Name)

  datatype Bound = Bound(hash: Name, resource: Id)

  /** A POST that waits: before the fence, or for the provider. */
  datatype Flight = Preparing(operation: Id) | Executing(operation: Id)

  datatype Local = Local(owner: Name, name: Name)

  /** `active` is activeProviderSubmissions; `executions` counts the calls of
      provider.execute for a local operation of an owner. */
  datatype World = World(
    operations: map<Id, Operation>, quotas: map<Id, Quota>, keys: map<Key, Bound>,
    flights: map<Request, Flight>, active: set<Id>, executions: map<Local, nat>, process: nat)

  const Initial := World(map[], map[], map[], map[], {}, map[], 0)

  datatype Charge = Keep | Retain | Settle(units: nat)

  /** A POST of an operation: `operation` and `quota` are the ids it would draw, `period` is
      its day, `ready` says that its source objects may be used. */
  datatype Post = Post(
    request: Request, owner: Name, key: Name, hash: Name, local: Name,
    operation: Id, quota: Id, units: nat, period: nat, policy: Policy, ready: bool, publishing: bool)

  datatype Event =
    | Arrive(post: Post)
    | Fail(request: Request)
    | Fence(request: Request)
    | Conclude(operation: Id, state: OperationState, charge: Charge)
    | Settled(request: Request)
    | Cancel(operation: Id, owner: Name, key: Name, hash: Name)
    | SweepOrphan(operation: Id, aged: bool)
    | SweepInterrupted(operation: Id, publishing: bool)
    | Restart

  // ---- Quota ----

  function RetainQuota(w: World, q: Id): World {
    if q in w.quotas && w.quotas[q].state == Reserved
    then w.(quotas := w.quotas[q := w.quotas[q].(state := Unknown)]) else w
  }

  function ReleaseQuota(w: World, q: Id): World {
    if q in w.quotas && w.quotas[q].state == Reserved
    then w.(quotas := w.quotas[q := w.quotas[q].(state := Released)]) else w
  }

  function SettledRow(row: Quota, units: nat): Quota {
    row.(state := QuotaState.Settled, settledUnits := if units > row.units then units else row.units)
  }

  /** A settled reservation costs at least what it reserved. */
  function SettleQuota(w: World, q: Id, units: nat): World {
    if q in w.quotas && w.quotas[q].state != Released
    then w.(quotas := w.quotas[q := SettledRow(w.quotas[q], units)])
    else w
  }

  function ChargeQuota(w: World, q: Id, c: Charge): World {
    match c
    case Keep => w
    case Retain => RetainQuota(w, q)
    case Settle(units) => SettleQuota(w, q, units)
  }

  function SetState(w: World, id: Id, state: OperationState): World {
    if id in w.operations then w.(operations := w.operations[id := w.operations[id].(state := state)]) else w
  }

  /** Not yet submitted, and provably so. */
  predicate Unfenced(w: World, id: Id) {
    id in w.operations && w.operations[id].state == Accepted && !w.operations[id].fenced
  }

  predicate Interrupted(w: World, id: Id) {
    id in w.operations && w.operations[id].state == Accepted && w.operations[id].fenced
  }

  // ---- A POST arrives ----

  datatype Scope = OwnerDaily | AccountDaily

  datatype Verdict =
    | KeyConflict | QuotaRefused(scope: Scope) | LocalConflict | NotReady | Projected(operation: Id)
    | InterruptedReply(operation: Id) | Proceeds(operation: Id)

  /** What an idempotency key says of this request. */
  predicate Replays(w: World, p: Post) { Key(p.owner, p.key) in w.keys && w.keys[Key(p.owner, p.key)].hash == p.hash }

  predicate LocalTaken(w: World, p: Post) {
    exists id :: id in w.operations && w.operations[id].owner == p.owner && w.operations[id].local == p.local
  }

  function ReplayVerdict(w: World, p: Post, id: Id): Verdict {
    if id !in w.operations then KeyConflict
    else if w.operations[id].state != Accepted then Projected(id)
    else if w.operations[id].fenced then
      if p.publishing || id in w.active then Projected(id) else InterruptedReply(id)
    else if !p.ready then NotReady
    else Proceeds(id)
  }

  /** A limit of zero stops all work, that of the account first; then the owner's is tested. */
  ghost function QuotaVerdict(quotas: map<Id, Quota>, p: Post): Option<Scope> {
    if p.policy.accountDaily == 0 then Some(AccountDaily)
    else if p.policy.ownerDaily == 0 then Some(OwnerDaily)
    else if Spent(quotas, OfOwner(p.owner, p.period)) + p.units > p.policy.ownerDaily then Some(OwnerDaily)
    else if Spent(quotas, OfAccount(p.policy.account, p.period)) + p.units > p.policy.accountDaily
    then Some(AccountDaily)
    else None
  }

  function NewQuota(p: Post): Quota { Quota(p.owner, p.operation, p.units, p.period, p.policy.account, 0, Reserved) }

  /** A new command is reserved and stored in one transaction; when that fails, a taken local
      command explains the failure before the quota does. */
  ghost function ArriveVerdict(w: World, p: Post): Verdict {
    if Key(p.owner, p.key) in w.keys then
      if Replays(w, p) then ReplayVerdict(w, p, w.keys[Key(p.owner, p.key)].resource) else KeyConflict
    else if !p.ready then NotReady
    else if LocalTaken(w, p) then LocalConflict
    else if QuotaVerdict(w.quotas, p).Some? then QuotaRefused(QuotaVerdict(w.quotas, p).value)
    else Proceeds(p.operation)
  }

  function Created(w: World, p: Post): World {
    w.(operations := w.operations[p.operation := Operation(p.owner, p.local, Accepted, false, p.quota, w.process)],
       quotas := w.quotas[p.quota := NewQuota(p)],
       keys := w.keys[Key(p.owner, p.key) := Bound(p.hash, p.operation)])
  }

  /** Random ids are fresh, and a request arrives once. */
  predicate Fresh(w: World, p: Post) {
    p.request !in w.flights && p.operation !in w.operations && p.quota !in w.quotas
  }

  ghost function ArriveStep(w: World, p: Post): World {
    if !Fresh(w, p) then w
    else
      match ArriveVerdict(w, p)
      case Proceeds(id) =>
        var created := if Key(p.owner, p.key) in w.keys then w else Created(w, p);
        created.(flights := w.flights[p.request := Preparing(id)])
      case InterruptedReply(id) => RetainQuota(SetState(w, id, OutcomeUnknown), w.operations[id].quota)
      case _ => w
  }

  // ---- The provider's side ----

  /** A failure before the fence; the write is guarded, the release goes with it. */
  function FailBeforeProvider(w: World, id: Id): World {
    if Unfenced(w, id) then ReleaseQuota(SetState(w, id, Failed), w.operations[id].quota) else w
  }

  function FailStep(w: World, r: Request): World {
    if r !in w.flights || !w.flights[r].Preparing? then w
    else FailBeforeProvider(w, w.flights[r].operation).(flights := w.flights - {r})
  }

  function Executions(w: World, l: Local): nat { if l in w.executions then w.executions[l] else 0 }

  /** The compare-and-set right before provider.execute; its loser gets the projection. */
  function FenceStep(w: World, r: Request): World {
    if r !in w.flights || !w.flights[r].Preparing? then w
    else
      var id := w.flights[r].operation;
      if !Unfenced(w, id) then w.(flights := w.flights - {r})
      else
        var l := Local(w.operations[id].owner, w.operations[id].local);
        w.(operations := w.operations[id := w.operations[id].(fenced := true)],
           flights := w.flights[r := Executing(id)],
           active := w.active + {id},
           executions := w.executions[l := Executions(w, l) + 1])
  }

  /** Any write after the fence: the provider's acceptance, the result, a failed or
      indeterminate answer, a poll, a confirmed cancellation. These writes are not all
      guarded; they never go back to `accepted` and only settle or retain the charge. */
  function ConcludeStep(w: World, id: Id, state: OperationState, charge: Charge): World {
    if id !in w.operations || !w.operations[id].fenced || state == Accepted then w
    else ChargeQuota(SetState(w, id, state), w.operations[id].quota, charge)
  }

  function SettledStep(w: World, r: Request): World {
    if r !in w.flights || !w.flights[r].Executing? then w
    else w.(flights := w.flights - {r}, active := w.active - {w.flights[r].operation})
  }

  // ---- Cancellation, sweeps, restart ----

  /** Cancels an operation that was not submitted; the key then answers for it. */
  function CancelStep(w: World, id: Id, owner: Name, key: Name, hash: Name): World {
    if !Unfenced(w, id) || w.operations[id].owner != owner || Key(owner, key) in w.keys then w
    else
      var cancelled := ReleaseQuota(SetState(w, id, Cancelled), w.operations[id].quota);
      cancelled.(keys := cancelled.keys[Key(owner, key) := Bound(hash, id)])
  }

  /** Only a record of an earlier process counts as an orphan, and only once its last change
      is older than the grace time, which `aged` says. */
  function SweepOrphanStep(w: World, id: Id, aged: bool): World {
    if id in w.operations && w.operations[id].process < w.process && aged then FailBeforeProvider(w, id) else w
  }

  function SweepInterruptedStep(w: World, id: Id, publishing: bool): World {
    if !Interrupted(w, id) || publishing || id in w.active then w
    else RetainQuota(SetState(w, id, OutcomeUnknown), w.operations[id].quota)
  }

  function RestartStep(w: World): World { w.(flights := map[], active := {}, process := w.process + 1) }

  // ---- Runs ----

  ghost function Step(w: World, e: Event): World {
    match e
    case Arrive(p) => ArriveStep(w, p)
    case Fail(r) => FailStep(w, r)
    case Fence(r) => FenceStep(w, r)
    case Conclude(id, state, charge) => ConcludeStep(w, id, state, charge)
    case Settled(r) => SettledStep(w, r)
    case Cancel(id, owner, key, hash) => CancelStep(w, id, owner, key, hash)
    case SweepOrphan(id, aged) => SweepOrphanStep(w, id, aged)
    case SweepInterrupted(id, publishing) => SweepInterruptedStep(w, id, publishing)
    case Restart => RestartStep(w)
  }

  ghost function Run(w: World, events: seq<Event>): World
    decreases |events|
  {
    if events == [] then w else Step(Run(w, events[..|events| - 1]), events[|events| - 1])
  }
}
