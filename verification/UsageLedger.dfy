/** The gateway's usage ledger (gateway/usageBudget.ts): one row per operation of a
    principal, reserved once and finalized at most once. Each call is one transaction. */
module UsageLedger {
  import opened Sums

  /** Identities are only compared, so numbers stand for the strings. */
  type Name = nat

  /** The marker of rows written before provider accounts were recorded. */
  const LEGACY: Name := 0

  const MAX_SAFE_INTEGER := 0x1F_FFFF_FFFF_FFFF

  datatype Axis = Requests | InputBytes | OutputUnits | TotalTokens

  datatype Amount = Amount(requests: int, inputBytes: int, outputUnits: int, totalTokens: int) {
    function Of(x: Axis): int {
      match x
      case Requests => requests
      case InputBytes => inputBytes
      case OutputUnits => outputUnits
      case TotalTokens => totalTokens
    }

    function Plus(that: Amount): Amount {
      Amount(requests + that.requests, inputBytes + that.inputBytes,
             outputUnits + that.outputUnits, totalTokens + that.totalTokens)
    }

    predicate Exceeds(limit: Amount) {
      requests > limit.requests || inputBytes > limit.inputBytes
      || outputUnits > limit.outputUnits || totalTokens > limit.totalTokens
    }

    predicate Valid() {
      && 0 <= requests <= MAX_SAFE_INTEGER && 0 <= inputBytes <= MAX_SAFE_INTEGER
      && 0 <= outputUnits <= MAX_SAFE_INTEGER && 0 <= totalTokens <= MAX_SAFE_INTEGER
    }
  }

  const ZERO := Amount(0, 0, 0, 0)

  datatype Capability = TextReasoning | VisualEvidence | MediaReasoning | ImageAdvice | SpeechTranscription

  datatype Limits = Limits(principal: Amount, installation: Amount)

  datatype Policy = Policy(text: Limits, visual: Limits, media: Limits, image: Limits, speech: Limits) {
    function For(c: Capability): Limits {
      match c
      case TextReasoning => text
      case VisualEvidence => visual
      case MediaReasoning => media
      case ImageAdvice => image
      case SpeechTranscription => speech
    }
  }

  datatype UsageState = Reserved | Settled | Released | OutcomeUnknown

  /** `operation_key` hashes the pair, so the pair itself is the key. */
  datatype Key = Key(principal: Name, operation: Name)

  datatype Row = Row(
    installation: Name, capability: Capability, account: Name, period: nat, fingerprint: Name,
    reserved: Amount, fence: nat, state: UsageState, actual: Amount, receiptHash: Name)
  {
    function Counted(): Amount {
      match state
      case Released => ZERO
      case Settled => actual
      case _ => reserved
    }

    /** What the row counts for, at most what it reserved. */
    function Planned(x: Axis): int {
      if Counted().Of(x) <= reserved.Of(x) then Counted().Of(x) else reserved.Of(x)
    }

    /** What a settled row counts for beyond what it reserved. */
    function Overrun(x: Axis): int {
      if state == Settled && actual.Of(x) > reserved.Of(x) then actual.Of(x) - reserved.Of(x) else 0
    }

    /** What `reserve` fixed for good. */
    predicate SameReservation(that: Row) {
      && installation == that.installation && capability == that.capability && account == that.account
      && period == that.period && fingerprint == that.fingerprint && reserved == that.reserved && fence == that.fence
    }
  }

  type Rows = map<Key, Row>

  /** `next` is the token that the next insertion draws. */
  datatype Ledger = Ledger(rows: Rows, next: nat)

  const Empty := Ledger(map[], 1)

  /** `formed` says that the identifiers match the patterns that the code demands. */
  datatype Input = Input(
    key: Key, installation: Name, capability: Capability, account: Name,
    fingerprint: Name, amount: Amount, formed: bool)

  datatype Scope = Principal | Installation

  datatype Code = BudgetUnavailable | UsageLimitReached(scope: Scope) | OperationConflict | StaleFencing

  /** `duplicate` says that the row was there before; for a finalization, that it had its
      outcome before. */
  datatype Reply = Receipt(duplicate: bool, row: Row) | Refused(code: Code)

  datatype Final = Settle(actual: Amount, hash: Name, hashFormed: bool) | Release | Unknown

  // ---- The rows that a limit counts ----

  datatype Selection = Selection(
    scope: Scope, principal: Name, installation: Name, capability: Capability, period: nat) {
    predicate Selects(k: Key, row: Row) {
      && k.principal == principal && row.capability == capability && row.period == period
      && (scope == Installation ==> row.installation == installation)
    }

    function Limit(policy: Policy): Amount {
      if scope == Principal then policy.For(capability).principal else policy.For(capability).installation
    }
  }

  function CountedWeights(rows: Rows, sel: Selection, x: Axis): map<Key, int> {
    map k | k in rows && sel.Selects(k, rows[k]) :: rows[k].Counted().Of(x)
  }

  function PlannedWeights(rows: Rows, sel: Selection, x: Axis): map<Key, int> {
    map k | k in rows && sel.Selects(k, rows[k]) :: rows[k].Planned(x)
  }

  function OverrunWeights(rows: Rows, sel: Selection, x: Axis): map<Key, int> {
    map k | k in rows && sel.Selects(k, rows[k]) :: rows[k].Overrun(x)
  }

  /** The counted usage on one axis. */
  ghost function Spent(rows: Rows, sel: Selection, x: Axis): int { Total(CountedWeights(rows, sel, x)) }

  ghost function PlannedSpend(rows: Rows, sel: Selection, x: Axis): int { Total(PlannedWeights(rows, sel, x)) }

  ghost function Overrun(rows: Rows, sel: Selection, x: Axis): int { Total(OverrunWeights(rows, sel, x)) }

  ghost function SpentAmount(rows: Rows, sel: Selection): Amount {
    Amount(Spent(rows, sel, Requests), Spent(rows, sel, InputBytes),
           Spent(rows, sel, OutputUnits), Spent(rows, sel, TotalTokens))
  }

  // ---- The operations ----

  function Select(input: Input, scope: Scope, day: nat): Selection {
    Selection(scope, input.key.principal, input.installation, input.capability, day)
  }

  ghost predicate Exceeded(policy: Policy, rows: Rows, input: Input, scope: Scope, day: nat) {
    var sel := Select(input, scope, day);
    SpentAmount(rows, sel).Plus(input.amount).Exceeds(sel.Limit(policy))
  }

  predicate SameLegacyBinding(row: Row, input: Input) {
    && row.installation == input.installation && row.capability == input.capability
    && row.fingerprint == input.fingerprint && row.reserved == input.amount
  }

  predicate SameBinding(row: Row, input: Input) {
    SameLegacyBinding(row, input) && row.account == input.account
  }

  function NewRow(input: Input, day: nat, fence: nat): Row {
    Row(input.installation, input.capability, input.account, day,
        input.fingerprint, input.amount, fence, Reserved, ZERO, 0)
  }

  ghost function ReserveReply(policy: Policy, s: Ledger, input: Input, day: nat): Reply {
    if !input.formed || input.account == LEGACY then Refused(OperationConflict)
    else if !input.amount.Valid() || input.amount.requests != 1 then Refused(BudgetUnavailable)
    else if input.key in s.rows then
      var existing := s.rows[input.key];
      if existing.account == LEGACY then
        if SameLegacyBinding(existing, input) then Receipt(true, existing) else Refused(OperationConflict)
      else if SameBinding(existing, input) then Receipt(true, existing) else Refused(OperationConflict)
    else if Exceeded(policy, s.rows, input, Principal, day) then Refused(UsageLimitReached(Principal))
    else if Exceeded(policy, s.rows, input, Installation, day) then Refused(UsageLimitReached(Installation))
    else Receipt(false, NewRow(input, day, s.next))
  }

  ghost function ReserveStep(policy: Policy, s: Ledger, input: Input, day: nat): Ledger {
    var reply := ReserveReply(policy, s, input, day);
    if reply.Receipt? && !reply.duplicate then Ledger(s.rows[input.key := reply.row], s.next + 1) else s
  }

  /** The row that a finalization names by its token; it must belong to that operation. */
  predicate IsFenced(rows: Rows, k: Key, operation: Name, fence: nat) {
    k in rows && rows[k].fence == fence && k.operation == operation
  }

  function Finalized(row: Row, f: Final): Reply {
    if row.state != Reserved then Receipt(true, row)
    else
      match f
      case Settle(actual, hash, hashFormed) =>
        if !actual.Valid() || (hash != 0 && !hashFormed) then Refused(BudgetUnavailable)
        else Receipt(false, row.(state := Settled, actual := actual, receiptHash := hash))
      case Release => Receipt(false, row.(state := Released, actual := ZERO))
      case Unknown => Receipt(false, row.(state := OutcomeUnknown, actual := row.reserved))
  }

  datatype Found = Absent | At(key: Key)

  ghost function Find(rows: Rows, operation: Name, fence: nat): (f: Found)
    ensures f.At? ==> IsFenced(rows, f.key, operation, fence)
    ensures f.Absent? ==> forall k :: !IsFenced(rows, k, operation, fence)
  {
    if exists k :: IsFenced(rows, k, operation, fence) then
      var k :| IsFenced(rows, k, operation, fence);
      At(k)
    else Absent
  }

  ghost function FinalizeReply(s: Ledger, operation: Name, fence: nat, f: Final): Reply {
    var found := Find(s.rows, operation, fence);
    if found.Absent? then Refused(StaleFencing) else Finalized(s.rows[found.key], f)
  }

  ghost function FinalizeStep(s: Ledger, operation: Name, fence: nat, f: Final): Ledger {
    var found := Find(s.rows, operation, fence);
    var reply := FinalizeReply(s, operation, fence, f);
    if reply.Receipt? then s.(rows := s.rows[found.key := reply.row]) else s
  }

  // ---- Runs ----

  datatype Event = Reserve(input: Input, day: nat) | Finalize(operation: Name, fence: nat, final: Final)

  ghost function Step(policy: Policy, s: Ledger, e: Event): Ledger {
    match e
    case Reserve(input, day) => ReserveStep(policy, s, input, day)
    case Finalize(operation, fence, f) => FinalizeStep(s, operation, fence, f)
  }

  ghost function Run(policy: Policy, s: Ledger, events: seq<Event>): Ledger
    decreases |events|
  {
    if events == [] then s else Step(policy, Run(policy, s, events[..|events| - 1]), events[|events| - 1])
  }
}
