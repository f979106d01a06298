/** The gateway's fenced store of operation results (gateway/operationResultStore.ts): one
    row per operation of an installation. Each call is one transaction at one clock value. */
module ResultStore {
  import opened Sums
  import UsageLedger

  type Name = nat

  datatype Option<T> = None | Some(value: T)

  datatype Capability =
    | SpeechTranscription | SpeechSynthesis | VoiceCloning | VisualEvidence | AudioUnderstanding
    | MediaReasoning | ImageAdvice | WebSearch | TextReasoning

  const MIB := 1024 * 1024
  const RESERVATION_LEASE_MS: nat := 30 * 60_000
  const RESULT_RETENTION_MS: nat := 30 * 24 * 60 * 60_000
  const MAX_UNACKNOWLEDGED_BYTES_PER_INSTALLATION := 512 * MIB
  const MAX_UNACKNOWLEDGED_BYTES_GLOBAL := 2 * 1024 * MIB
  const MAX_UNACKNOWLEDGED_ROWS_PER_INSTALLATION := 100_000
  const MAX_UNACKNOWLEDGED_ROWS_GLOBAL := 250_000

  function MaxResultBytes(c: Capability): nat {
    match c
    case SpeechSynthesis => 16 * MIB
    case VoiceCloning => MIB
    case TextReasoning => 20 * MIB
    case _ => 4 * MIB
  }

  function MaxSucceededResults(c: Capability): nat {
    match c
    case SpeechSynthesis => 32
    case VoiceCloning => 128
    case MediaReasoning => 256
    case WebSearch => 128
    case TextReasoning => 64
    case _ => 512
  }

  /** A JSON text: its identity, its size in UTF-8, whether it is an object, the usage that
      it records and whether the reader of stored text results accepts it. */
  datatype Payload = Payload(text: Name, bytes: nat, isObject: bool, actual: UsageLedger.Amount, readable: bool)

  /** `operation_key` hashes the triple. */
  datatype Key = Key(principal: Name, installation: Name, operation: Name)

  /** `formed` says that the identifiers match the patterns that the code demands. */
  datatype Binding = Binding(key: Key, capability: Capability, fingerprint: Name, formed: bool)

  datatype RowState = Reserved | Succeeded | OutcomeUnknown

  datatype Row = Row(
    capability: Capability, fingerprint: Name, state: RowState, token: nat, payload: Option<Payload>,
    createdAt: nat, expiresAt: nat, acknowledgedAt: Option<nat>)

  type Rows = map<Key, Row>

  datatype Code = Conflict | Unavailable | BacklogFull

  datatype Start = Started(token: nat) | Replay(payload: Payload) | InProgress | Unknown | NotFound | Failed(code: Code)

  datatype Ack = Acknowledged | AckInProgress | AckUnknown | AckFailed(code: Code)

  datatype Done = Ok | Error(code: Code)

  predicate ValidPayload(c: Capability, p: Payload) {
    2 <= p.bytes <= MaxResultBytes(c) && p.isObject
  }

  predicate SameBinding(row: Row, b: Binding) {
    row.capability == b.capability && row.fingerprint == b.fingerprint
  }

  predicate Cached(row: Row) { row.state == Succeeded && row.acknowledgedAt.Some? }

  predicate Unacknowledged(row: Row) { row.state == Succeeded && row.acknowledgedAt.None? }

  // ---- The backlog of results that no consumer has confirmed ----

  predicate InBacklog(k: Key, row: Row, b: Binding, everywhere: bool) {
    Unacknowledged(row) && (everywhere || (k.principal == b.key.principal && k.installation == b.key.installation))
  }

  function BacklogBytes(rows: Rows, b: Binding, everywhere: bool): map<Key, int> {
    map k | k in rows && InBacklog(k, rows[k], b, everywhere) ::
      if rows[k].payload.Some? then rows[k].payload.value.bytes else 0
  }

  ghost predicate IsBacklogFull(rows: Rows, b: Binding) {
    || |BacklogBytes(rows, b, false)| >= MAX_UNACKNOWLEDGED_ROWS_PER_INSTALLATION
    || Total(BacklogBytes(rows, b, false)) >= MAX_UNACKNOWLEDGED_BYTES_PER_INSTALLATION
    || |BacklogBytes(rows, b, true)| >= MAX_UNACKNOWLEDGED_ROWS_GLOBAL
    || Total(BacklogBytes(rows, b, true)) >= MAX_UNACKNOWLEDGED_BYTES_GLOBAL
  }

  // ---- begin and lookup ----

  /** The row as the clock sees it: a cached result past its time is gone, a reservation
      past its lease is unknown. */
  function Current(rows: Rows, k: Key, now: nat): Option<Row> {
    if k !in rows then None
    else
      var row := rows[k];
      if Cached(row) && row.expiresAt <= now then None
      else if row.state == Reserved && row.expiresAt <= now then Some(row.(state := OutcomeUnknown, expiresAt := 0))
      else Some(row)
  }

  function Stored(row: Row, b: Binding): Start {
    if row.payload.None? || !ValidPayload(b.capability, row.payload.value) then Failed(Unavailable)
    else Replay(row.payload.value)
  }

  function NewRow(b: Binding, now: nat, token: nat): Row {
    Row(b.capability, b.fingerprint, Reserved, token, None, now, now + RESERVATION_LEASE_MS, None)
  }

  ghost function BeginReply(rows: Rows, b: Binding, now: nat, token: nat, awaitingAck: bool): Start {
    if !b.formed || (b.key in rows && !SameBinding(rows[b.key], b)) then Failed(Conflict)
    else
      match Current(rows, b.key, now)
      case None => if awaitingAck && IsBacklogFull(rows, b) then Failed(BacklogFull) else Started(token)
      case Some(row) =>
        match row.state
        case Succeeded => Stored(row, b)
        case Reserved => InProgress
        case OutcomeUnknown => Unknown
  }

  ghost function BeginStep(rows: Rows, b: Binding, now: nat, token: nat, awaitingAck: bool): Rows {
    match BeginReply(rows, b, now, token, awaitingAck)
    case Started(_) => rows[b.key := NewRow(b, now, token)]
    case Unknown => rows[b.key := Current(rows, b.key, now).value]
    case _ => rows
  }

  function LookupReply(rows: Rows, b: Binding, now: nat): Start {
    if !b.formed || (b.key in rows && !SameBinding(rows[b.key], b)) then Failed(Conflict)
    else
      match Current(rows, b.key, now)
      case None => NotFound
      case Some(row) =>
        match row.state
        case Succeeded => Stored(row, b)
        case Reserved => InProgress
        case OutcomeUnknown => Unknown
  }

  // ---- The fenced changes of a row ----

  /** The row that binding and token name. */
  predicate Holds(rows: Rows, b: Binding, token: nat) {
    && b.formed && 0 < token <= UsageLedger.MAX_SAFE_INTEGER
    && b.key in rows && rows[b.key].token == token && SameBinding(rows[b.key], b)
  }

  function CompleteReply(rows: Rows, b: Binding, token: nat, payload: Payload): Done {
    if !b.formed then Error(Conflict)
    else if !ValidPayload(b.capability, payload) then Error(Unavailable)
    else if !Holds(rows, b, token) then Error(Conflict)
    else if rows[b.key].state == Succeeded && rows[b.key].payload == Some(payload) then Ok
    else if rows[b.key].state == Reserved then Ok
    else Error(Conflict)
  }

  function Completed(rows: Rows, b: Binding, payload: Payload, awaitingAck: bool, now: nat): Rows
    requires b.key in rows
  {
    rows[b.key := rows[b.key].(
      state := Succeeded, payload := Some(payload),
      expiresAt := if awaitingAck then 0 else now + RESULT_RETENTION_MS,
      acknowledgedAt := if awaitingAck then None else Some(now))]
  }

  function CompleteStep(rows: Rows, b: Binding, token: nat, payload: Payload, awaitingAck: bool, now: nat,
                        stale: set<Key>): Rows {
    if CompleteReply(rows, b, token, payload) != Ok || rows[b.key].state != Reserved then rows
    else
      var completed := Completed(rows, b, payload, awaitingAck, now);
      if awaitingAck then completed else Prune(completed, now, stale)
  }

  function ReleaseReply(rows: Rows, b: Binding, token: nat): Done {
    if Holds(rows, b, token) && rows[b.key].state == Reserved then Ok else Error(Conflict)
  }

  function ReleaseStep(rows: Rows, b: Binding, token: nat): Rows {
    if ReleaseReply(rows, b, token) == Ok then rows - {b.key} else rows
  }

  function MarkReply(rows: Rows, b: Binding, token: nat): Done {
    if Holds(rows, b, token) && rows[b.key].state != Succeeded then Ok else Error(Conflict)
  }

  function MarkStep(rows: Rows, b: Binding, token: nat): Rows {
    if MarkReply(rows, b, token) == Ok && rows[b.key].state == Reserved
    then rows[b.key := rows[b.key].(state := OutcomeUnknown, expiresAt := 0)]
    else rows
  }

  // ---- Confirmation and pruning ----

  function AckReply(rows: Rows, b: Binding): Ack {
    if !b.formed || b.key !in rows || !SameBinding(rows[b.key], b) then AckFailed(Conflict)
    else
      match rows[b.key].state
      case Reserved => AckInProgress
      case OutcomeUnknown => AckUnknown
      case Succeeded => if Stored(rows[b.key], b).Replay? then Acknowledged else AckFailed(Unavailable)
  }

  function Confirmed(rows: Rows, b: Binding, now: nat): Rows
    requires b.key in rows
  {
    if rows[b.key].acknowledgedAt.None?
    then rows[b.key := rows[b.key].(acknowledgedAt := Some(now), expiresAt := now + RESULT_RETENTION_MS)]
    else rows
  }

  function AckStep(rows: Rows, b: Binding, now: nat, stale: set<Key>): Rows {
    if AckReply(rows, b) != Acknowledged then rows else Prune(Confirmed(rows, b, now), now, stale)
  }

  /** Drops the cached results past their time and those of `stale`. */
  function Prune(rows: Rows, now: nat, stale: set<Key>): Rows {
    map k | k in rows && !(Cached(rows[k]) && (rows[k].expiresAt <= now || k in stale)) :: rows[k]
  }

  predicate Fresh(rows: Rows, b: Binding, now: nat, k: Key) {
    && k in rows && Cached(rows[k]) && rows[k].expiresAt > now
    && k.principal == b.key.principal && k.installation == b.key.installation && rows[k].capability == b.capability
  }

  /** The unexpired cached results of one owner and capability that compete for the places
      of its bounded cache. */
  function Candidates(rows: Rows, b: Binding, now: nat): set<Key> {
    set k | k in rows && Fresh(rows, b, now, k)
  }

  predicate Older(rows: Rows, stale: set<Key>, kept: set<Key>) {
    forall k, j :: k in kept && j in stale ==> k in rows && j in rows && rows[j].createdAt <= rows[k].createdAt
  }

  /** `stale` are the oldest candidates beyond the bound; which of equally old ones go is
      left open, as the query leaves it open. */
  predicate IsStale(rows: Rows, b: Binding, now: nat, stale: set<Key>) {
    && stale <= Candidates(rows, b, now)
    && |Candidates(rows, b, now) - stale| <= MaxSucceededResults(b.capability)
    && (stale != {} ==> |Candidates(rows, b, now) - stale| == MaxSucceededResults(b.capability))
    && Older(rows, stale, Candidates(rows, b, now) - stale)
  }

  /** What opening the store does: no reservation of the previous process can complete. */
  function Restart(rows: Rows): Rows {
    map k | k in rows ::
      if rows[k].state == Reserved then rows[k].(state := OutcomeUnknown, expiresAt := 0) else rows[k]
  }

  // ---- Runs ----

  datatype Event =
    | Begin(binding: Binding, now: nat, token: nat, awaitingAck: bool)
    | Complete(binding: Binding, token: nat, payload: Payload, awaitingAck: bool, now: nat, stale: set<Key>)
    | Release(binding: Binding, token: nat)
    | MarkOutcomeUnknown(binding: Binding, token: nat)
    | Acknowledge(binding: Binding, now: nat, stale: set<Key>)
    | Reopen

  ghost function Step(rows: Rows, e: Event): Rows {
    match e
    case Begin(b, now, token, awaitingAck) => BeginStep(rows, b, now, token, awaitingAck)
    case Complete(b, token, payload, awaitingAck, now, stale) =>
      CompleteStep(rows, b, token, payload, awaitingAck, now, stale)
    case Release(b, token) => ReleaseStep(rows, b, token)
    case MarkOutcomeUnknown(b, token) => MarkStep(rows, b, token)
    case Acknowledge(b, now, stale) => AckStep(rows, b, now, stale)
    case Reopen => Restart(rows)
  }

  ghost function Run(rows: Rows, events: seq<Event>): Rows
    decreases |events|
  {
    if events == [] then rows else Step(Run(rows, events[..|events| - 1]), events[|events| - 1])
  }

  // ---- What the store promises ----

  /** A read-only lookup answers what `begin` would answer; where it finds nothing, and
      only there, `begin` starts the operation or finds no room for one. */
  lemma LookupForetellsBegin(rows: Rows, b: Binding, now: nat, token: nat, awaitingAck: bool)
    ensures var found := LookupReply(rows, b, now);
            var begun := BeginReply(rows, b, now, token, awaitingAck);
            && (found != NotFound ==> begun == found)
            && (found == NotFound <==> begun == Started(token) || begun == Failed(BacklogFull))
  {
  }

  /** What one event can do to one row: an unknown outcome stays unknown, a result keeps its
      payload, and an unconfirmed result stays until its own consumer confirms it. */
  ghost predicate RowKept(early: Rows, late: Rows, k: Key, confirmed: bool) {
    k in early ==>
      && (early[k].state == OutcomeUnknown ==> k in late && late[k] == early[k])
      && (Unacknowledged(early[k]) && !confirmed ==> k in late && late[k] == early[k])
      && (early[k].state == Succeeded && k in late ==>
            (late[k].state == Succeeded && late[k].payload == early[k].payload)
            || (Cached(early[k]) && late[k].state == Reserved))
  }

  lemma StepKeepsRow(rows: Rows, e: Event, k: Key)
    ensures RowKept(rows, Step(rows, e), k, e.Acknowledge? && e.binding.key == k)
  {
    hide IsBacklogFull;
  }

  /** No event of the run confirms the result of `k`. */
  predicate NeverConfirmed(events: seq<Event>, k: Key) {
    forall i :: 0 <= i < |events| ==> !(events[i].Acknowledge? && events[i].binding.key == k)
  }

  /** An outcome once unknown is unknown for good: no operation id is ever reused for it. */
  lemma {:induction false} UnknownForGood(rows: Rows, events: seq<Event>, k: Key)
    requires k in rows && rows[k].state == OutcomeUnknown
    ensures k in Run(rows, events) && Run(rows, events)[k] == rows[k]
    decreases |events|
  {
    if events != [] {
      UnknownForGood(rows, events[..|events| - 1], k);
      StepKeepsRow(Run(rows, events[..|events| - 1]), events[|events| - 1], k);
    }
  }

  lemma {:induction false} UnconfirmedForGood(rows: Rows, events: seq<Event>, k: Key)
    requires k in rows && Unacknowledged(rows[k]) && NeverConfirmed(events, k)
    ensures k in Run(rows, events) && Run(rows, events)[k] == rows[k]
    decreases |events|
  {
    if events != [] {
      UnconfirmedForGood(rows, events[..|events| - 1], k);
      StepKeepsRow(Run(rows, events[..|events| - 1]), events[|events| - 1], k);
    }
  }

  /** A result stored for a durable consumer is replayed, byte for byte, at any later time
      and after any other calls and restarts, until that consumer confirms it. */
  lemma StoredResultIsReplayed(rows: Rows, b: Binding, token: nat, payload: Payload, now: nat, events: seq<Event>,
                               later: nat, next: nat)
    requires CompleteReply(rows, b, token, payload) == Ok
    requires rows[b.key].state == Succeeded ==> rows[b.key].acknowledgedAt.None?
    requires NeverConfirmed(events, b.key)
    ensures var s := Run(CompleteStep(rows, b, token, payload, true, now, {}), events);
            && BeginReply(s, b, later, next, true) == Replay(payload)
            && LookupReply(s, b, later) == Replay(payload)
            && BeginStep(s, b, later, next, true) == s
  {
    var stored := CompleteStep(rows, b, token, payload, true, now, {});
    assert Unacknowledged(stored[b.key]) && stored[b.key].payload == Some(payload);
    UnconfirmedForGood(stored, events, b.key);
    hide Run;
  }

  function AfterRestart(before: Start): Start { if before == InProgress then Unknown else before }

  /** After a restart nothing is in progress any more. */
  lemma RestartEndsProgress(rows: Rows, b: Binding, now: nat)
    ensures LookupReply(Restart(rows), b, now) == AfterRestart(LookupReply(rows, b, now))
  {
  }
}
