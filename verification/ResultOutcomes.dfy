/** What a reader of the stored operations sees after each call, at any later time: how long an
    operation is in progress, how long a result is answered, who may end an operation, when
    there is no room for another one, and how many results are kept for repeats. */
module ResultOutcomes {
  import opened Sums
  import opened ResultStore

  const MINUTE_MS := 60_000
  const DAY := 24 * 60 * 60_000

  ghost predicate OthersKept(early: Rows, late: Rows, k: Key) {
    forall j :: j != k ==> (j in late <==> j in early) && (j in late ==> late[j] == early[j])
  }

  // ---- Starting ----

  /** An operation that starts is in progress for the thirty minutes of its lease and unknown
      from then on. */
  lemma StartedInProgress(rows: Rows, b: Binding, now: nat, token: nat, awaitingAck: bool, later: nat)
    requires BeginReply(rows, b, now, token, awaitingAck).Started?
    ensures BeginReply(rows, b, now, token, awaitingAck) == Started(token)
    ensures var t := BeginStep(rows, b, now, token, awaitingAck);
            && OthersKept(rows, t, b.key) && b.key in t && t[b.key].token == token
            && LookupReply(t, b, later) == if later < now + 30 * MINUTE_MS then InProgress else Start.Unknown
  {
    hide IsBacklogFull;
  }

  /** A call that starts nothing changes nothing for any reader from that time on. */
  lemma NotStartedChangesNothing(rows: Rows, b: Binding, now: nat, token: nat, awaitingAck: bool,
                                 other: Binding, later: nat)
    requires !BeginReply(rows, b, now, token, awaitingAck).Started? && now <= later
    ensures LookupReply(BeginStep(rows, b, now, token, awaitingAck), other, later) == LookupReply(rows, other, later)
  {
    hide IsBacklogFull;
  }

  predicate IsFor(row: Row, b: Binding) { row.capability == b.capability && row.fingerprint == b.fingerprint }

  /** A kept result past its time. */
  predicate Gone(row: Row, now: nat) {
    row.state == Succeeded && row.acknowledgedAt.Some? && row.expiresAt <= now
  }

  /** What a reader is told: other identities or another request are a conflict, an operation
      that was never started or whose kept result is past its time is not found. */
  lemma LookupExactly(rows: Rows, b: Binding, now: nat)
    ensures var reply := LookupReply(rows, b, now);
            && (reply == Failed(Conflict) <==> !b.formed || (b.key in rows && !IsFor(rows[b.key], b)))
            && (reply == NotFound <==> b.formed && (b.key in rows ==> IsFor(rows[b.key], b) && Gone(rows[b.key], now)))
            && (reply.Replay? ==>
                  && b.key in rows && rows[b.key].state == Succeeded
                  && rows[b.key].payload == Some(reply.payload) && ValidPayload(b.capability, reply.payload))
            && (reply == Failed(Unavailable) ==> b.key in rows && rows[b.key].state == Succeeded)
  {
  }

  // ---- Room for unconfirmed results ----

  function Unconfirmed(rows: Rows, principal: Name, installation: Name): set<Key> {
    set k | k in rows && rows[k].state == Succeeded && rows[k].acknowledgedAt.None?
            && k.principal == principal && k.installation == installation
  }

  function AllUnconfirmed(rows: Rows): set<Key> {
    set k | k in rows && rows[k].state == Succeeded && rows[k].acknowledgedAt.None?
  }

  function Sizes(rows: Rows, keys: set<Key>): map<Key, int>
    requires keys <= rows.Keys
  {
    map k | k in keys :: if rows[k].payload.Some? then rows[k].payload.value.bytes else 0
  }

  /** An operation for a durable consumer finds no room exactly if the unconfirmed results of
      its installation are 100 000 or 512 MiB, or all together are 250 000 or 2 GiB. */
  lemma BacklogExactly(rows: Rows, b: Binding, now: nat, token: nat)
    requires LookupReply(rows, b, now) == NotFound
    ensures var own, all := Unconfirmed(rows, b.key.principal, b.key.installation), AllUnconfirmed(rows);
            BeginReply(rows, b, now, token, true) == Failed(BacklogFull) <==>
              || |own| >= 100_000 || Total(Sizes(rows, own)) >= 536_870_912
              || |all| >= 250_000 || Total(Sizes(rows, all)) >= 2_147_483_648
    ensures BeginReply(rows, b, now, token, false) == Started(token)
  {
    BacklogIs(rows, b, false, Unconfirmed(rows, b.key.principal, b.key.installation));
    BacklogIs(rows, b, true, AllUnconfirmed(rows));
    hide BacklogBytes, Sizes, Unconfirmed, AllUnconfirmed;
  }

  lemma BacklogIs(rows: Rows, b: Binding, everywhere: bool, keys: set<Key>)
    requires keys == if everywhere then AllUnconfirmed(rows)
                     else Unconfirmed(rows, b.key.principal, b.key.installation)
    ensures |BacklogBytes(rows, b, everywhere)| == |keys|
    ensures keys <= rows.Keys && BacklogBytes(rows, b, everywhere) == Sizes(rows, keys)
  {
    assert BacklogBytes(rows, b, everywhere).Keys == keys;
    assert |BacklogBytes(rows, b, everywhere)| == |BacklogBytes(rows, b, everywhere).Keys|;
  }

  // ---- Ending an operation ----

  /** The operation is stored under this binding and token. */
  predicate Owned(rows: Rows, b: Binding, token: nat) {
    && b.formed && 0 < token <= 0x1F_FFFF_FFFF_FFFF && b.key in rows && rows[b.key].token == token
    && rows[b.key].capability == b.capability && rows[b.key].fingerprint == b.fingerprint
  }

  /** Who does not own the operation ends nothing; an operation in progress may be completed,
      given up or marked; a completed one only be completed again with the same text, an unknown
      one only be marked again, and neither changes it. */
  lemma EndsExactly(rows: Rows, b: Binding, token: nat, payload: Payload, awaitingAck: bool, now: nat, stale: set<Key>)
    requires ValidPayload(b.capability, payload)
    ensures var completed := CompleteStep(rows, b, token, payload, awaitingAck, now, stale);
            var released, marked := ReleaseStep(rows, b, token), MarkStep(rows, b, token);
            var complete := CompleteReply(rows, b, token, payload);
            var release, mark := ReleaseReply(rows, b, token), MarkReply(rows, b, token);
            if !Owned(rows, b, token) then
              complete == release == mark == Error(Conflict) && completed == released == marked == rows
            else
              match rows[b.key].state
              case Reserved => complete == release == mark == Ok && released == rows - {b.key}
              case Succeeded =>
                && completed == released == marked == rows && release == mark == Error(Conflict)
                && complete == if rows[b.key].payload == Some(payload) then Ok else Error(Conflict)
              case OutcomeUnknown =>
                completed == released == marked == rows && complete == release == Error(Conflict) && mark == Ok
  {
  }

  /** In bytes: 20 MiB of text, 16 of speech, 1 of a cloned voice, 4 of anything else. */
  function Longest(c: Capability): nat {
    if c.TextReasoning? then 20_971_520
    else if c.SpeechSynthesis? then 16_777_216
    else if c.VoiceCloning? then 1_048_576
    else 4_194_304
  }

  /** A text that is too short, too long or no object is refused before anything is looked at. */
  lemma PayloadRefused(rows: Rows, b: Binding, token: nat, payload: Payload)
    requires b.formed
    ensures CompleteReply(rows, b, token, payload) == Error(Unavailable) <==>
              payload.bytes < 2 || payload.bytes > Longest(b.capability) || !payload.isObject
  {
  }

  /** What is given up may be started again, what is marked is unknown, for any reader. */
  lemma EndedForReaders(rows: Rows, b: Binding, token: nat, later: nat)
    requires Owned(rows, b, token) && rows[b.key].state == Reserved
    ensures LookupReply(ReleaseStep(rows, b, token), b, later) == NotFound
    ensures LookupReply(MarkStep(rows, b, token), b, later) == Start.Unknown
    ensures OthersKept(rows, ReleaseStep(rows, b, token), b.key) && OthersKept(rows, MarkStep(rows, b, token), b.key)
  {
  }

  // ---- How long a result is answered ----

  /** A result without a durable consumer is answered for thirty days, unless it is dropped for
      newer ones, and then not found. */
  lemma CachedForThirtyDays(rows: Rows, b: Binding, token: nat, payload: Payload, now: nat, stale: set<Key>, later: nat)
    requires Owned(rows, b, token) && rows[b.key].state == Reserved && ValidPayload(b.capability, payload)
    requires b.key !in stale
    ensures LookupReply(CompleteStep(rows, b, token, payload, false, now, stale), b, later) ==
              if later < now + 30 * DAY then Replay(payload) else NotFound
  {
  }

  /** Confirming a stored result is answered as such, starts its thirty days, and only the first
      time; operations without a result are answered as they are. */
  lemma AckExactly(rows: Rows, b: Binding, now: nat, stale: set<Key>, later: nat)
    requires b.formed && b.key in rows && rows[b.key].capability == b.capability
    requires rows[b.key].fingerprint == b.fingerprint && b.key !in stale
    ensures var t, reply, row := AckStep(rows, b, now, stale), AckReply(rows, b), rows[b.key];
            match row.state
            case Reserved => reply == AckInProgress && t == rows
            case OutcomeUnknown => reply == AckUnknown && t == rows
            case Succeeded =>
              if row.payload.None? || !ValidPayload(b.capability, row.payload.value) then
                reply == AckFailed(Unavailable) && t == rows
              else
                && reply == Acknowledged
                && (row.acknowledgedAt.None? ==>
                      LookupReply(t, b, later) ==
                        if later < now + 30 * DAY then Replay(row.payload.value) else NotFound)
                && (row.acknowledgedAt.Some? && row.expiresAt > now ==> b.key in t && t[b.key] == row)
  {
  }

  lemma AckRefused(rows: Rows, b: Binding, now: nat, stale: set<Key>)
    requires !b.formed || b.key !in rows || rows[b.key].capability != b.capability
             || rows[b.key].fingerprint != b.fingerprint
    ensures AckReply(rows, b) == AckFailed(Conflict) && AckStep(rows, b, now, stale) == rows
  {
  }

  // ---- How many results are kept ----

  function MostKept(c: Capability): nat {
    match c
    case SpeechSynthesis => 32
    case TextReasoning => 64
    case VoiceCloning => 128
    case WebSearch => 128
    case MediaReasoning => 256
    case _ => 512
  }

  /** The confirmed results of one owner and capability. */
  function KeptFor(rows: Rows, b: Binding): set<Key> {
    set k | k in rows && rows[k].state == Succeeded && rows[k].acknowledgedAt.Some?
            && k.principal == b.key.principal && k.installation == b.key.installation
            && rows[k].capability == b.capability
  }

  /** Pruning drops only kept results that were confirmed, and leaves no more of this owner and
      capability than the bound, the newest ones. */
  lemma CacheBounded(rows: Rows, b: Binding, now: nat, stale: set<Key>)
    requires IsStale(rows, b, now, stale)
    ensures var t := Prune(rows, now, stale);
            && |KeptFor(t, b)| <= MostKept(b.capability)
            && (forall k :: k in t ==> k in rows && t[k] == rows[k])
            && (forall k :: k in rows && k !in t ==>
                  && rows[k].state == Succeeded && rows[k].acknowledgedAt.Some?
                  && (rows[k].expiresAt > now ==>
                        && k.principal == b.key.principal && k.installation == b.key.installation
                        && rows[k].capability == b.capability))
            && (forall k :: k in t ==> !Gone(t[k], now))
            && (forall k, j :: k in KeptFor(t, b) && j in rows && j !in t && !Gone(rows[j], now) ==>
                  rows[j].createdAt <= rows[k].createdAt)
  {
    PrunedKept(rows, b, now, stale);
    hide KeptFor;
  }

  lemma PrunedKept(rows: Rows, b: Binding, now: nat, stale: set<Key>)
    ensures KeptFor(Prune(rows, now, stale), b) == Candidates(rows, b, now) - stale
  {
  }

  /** While there are no more than the bound, none is dropped before its time. */
  lemma NoneDroppedEarly(rows: Rows, b: Binding, now: nat, stale: set<Key>, k: Key)
    requires IsStale(rows, b, now, stale) && k in rows && rows[k].expiresAt > now
    requires |Candidates(rows, b, now)| <= MostKept(b.capability)
    ensures k in Prune(rows, now, stale)
  {
    hide Candidates;
    if k in stale { RestIsSmaller(Candidates(rows, b, now), stale); }
  }

  lemma RestIsSmaller(all: set<Key>, some: set<Key>)
    requires some <= all && some != {}
    ensures |all - some| < |all|
  {
    assert all - some + some == all;
  }

  /** A run takes its events one by one. */
  lemma RunNext(rows: Rows, events: seq<Event>, e: Event)
    ensures Run(rows, []) == rows && Run(rows, events + [e]) == Step(Run(rows, events), e)
  {
    hide Step;
    assert (events + [e])[..|events|] == events;
  }
}
