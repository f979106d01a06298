/** SqliteGatewayOperationResultStore of gateway/operationResultStore.ts as the class it is:
    every method is one transaction on the table, proved against ResultStore. */
module ResultStoring {
  import opened Sums
  import opened ResultStore

  class OperationResultStore {
    var rows: Rows

    /** Opens the table that a previous process left: what was in progress is unknown to
        every later lookup, and all other answers are as before. */
    constructor (previous: Rows)
      ensures rows == Restart(previous)
      ensures forall k :: k in rows ==> rows[k].state != Reserved
      ensures forall b: Binding, now: nat ::
                LookupReply(rows, b, now) == AfterRestart(LookupReply(previous, b, now))
    {
      rows := previous;
      new;
      EndReservations();
      forall b: Binding, now: nat
        ensures LookupReply(rows, b, now) == AfterRestart(LookupReply(previous, b, now))
      {
        RestartEndsProgress(previous, b, now);
      }
    }

    /** The update of the rows that the previous process had reserved. */
    method EndReservations()
      modifies this
      ensures rows == Restart(old(rows))
    {
      var rest := rows.Keys;
      while rest != {}
        invariant rest <= rows.Keys == old(rows).Keys
        invariant forall k :: k in rows ==> rows[k] == if k in rest then old(rows)[k] else Restart(old(rows))[k]
        decreases |rest|
      {
        var k :| k in rest;
        if rows[k].state == Reserved {
          rows := rows[k := rows[k].(state := OutcomeUnknown, expiresAt := 0)];
        }
        rest := rest - {k};
      }
    }

    method BeginOperation(b: Binding, now: nat, token: nat, awaitingAck: bool) returns (reply: Start)
      modifies this
      ensures reply == BeginReply(old(rows), b, now, token, awaitingAck)
      ensures rows == BeginStep(old(rows), b, now, token, awaitingAck)
    {
      hide IsBacklogFull;
      if !b.formed {
        return Failed(Conflict);
      }
      var row := if b.key in rows then Some(rows[b.key]) else None;
      if row.Some? {
        if !SameBinding(row.value, b) {
          return Failed(Conflict);
        }
        if Cached(row.value) && row.value.expiresAt <= now {
          row := None;
        } else if row.value.state == Reserved && row.value.expiresAt <= now {
          row := Some(row.value.(state := OutcomeUnknown, expiresAt := 0));
          rows := rows[b.key := row.value];
        }
      }
      if row.Some? {
        match row.value.state
        case Succeeded => return Stored(row.value, b);
        case Reserved => return InProgress;
        case OutcomeUnknown => return Unknown;
      }
      if awaitingAck {
        var full := BacklogIsFull(b);
        if full {
          return Failed(BacklogFull);
        }
      }
      rows := rows[b.key := NewRow(b, now, token)];
      return Started(token);
    }

    method Lookup(b: Binding, now: nat) returns (reply: Start)
      ensures reply == LookupReply(rows, b, now)
    {
      if !b.formed {
        return Failed(Conflict);
      }
      if b.key !in rows {
        return NotFound;
      }
      var row := rows[b.key];
      if !SameBinding(row, b) {
        return Failed(Conflict);
      }
      if Cached(row) && row.expiresAt <= now {
        return NotFound;
      }
      if row.state == Reserved && row.expiresAt <= now {
        return Unknown;
      }
      if row.state == Succeeded {
        return Stored(row, b);
      }
      return if row.state == Reserved then InProgress else Unknown;
    }

    method CompleteOperation(b: Binding, token: nat, payload: Payload, awaitingAck: bool, now: nat)
      returns (reply: Done, ghost stale: set<Key>)
      modifies this
      ensures reply == CompleteReply(old(rows), b, token, payload)
      ensures rows == CompleteStep(old(rows), b, token, payload, awaitingAck, now, stale)
      ensures reply == Ok && old(rows)[b.key].state == Reserved && !awaitingAck ==>
                IsStale(Completed(old(rows), b, payload, false, now), b, now, stale)
    {
      stale := {};
      if !b.formed {
        return Error(Conflict), stale;
      }
      if !ValidPayload(b.capability, payload) {
        return Error(Unavailable), stale;
      }
      if !Holds(rows, b, token) {
        return Error(Conflict), stale;
      }
      var row := rows[b.key];
      if row.state == Succeeded {
        return if row.payload != Some(payload) then Error(Conflict) else Ok, stale;
      }
      if row.state != Reserved {
        return Error(Conflict), stale;
      }
      rows := rows[b.key := row.(
        state := Succeeded, payload := Some(payload),
        expiresAt := if awaitingAck then 0 else now + RESULT_RETENTION_MS,
        acknowledgedAt := if awaitingAck then None else Some(now))];
      if !awaitingAck {
        stale := PruneSucceeded(b, now);
      }
      return Ok, stale;
    }

    method ReleaseOperation(b: Binding, token: nat) returns (reply: Done)
      modifies this
      ensures reply == ReleaseReply(old(rows), b, token)
      ensures rows == ReleaseStep(old(rows), b, token)
    {
      if !Holds(rows, b, token) || rows[b.key].state != Reserved {
        return Error(Conflict);
      }
      rows := rows - {b.key};
      return Ok;
    }

    method MarkUnknown(b: Binding, token: nat) returns (reply: Done)
      modifies this
      ensures reply == MarkReply(old(rows), b, token)
      ensures rows == MarkStep(old(rows), b, token)
    {
      if !Holds(rows, b, token) {
        return Error(Conflict);
      }
      var row := rows[b.key];
      if row.state == OutcomeUnknown {
        return Ok;
      }
      if row.state != Reserved {
        return Error(Conflict);
      }
      rows := rows[b.key := row.(state := OutcomeUnknown, expiresAt := 0)];
      return Ok;
    }

    method AcknowledgeResult(b: Binding, now: nat) returns (reply: Ack, ghost stale: set<Key>)
      modifies this
      ensures reply == AckReply(old(rows), b)
      ensures rows == AckStep(old(rows), b, now, stale)
      ensures reply == Acknowledged ==> IsStale(Confirmed(old(rows), b, now), b, now, stale)
    {
      stale := {};
      if !b.formed || b.key !in rows || !SameBinding(rows[b.key], b) {
        return AckFailed(Conflict), stale;
      }
      var row := rows[b.key];
      if row.state == Reserved {
        return AckInProgress, stale;
      }
      if row.state == OutcomeUnknown {
        return AckUnknown, stale;
      }
      if row.payload.None? || !ValidPayload(b.capability, row.payload.value) {
        return AckFailed(Unavailable), stale;
      }
      if row.acknowledgedAt.None? {
        rows := rows[b.key := row.(acknowledgedAt := Some(now), expiresAt := now + RESULT_RETENTION_MS)];
      }
      stale := PruneSucceeded(b, now);
      return Acknowledged, stale;
    }

    /** Deletes what has expired, then the oldest results of this owner and capability until
        the bound of its cache is met. */
    method PruneSucceeded(b: Binding, now: nat) returns (ghost stale: set<Key>)
      modifies this
      ensures IsStale(old(rows), b, now, stale) && rows == Prune(old(rows), now, stale)
    {
      ghost var before := rows;
      rows := Prune(rows, now, {});
      var oldest := StaleKeys(b, now);
      PruneAgain(before, b, now, oldest);
      rows := rows - oldest;
      return oldest;
    }

    method StaleKeys(b: Binding, now: nat) returns (stale: set<Key>)
      ensures IsStale(rows, b, now, stale)
    {
      hide Candidates, MaxSucceededResults, Older;
      stale := {};
      var candidates := Candidates(rows, b, now);
      CandidatesExist(rows, b, now);
      var kept := candidates;
      NoneStale(rows, kept);
      while |kept| > MaxSucceededResults(b.capability)
        invariant kept == candidates - stale && stale <= candidates
        invariant stale != {} ==> |kept| >= MaxSucceededResults(b.capability)
        invariant Older(rows, stale, kept)
        decreases |kept|
      {
        var oldest := Oldest(kept);
        OldestGoes(rows, stale, kept, oldest);
        kept, stale := kept - {oldest}, stale + {oldest};
      }
    }

    method Oldest(keys: set<Key>) returns (oldest: Key)
      requires keys != {} && keys <= rows.Keys
      ensures oldest in keys
      ensures Older(rows, {oldest}, keys)
    {
      oldest :| oldest in keys;
      var rest := keys - {oldest};
      while rest != {}
        invariant rest <= keys && oldest in keys
        invariant forall k :: k in keys - rest ==> rows[oldest].createdAt <= rows[k].createdAt
        decreases |rest|
      {
        var k :| k in rest;
        if rows[k].createdAt < rows[oldest].createdAt {
          oldest := k;
        }
        rest := rest - {k};
      }
    }

    method BacklogIsFull(b: Binding) returns (full: bool)
      ensures full == IsBacklogFull(rows, b)
    {
      var ownRows, ownBytes := CountBacklog(b, false);
      var allRows, allBytes := CountBacklog(b, true);
      full := ownRows >= MAX_UNACKNOWLEDGED_ROWS_PER_INSTALLATION
        || ownBytes >= MAX_UNACKNOWLEDGED_BYTES_PER_INSTALLATION
        || allRows >= MAX_UNACKNOWLEDGED_ROWS_GLOBAL
        || allBytes >= MAX_UNACKNOWLEDGED_BYTES_GLOBAL;
    }

    /** COUNT and SUM over the unconfirmed results of one owner, or of all. */
    method CountBacklog(b: Binding, everywhere: bool) returns (count: nat, bytes: int)
      ensures count == |BacklogBytes(rows, b, everywhere)|
      ensures bytes == Total(BacklogBytes(rows, b, everywhere))
    {
      count, bytes := 0, 0;
      var rest := BacklogBytes(rows, b, everywhere);
      while rest != map[]
        invariant count + |rest| == |BacklogBytes(rows, b, everywhere)|
        invariant bytes + Total(rest) == Total(BacklogBytes(rows, b, everywhere))
        decreases |rest|
      {
        var k :| k in rest;
        TotalSplit(rest, k);
        assert rest.Keys == (rest - {k}).Keys + {k};
        count, bytes, rest := count + 1, bytes + rest[k], rest - {k};
      }
    }
  }

  lemma NoneStale(rows: Rows, kept: set<Key>)
    ensures Older(rows, {}, kept)
  {
  }

  lemma OldestGoes(rows: Rows, stale: set<Key>, kept: set<Key>, oldest: Key)
    requires Older(rows, stale, kept) && Older(rows, {oldest}, kept) && oldest in kept
    ensures Older(rows, stale + {oldest}, kept - {oldest})
  {
  }

  lemma CandidatesExist(rows: Rows, b: Binding, now: nat)
    ensures Candidates(rows, b, now) <= rows.Keys
    ensures Candidates(Prune(rows, now, {}), b, now) == Candidates(rows, b, now)
  {
  }

  lemma PruneBoth(rows: Rows, b: Binding, now: nat, stale: set<Key>)
    requires stale <= Candidates(rows, b, now)
    ensures Prune(rows, now, {}) - stale == Prune(rows, now, stale)
  {
  }

  lemma KeptByTime(rows: Rows, b: Binding, now: nat)
    ensures forall k :: k in Candidates(rows, b, now) ==>
            k in Prune(rows, now, {}) && Prune(rows, now, {})[k] == rows[k]
  {
  }

  /** Pruning by time and then by number is pruning by both. */
  lemma PruneAgain(rows: Rows, b: Binding, now: nat, stale: set<Key>)
    requires IsStale(Prune(rows, now, {}), b, now, stale)
    ensures IsStale(rows, b, now, stale)
    ensures Prune(rows, now, {}) - stale == Prune(rows, now, stale)
  {
    hide Candidates, Prune;
    CandidatesExist(rows, b, now);
    KeptByTime(rows, b, now);
    PruneBoth(rows, b, now, stale);
  }
}
