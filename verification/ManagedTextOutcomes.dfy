/** What becomes of the charge and of the stored operation when a request for managed text is
    answered, fails, is cancelled or ends: told by the provider's answer and by which of the
    calls to the two stores work. */
module ManagedTextOutcomes {
  import L = UsageLedger
  import R = ResultStore
  import UsageBounds
  import C = UsageOutcomes
  import RO = ResultOutcomes
  import opened ManagedText
  import opened ManagedTextInvariant
  import ManagedTextTheorems

  // ---- The two rows of a request ----

  /** The ledger row of this operation has this outcome now, and its limits count it for that:
      a released row for nothing, an unknown one for what it reserved. */
  ghost predicate Closed(a: L.Ledger, b: L.Ledger, k: L.Key, state: L.UsageState) {
    && k in a.rows && C.OtherRowsKept(a.rows, b.rows, k) && b.next == a.next
    && var row := a.rows[k];
       && b.rows[k].SameReservation(row) && b.rows[k].state == state
       && forall sel: L.Selection, x :: L.Spent(b.rows, sel, x) == L.Spent(a.rows, sel, x) -
            if state == L.Released && C.Concerns(sel, k.principal, row.installation, row.capability, row.period)
            then row.reserved.Of(x) else 0
  }

  /** The stored operation is reserved by this binding and token. */
  predicate ReservedBy(results: R.Rows, b: R.Binding, token: nat) {
    && b.formed && 0 < token <= 0x1F_FFFF_FFFF_FFFF
    && b.key in results && results[b.key].state == R.Reserved && results[b.key].token == token
    && results[b.key].capability == b.capability && results[b.key].fingerprint == b.fingerprint
  }

  datatype Fate = Kept | Dropped | Unknown

  /** What becomes of the reserved operation: it stays, it may be started again, or it is
      answered as unknown at any time. Other rows, and rows that are not reserved by this
      request, stay. */
  ghost predicate Fares(early: R.Rows, late: R.Rows, b: R.Binding, token: nat, fate: Fate) {
    && (forall k :: k != b.key ==> (k in late <==> k in early) && (k in late ==> late[k] == early[k]))
    && if !ReservedBy(early, b, token) || fate.Kept? then late == early
       else if fate.Dropped? then b.key !in late
       else
         && b.key in late && late[b.key].state == R.OutcomeUnknown
         && (forall now: nat :: R.LookupReply(late, b, now) == R.Start.Unknown)
  }

  /** A run starts empty and takes its events one by one; confirmations and restarts only touch
      the stored operations, and a restart ends all requests. */
  lemma RunNext(policy: L.Policy, events: seq<Event>, e: Event)
    ensures Run(policy, []) == Initial && Run(policy, events + [e]) == Step(policy, Run(policy, events), e)
    ensures var s := Run(policy, events);
            && (e.Confirm? ==> Step(policy, s, e) == s.(results := R.AckStep(s.results, e.binding, e.now, e.stale)))
            && (e.Restart? ==> Step(policy, s, e) == s.(results := R.Restart(s.results), flights := map[]))
  {
    assert (events + [e])[..|events|] == events;
    hide ArriveStep, RespondStep, InterruptStep, FinishStep, R.AckStep, R.Restart;
  }

  // ---- Single calls ----

  lemma OwnRow(s: System, r: Request)
    requires Inv(s) && r in s.flights
    ensures var f := s.flights[r];
            && UsageBounds.Fenced(s.ledger) && KeyOf(f) in s.ledger.rows && s.ledger.rows[KeyOf(f)].fence == f.fence
            && (f.phase.Waiting? ==> s.ledger.rows[KeyOf(f)].state == L.Reserved)
            && (f.phase.Streaming? && !f.phase.terminal && !f.phase.stored ==>
                  s.ledger.rows[KeyOf(f)].state == L.Reserved)
            && (f.phase.Streaming? && f.phase.reading ==> !f.phase.stored)
  {
  }

  /** An open charge of the request is closed by one call, and closing it again as unknown is
      answered and changes nothing. */
  lemma ChargeCloses(a: L.Ledger, k: L.Key, fence: nat, final: L.Final)
    requires UsageBounds.Fenced(a) && k in a.rows && a.rows[k].fence == fence && a.rows[k].state == L.Reserved
    requires final.Release? || final.Unknown?
    ensures var b := L.FinalizeStep(a, k.operation, fence, final);
            && L.FinalizeReply(a, k.operation, fence, final).Receipt?
            && Closed(a, b, k, if final.Release? then L.Released else L.OutcomeUnknown)
            && L.FinalizeReply(b, k.operation, fence, L.Unknown).Receipt?
            && L.FinalizeStep(b, k.operation, fence, L.Unknown) == b
  {
    hide L.Spent, L.FinalizeStep, L.FinalizeReply;
    C.FinalizeExactly(a, k, fence, final);
    var b := L.FinalizeStep(a, k.operation, fence, final);
    UsageBounds.RowKeepsFenced(a, k, b.rows[k]);
    assert b == a.(rows := a.rows[k := b.rows[k]]);
    C.FinalizeExactly(b, k, fence, L.Unknown);
  }

  lemma RowFares(results: R.Rows, b: R.Binding, token: nat)
    ensures Fares(results, R.MarkStep(results, b, token), b, token, Unknown)
    ensures Fares(results, R.ReleaseStep(results, b, token), b, token, Dropped)
    ensures Fares(results, results, b, token, Kept)
  {
  }

  lemma MarkTwice(results: R.Rows, b: R.Binding, token: nat)
    ensures R.MarkStep(R.MarkStep(results, b, token), b, token) == R.MarkStep(results, b, token)
  {
  }

  // ---- A failure before the stream ----

  /** An answer, an exception or a missing body with a status of 499 or from 500 on leaves the
      outcome unknown: the provider may have done the work. Any other failure is known not to
      have cost anything. */
  predicate MayHaveWorked(response: Response) {
    response.NoBody? || (!response.Body? && (response.status == 499 || response.status >= 500))
  }

  /** The charge was written: at the first try, or as unknown at the second, which follows an
      answer but not an exception. */
  predicate Written(response: Response, luck: Luck) { luck.charge || (!response.Thrown? && luck.chargeAgain) }

  /** The stored operation was written too: after the charge, except that a missing body marks
      it first. */
  predicate Noted(response: Response, luck: Luck) {
    if response.NoBody? then luck.result || (luck.chargeAgain && luck.resultAgain)
    else Written(response, luck) && luck.result
  }

  /** How the failure leaves the two rows: nothing written, or both told the same. */
  ghost predicate Fails(s: System, t: System, f: Flight, unknown: bool, written: bool, noted: bool) {
    && t.ledger == (if written
                    then L.FinalizeStep(s.ledger, KeyOf(f).operation, f.fence, if unknown then L.Unknown else L.Release)
                    else s.ledger)
    && t.results == (if !noted then s.results
                     else if unknown then R.MarkStep(s.results, f.binding, f.token)
                     else R.ReleaseStep(s.results, f.binding, f.token))
  }

  lemma AnswerFails(s: System, r: Request, response: Response, luck: Luck)
    requires r in s.flights && s.flights[r].phase.Waiting? && (response.NotOk? || response.Thrown?)
    requires var f := s.flights[r];
             && L.FinalizeReply(s.ledger, f.binding.key.operation, f.fence, L.Release).Receipt?
             && L.FinalizeReply(s.ledger, f.binding.key.operation, f.fence, L.Unknown).Receipt?
    ensures var f, t := s.flights[r], RespondStep(s, r, response, luck);
            && t.flights == s.flights - {r} && t.dispatched == s.dispatched
            && Fails(s, t, f, MayHaveWorked(response) || !luck.charge, Written(response, luck), Noted(response, luck))
  {
    hide L.FinalizeStep, L.FinalizeReply, R.MarkStep, R.ReleaseStep;
  }

  lemma NoBodyFails(s: System, r: Request, luck: Luck)
    requires r in s.flights && s.flights[r].phase.Waiting?
    requires var f := s.flights[r];
             var unknown := L.FinalizeStep(s.ledger, f.binding.key.operation, f.fence, L.Unknown);
             && L.FinalizeReply(s.ledger, f.binding.key.operation, f.fence, L.Unknown).Receipt?
             && L.FinalizeReply(unknown, f.binding.key.operation, f.fence, L.Unknown).Receipt?
             && L.FinalizeStep(unknown, f.binding.key.operation, f.fence, L.Unknown) == unknown
             && R.MarkStep(R.MarkStep(s.results, f.binding, f.token), f.binding, f.token)
                == R.MarkStep(s.results, f.binding, f.token)
    ensures var f, t := s.flights[r], RespondStep(s, r, NoBody, luck);
            && t.flights == s.flights - {r} && t.dispatched == s.dispatched
            && Fails(s, t, f, true, Written(NoBody, luck), Noted(NoBody, luck))
  {
    hide L.FinalizeStep, L.FinalizeReply, R.MarkStep, R.ReleaseStep;
  }

  lemma FailsExactly(s: System, t: System, f: Flight, unknown: bool, written: bool, noted: bool)
    requires Fails(s, t, f, unknown, written, noted)
    requires UsageBounds.Fenced(s.ledger) && KeyOf(f) in s.ledger.rows && s.ledger.rows[KeyOf(f)].fence == f.fence
    requires s.ledger.rows[KeyOf(f)].state == L.Reserved
    ensures if written then Closed(s.ledger, t.ledger, KeyOf(f), if unknown then L.OutcomeUnknown else L.Released)
            else t.ledger == s.ledger
    ensures Fares(s.results, t.results, f.binding, f.token,
                  if !noted then Kept else if unknown then Unknown else Dropped)
  {
    hide Closed, Fares, UsageBounds.Fenced, L.FinalizeStep, L.FinalizeReply, R.MarkStep, R.ReleaseStep;
    RowFares(s.results, f.binding, f.token);
    ChargeCloses(s.ledger, KeyOf(f), f.fence, if unknown then L.Unknown else L.Release);
  }

  lemma FailureExactly(policy: L.Policy, events: seq<Event>, r: Request, response: Response, luck: Luck)
    requires var s := Run(policy, events); r in s.flights && s.flights[r].phase.Waiting? && !response.Body?
    ensures var s := Run(policy, events); var f, t := s.flights[r], Step(policy, s, Respond(r, response, luck));
            var unknown := MayHaveWorked(response) || !luck.charge;
            && t.flights == s.flights - {r} && t.dispatched == s.dispatched
            && (if Written(response, luck)
                then Closed(s.ledger, t.ledger, KeyOf(f), if unknown then L.OutcomeUnknown else L.Released)
                else t.ledger == s.ledger)
            && Fares(s.results, t.results, f.binding, f.token,
                     if !Noted(response, luck) then Kept else if unknown then Unknown else Dropped)
  {
    var s := Run(policy, events);
    ManagedTextTheorems.RunKeepsInv(policy, events);
    hide Run, RespondStep, Fails, Inv, Closed, Fares, UsageBounds.Fenced;
    hide L.FinalizeStep, L.FinalizeReply, R.MarkStep, Written, Noted, MayHaveWorked;
    var f, t := s.flights[r], RespondStep(s, r, response, luck);
    OwnRow(s, r);
    ChargeCloses(s.ledger, KeyOf(f), f.fence, L.Release);
    ChargeCloses(s.ledger, KeyOf(f), f.fence, L.Unknown);
    MarkTwice(s.results, f.binding, f.token);
    if response.NoBody? { NoBodyFails(s, r, luck); } else { AnswerFails(s, r, response, luck); }
    NoBodyMayHave(response);
    FailsExactly(s, t, f, MayHaveWorked(response) || !luck.charge, Written(response, luck), Noted(response, luck));
  }

  lemma NoBodyMayHave(response: Response)
    ensures response.NoBody? ==> MayHaveWorked(response)
  {
  }

  // ---- The end of a stream ----

  /** The stream's outcome becomes unknown, as far as the calls work, if it `ends`; its flags
      are these now, and nothing else has changed. */
  ghost predicate Ends(s: System, t: System, r: Request, ends: bool, reading: bool, charge: bool, result: bool) {
    && r in s.flights && s.flights[r].phase.Streaming?
    && var f := s.flights[r];
       && t.flights == s.flights[r := f.(phase := Streaming(reading, f.phase.stored, f.phase.terminal || ends))]
       && t.dispatched == s.dispatched
       && (if ends && charge then Closed(s.ledger, t.ledger, KeyOf(f), L.OutcomeUnknown) else t.ledger == s.ledger)
       && Fares(s.results, t.results, f.binding, f.token, if ends && result then Unknown else Kept)
  }

  predicate Undecided(f: Flight) { f.phase.Streaming? && !f.phase.terminal && !f.phase.stored }

  lemma MarkedExactly(s: System, r: Request, luck: Luck)
    requires r in s.flights && s.flights[r].phase.Streaming?
    requires var f := s.flights[r];
             && UsageBounds.Fenced(s.ledger) && KeyOf(f) in s.ledger.rows && s.ledger.rows[KeyOf(f)].fence == f.fence
             && (Undecided(f) ==> s.ledger.rows[KeyOf(f)].state == L.Reserved)
    ensures var f := s.flights[r];
            Ends(s, MarkUnknown(s, r, luck), r, Undecided(f), f.phase.reading, luck.charge, luck.result)
  {
    hide Closed, Fares, UsageBounds.Fenced, L.FinalizeStep, L.FinalizeReply, R.MarkStep;
    var f := s.flights[r];
    assert s.flights[r := f] == s.flights;
    RowFares(s.results, f.binding, f.token);
    if Undecided(f) { ChargeCloses(s.ledger, KeyOf(f), f.fence, L.Unknown); }
  }

  lemma StoppedExactly(s: System, r: Request, luck: Luck)
    requires r in s.flights && s.flights[r].phase.Streaming?
    requires var f := s.flights[r];
             && UsageBounds.Fenced(s.ledger) && KeyOf(f) in s.ledger.rows && s.ledger.rows[KeyOf(f)].fence == f.fence
             && (Undecided(f) ==> s.ledger.rows[KeyOf(f)].state == L.Reserved)
    ensures Ends(s, MarkUnknown(StopReading(s, r), r, luck), r, Undecided(s.flights[r]), false,
                 luck.charge, luck.result)
  {
    hide Closed, Fares, UsageBounds.Fenced, MarkUnknown;
    MarkedExactly(StopReading(s, r), r, luck);
  }

  /** A cancelled or failed stream is unknown, once, unless its result was stored before. */
  lemma InterruptExactly(policy: L.Policy, events: seq<Event>, r: Request, failed: bool, luck: Luck)
    requires var s := Run(policy, events); r in s.flights && s.flights[r].phase.Streaming?
    ensures var s := Run(policy, events); var f := s.flights[r];
            Ends(s, Step(policy, s, Interrupt(r, failed, luck)), r, Undecided(f) && (failed ==> f.phase.reading),
                 f.phase.reading && !failed, luck.charge, luck.result)
  {
    var s := Run(policy, events);
    ManagedTextTheorems.RunKeepsInv(policy, events);
    OwnRow(s, r);
    hide Run, Inv, MarkUnknown, Ends, UsageBounds.Fenced, StopReading;
    StoppedExactly(s, r, luck);
    MarkedExactly(s, r, luck);
    NothingEnds(s, r, luck);
  }

  lemma NothingEnds(s: System, r: Request, luck: Luck)
    requires r in s.flights && s.flights[r].phase.Streaming?
    ensures Ends(s, s, r, false, s.flights[r].phase.reading, luck.charge, luck.result)
  {
    assert s.flights[r := s.flights[r]] == s.flights;
  }

  // ---- A result ----

  /** The store has room for the text, and the operation is still reserved for it. */
  predicate MayStore(results: R.Rows, f: Flight, bytes: nat) {
    ReservedBy(results, f.binding, f.token) && 2 <= bytes <= RO.Longest(f.binding.capability)
  }

  /** The text is stored, and answered at any time. */
  ghost predicate Answered(early: R.Rows, late: R.Rows, b: R.Binding, payload: R.Payload) {
    && (forall k :: k != b.key ==> (k in late <==> k in early) && (k in late ==> late[k] == early[k]))
    && b.key in late && R.Unacknowledged(late[b.key])
    && (forall now: nat :: R.LookupReply(late, b, now) == R.Replay(payload))
  }

  /** The charge is settled at what the text cost if it was still open. */
  ghost predicate Paid(a: L.Ledger, b: L.Ledger, k: L.Key, actual: L.Amount) {
    && k in a.rows
    && if a.rows[k].state != L.Reserved || !actual.Valid() then b == a
       else
         && C.OtherRowsKept(a.rows, b.rows, k) && b.next == a.next
         && b.rows[k].SameReservation(a.rows[k]) && b.rows[k].state == L.Settled && b.rows[k].actual == actual
  }

  /** The end of a stream stores its result if the store takes it and the operation is still
      reserved for it, whether or not the stream was cancelled, and then settles its charge if
      that is open; otherwise the outcome is unknown. */
  lemma FinishExactly(policy: L.Policy, events: seq<Event>, e: Event)
    requires e.Finish?
    requires var s := Run(policy, events);
             && e.request in s.flights && s.flights[e.request].phase.Streaming? && s.flights[e.request].phase.reading
    ensures var s := Run(policy, events); var f, t := s.flights[e.request], Step(policy, s, e);
            if e.luck.result && MayStore(s.results, f, e.bytes) then
              && Answered(s.results, t.results, f.binding, R.Payload(e.text, e.bytes, true, e.actual, e.readable))
              && (if e.luck.charge then Paid(s.ledger, t.ledger, KeyOf(f), e.actual) else t.ledger == s.ledger)
              && (var paid := e.luck.charge && (s.ledger.rows[KeyOf(f)].state == L.Reserved ==> e.actual.Valid());
                  t.flights == s.flights[e.request := f.(phase := Streaming(false, true, f.phase.terminal || paid))])
            else Ends(s, t, e.request, Undecided(f), false, e.luck.chargeAgain, e.luck.resultAgain)
  {
    var s := Run(policy, events);
    ManagedTextTheorems.RunKeepsInv(policy, events);
    OwnRow(s, e.request);
    NothingStoredBy(s, e.request);
    hide Run, Inv, Ends, UsageBounds.Fenced, FinishStep, Answered, Paid;
    StoresExactly(s, e);
    if Stores(s, e) { StoredExactly(s, e); } else { UnstoredExactly(s, e); }
  }

  lemma StoresExactly(s: System, e: Event)
    requires e.Finish? && e.request in s.flights && s.flights[e.request].phase.Streaming?
    requires s.flights[e.request].phase.reading && !Succeeded(s.results, s.flights[e.request].binding.key)
    ensures Stores(s, e) <==> e.luck.result && MayStore(s.results, s.flights[e.request], e.bytes)
  {
  }

  lemma UnstoredExactly(s: System, e: Event)
    requires e.Finish? && e.request in s.flights && s.flights[e.request].phase.Streaming?
    requires s.flights[e.request].phase.reading && !Stores(s, e)
    requires var f := s.flights[e.request];
             && UsageBounds.Fenced(s.ledger) && KeyOf(f) in s.ledger.rows && s.ledger.rows[KeyOf(f)].fence == f.fence
             && (Undecided(f) ==> s.ledger.rows[KeyOf(f)].state == L.Reserved)
    ensures Ends(s, FinishStep(s, e), e.request, Undecided(s.flights[e.request]), false,
                 e.luck.chargeAgain, e.luck.resultAgain)
  {
    hide Ends, UsageBounds.Fenced, MarkUnknown, StopReading, Stores;
    StoppedExactly(s, e.request, Luck(e.luck.resultAgain, e.luck.chargeAgain, false, false));
  }

  lemma StoredExactly(s: System, e: Event)
    requires Stores(s, e) && !Succeeded(s.results, s.flights[e.request].binding.key)
    requires var f := s.flights[e.request];
             UsageBounds.Fenced(s.ledger) && KeyOf(f) in s.ledger.rows && s.ledger.rows[KeyOf(f)].fence == f.fence
    ensures var f, t := s.flights[e.request], FinishStep(s, e);
            && Answered(s.results, t.results, f.binding, R.Payload(e.text, e.bytes, true, e.actual, e.readable))
            && (if e.luck.charge then Paid(s.ledger, t.ledger, KeyOf(f), e.actual) else t.ledger == s.ledger)
            && (var paid := e.luck.charge && (s.ledger.rows[KeyOf(f)].state == L.Reserved ==> e.actual.Valid());
                t.flights == s.flights[e.request := f.(phase := Streaming(false, true, f.phase.terminal || paid))])
  {
    var f := s.flights[e.request];
    CompletedExactly(s.results, f.binding, f.token, PayloadOf(e), e.now);
    hide L.Spent, L.FinalizeStep, L.FinalizeReply, UsageBounds.Fenced, R.CompleteStep, R.CompleteReply, Answered;
    C.FinalizeExactly(s.ledger, KeyOf(f), f.fence, L.Settle(e.actual, 0, true));
  }

  lemma CompletedExactly(results: R.Rows, b: R.Binding, token: nat, payload: R.Payload, now: nat)
    requires R.CompleteReply(results, b, token, payload) == R.Ok && !Succeeded(results, b.key)
    ensures Answered(results, R.CompleteStep(results, b, token, payload, true, now, {}), b, payload)
  {
  }

  // ---- Arrival ----

  /** The ledger claims the operation for this request and nobody before it. */
  ghost predicate Claims(policy: L.Policy, s: System, e: Event)
    requires e.Arrive?
  {
    var reply := L.ReserveReply(policy, s.ledger, InputOf(e), e.day);
    e.reserves && reply.Receipt? && !reply.duplicate
  }

  function InputOf(e: Event): L.Input
    requires e.Arrive?
  {
    L.Input(L.Key(e.key.principal, e.key.operation), e.key.installation, L.TextReasoning,
            e.account, e.fingerprint, e.amount, e.claimFormed)
  }

  function BindingOf(e: Event): R.Binding
    requires e.Arrive?
  {
    R.Binding(e.key, R.TextReasoning, e.fingerprint, e.keyFormed)
  }

  /** The ledger knows the operation and the stored text can be read. */
  ghost predicate Knows(policy: L.Policy, s: System, e: Event, payload: R.Payload)
    requires e.Arrive?
  {
    e.reserves && L.ReserveReply(policy, s.ledger, InputOf(e), e.day).Receipt? && payload.readable
  }

  /** The provider is asked exactly for an operation that the store starts and the ledger
      claims, and then for the first time; one that only starts may be started again; a stored
      result is paid for at the amount that it records; any other request asks, charges and
      stores nothing. */
  ghost predicate Arrives(policy: L.Policy, s: System, t: System, e: Event)
    requires e.Arrive?
  {
    var b, k := BindingOf(e), InputOf(e).key;
    var begun := R.BeginStep(s.results, b, e.now, e.token, true);
    match R.BeginReply(s.results, b, e.now, e.token, true)
    case Started(_) =>
      if Claims(policy, s, e) then
        && k !in s.dispatched && t.dispatched == s.dispatched[k := 1]
        && t.flights == s.flights[e.request := Flight(b, e.token, s.ledger.next, Waiting)]
        && t.ledger == L.ReserveStep(policy, s.ledger, InputOf(e), e.day) && t.results == begun
      else t == s.(results := t.results) && Fares(begun, t.results, b, e.token, if e.luck.result then Dropped else Kept)
    case Replay(payload) =>
      && t == s.(ledger := t.ledger)
      && if e.luck.charge && Knows(policy, s, e, payload) then Paid(s.ledger, t.ledger, k, payload.actual)
         else t.ledger == s.ledger
    case _ => t == s.(results := begun)
  }

  lemma ArriveExactly(policy: L.Policy, events: seq<Event>, e: Event)
    requires e.Arrive? && e.begins && e.request !in Run(policy, events).flights
    ensures var s := Run(policy, events); Arrives(policy, s, Step(policy, s, e), e)
  {
    var s := Run(policy, events);
    ManagedTextTheorems.RunKeepsInv(policy, events);
    hide Run, Inv, Admit, SettleReplay, R.BeginStep, R.BeginReply, Arrives;
    if Started(s, e).Started? {
      StartsExactly(policy, s, e);
    } else if Started(s, e).Replay? {
      ReplaysExactly(policy, s, e);
    } else {
      OthersArrive(policy, s, e);
    }
  }

  lemma OthersArrive(policy: L.Policy, s: System, e: Event)
    requires e.Arrive? && !Started(s, e).Started? && !Started(s, e).Replay?
    ensures Arrives(policy, s, s.(results := R.BeginStep(s.results, TextBinding(e), e.now, e.token, true)), e)
  {
    hide R.BeginStep, R.BeginReply;
  }

  lemma StartsExactly(policy: L.Policy, s: System, e: Event)
    requires Inv(s) && e.Arrive? && e.begins && e.request !in s.flights && Started(s, e).Started?
    ensures Arrives(policy, s, ArriveStep(policy, s, e), e)
  {
    hide Arrives, Inv, Admit, R.BeginStep, R.BeginReply, L.ReserveReply, L.ReserveStep;
    var begun := s.(results := R.BeginStep(s.results, TextBinding(e), e.now, e.token, true));
    TokenDrawn(s, e);
    if Admits(policy, begun, e) {
      FirstDispatch(policy, s, e);
      AdmittedExactly(policy, s, e);
    } else {
      DroppedExactly(policy, s, e);
    }
  }

  lemma AdmittedExactly(policy: L.Policy, s: System, e: Event)
    requires e.Arrive? && ChargeKey(e.key) !in s.dispatched && Started(s, e).Started?
    requires var begun := s.(results := R.BeginStep(s.results, TextBinding(e), e.now, e.token, true));
             Admits(policy, begun, e)
    ensures var begun := s.(results := R.BeginStep(s.results, TextBinding(e), e.now, e.token, true));
            Arrives(policy, s, Admit(policy, begun, e, e.token), e)
  {
    hide Fares, R.BeginStep, R.BeginReply, L.ReserveReply, L.ReserveStep;
    TokenDrawn(s, e);
  }

  lemma DroppedExactly(policy: L.Policy, s: System, e: Event)
    requires e.Arrive? && Started(s, e).Started?
    requires var begun := s.(results := R.BeginStep(s.results, TextBinding(e), e.now, e.token, true));
             !Admits(policy, begun, e)
    ensures var begun := s.(results := R.BeginStep(s.results, TextBinding(e), e.now, e.token, true));
            Arrives(policy, s, Admit(policy, begun, e, e.token), e)
  {
    hide Fares, R.BeginStep, R.BeginReply, R.ReleaseStep, L.ReserveReply, L.ReserveStep;
    RowFares(R.BeginStep(s.results, TextBinding(e), e.now, e.token, true), TextBinding(e), e.token);
  }

  lemma TokenDrawn(s: System, e: Event)
    requires e.Arrive? && Started(s, e).Started?
    ensures Started(s, e).token == e.token
  {
  }

  lemma FirstDispatch(policy: L.Policy, s: System, e: Event)
    requires Inv(s) && e.Arrive? && Admits(policy, s, e)
    ensures ChargeKey(e.key) !in s.dispatched
  {
    AdmitIs(policy, s, e);
  }

  lemma ReplaysExactly(policy: L.Policy, s: System, e: Event)
    requires Inv(s) && e.Arrive? && e.begins && e.request !in s.flights && Started(s, e).Replay?
    ensures Arrives(policy, s, ArriveStep(policy, s, e), e)
  {
    BegunResult(s, e);
    ClaimedAgain(policy, s, e);
    InvFenced(s);
    hide Inv, R.BeginStep, R.BeginReply, L.ReserveReply, L.ReserveStep, UsageBounds.Fenced;
    hide L.Spent, L.FinalizeStep, L.FinalizeReply;
    var payload := Started(s, e).payload;
    if Readable(policy, s, e, payload) {
      var fence := Reserved(policy, s, e).row.fence;
      C.FinalizeExactly(s.ledger, ChargeKey(e.key), fence, L.Settle(payload.actual, 0, true));
    }
  }

  lemma InvFenced(s: System)
    requires Inv(s)
    ensures UsageBounds.Fenced(s.ledger)
  {
  }
}
