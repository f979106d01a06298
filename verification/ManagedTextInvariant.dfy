/** What every step of the managed text protocol keeps. */
module ManagedTextInvariant {
  import L = UsageLedger
  import R = ResultStore
  import UsageBounds
  import opened ManagedText

  type Flights = map<Request, Flight>

  function KeyOf(f: Flight): L.Key { ChargeKey(f.binding.key) }

  predicate Succeeded(results: R.Rows, k: R.Key) { k in results && results[k].state == R.Succeeded }

  /** Every request in flight has a row of its own in the ledger. */
  ghost predicate OwnCharges(flights: Flights, rows: L.Rows) {
    && (forall r :: r in flights ==> KeyOf(flights[r]) in rows && rows[KeyOf(flights[r])].fence == flights[r].fence)
    && (forall r, q :: r in flights && q in flights && KeyOf(flights[r]) == KeyOf(flights[q]) ==> r == q)
  }

  /** An operation of a principal is dispatched at most once, and then it is in the ledger. */
  ghost predicate DispatchedOnce(dispatched: map<L.Key, nat>, rows: L.Rows) {
    forall k :: k in dispatched ==> dispatched[k] == 1 && k in rows
  }

  /** While the provider may still answer, the charge is open. */
  ghost predicate OpenCharge(f: Flight, charge: L.UsageState) {
    match f.phase
    case Waiting => charge == L.Reserved
    case Streaming(reading, stored, terminal) =>
      && !(reading && stored)
      && (!stored ==> charge == L.Reserved || (charge == L.OutcomeUnknown && terminal))
  }

  ghost predicate OpenCharges(flights: Flights, rows: L.Rows) {
    forall r :: r in flights ==> KeyOf(flights[r]) in rows && OpenCharge(flights[r], rows[KeyOf(flights[r])].state)
  }

  /** A stored result belongs to one row of the ledger, and the request that stored it is
      the only one in flight for that row. */
  ghost predicate OwnResults(results: R.Rows, flights: Flights, rows: L.Rows) {
    && (forall k :: Succeeded(results, k) ==> ChargeKey(k) in rows)
    && (forall k, j :: Succeeded(results, k) && Succeeded(results, j) && ChargeKey(k) == ChargeKey(j) ==> k == j)
    && (forall k, r :: Succeeded(results, k) && r in flights && KeyOf(flights[r]) == ChargeKey(k) ==>
          flights[r].phase.Streaming? && flights[r].phase.stored)
  }

  ghost predicate Inv(s: System) {
    && UsageBounds.Fenced(s.ledger)
    && OwnCharges(s.flights, s.ledger.rows)
    && DispatchedOnce(s.dispatched, s.ledger.rows)
    && OpenCharges(s.flights, s.ledger.rows)
    && OwnResults(s.results, s.flights, s.ledger.rows)
  }

  /** Result and charge agree: a stored result is still reserved in the ledger, or settled
      with the amount that the result records. */
  ghost predicate Agree(results: R.Rows, rows: L.Rows) {
    forall k :: Succeeded(results, k) ==>
      && ChargeKey(k) in rows && results[k].payload.Some?
      && (rows[ChargeKey(k)].state == L.Reserved
          || (rows[ChargeKey(k)].state == L.Settled && rows[ChargeKey(k)].actual == results[k].payload.value.actual))
  }

  // ---- What the calls of the stores do ----

  function Outcome(row: L.Row, final: L.Final, works: bool): L.Row {
    if works && L.Finalized(row, final).Receipt? then L.Finalized(row, final).row else row
  }

  lemma ChargeIs(s: System, f: Flight, final: L.Final, works: bool)
    requires UsageBounds.Fenced(s.ledger) && KeyOf(f) in s.ledger.rows && s.ledger.rows[KeyOf(f)].fence == f.fence
    ensures var row := s.ledger.rows[KeyOf(f)];
            && Charge(s, f, final, works) ==
               s.(ledger := s.ledger.(rows := s.ledger.rows[KeyOf(f) := Outcome(row, final, works)]))
            && UsageBounds.Fenced(Charge(s, f, final, works).ledger)
            && (Charges(s, f, final, works) <==> works && L.Finalized(row, final).Receipt?)
            && Outcome(row, final, works).fence == row.fence
            && (final.Settle? || row.state == L.Settled || Outcome(row, final, works).state != L.Settled)
            && (row.state == L.Settled ==> Outcome(row, final, works) == row)
  {
    UsageBounds.FinalizeAnswers(s.ledger, KeyOf(f), f.fence, final);
    assert s.ledger.rows[KeyOf(f) := s.ledger.rows[KeyOf(f)]] == s.ledger.rows;
  }

  /** No result of `late` is new. */
  ghost predicate NoNewResult(early: R.Rows, late: R.Rows) {
    forall k :: Succeeded(late, k) ==> Succeeded(early, k) && late[k].payload == early[k].payload
  }

  /** Nothing is settled in `late` that was not settled alike in `early`. */
  ghost predicate SettlesNothing(early: L.Rows, late: L.Rows) {
    forall k :: k in late && late[k].state == L.Settled ==> k in early && early[k] == late[k]
  }

  /** The results that no consumer has confirmed stay as they are. */
  ghost predicate HoldsResults(early: R.Rows, late: R.Rows) {
    forall k :: k in early && R.Unacknowledged(early[k]) ==> k in late && late[k] == early[k]
  }

  /** All that is newly settled is the row `k`, with this amount. */
  ghost predicate Settles(early: L.Rows, late: L.Rows, k: L.Key, actual: L.Amount) {
    forall j :: j in late && late[j].state == L.Settled ==>
          (j in early && early[j] == late[j]) || (j == k && late[j].actual == actual)
  }

  lemma BeginAddsNoResult(rows: R.Rows, b: R.Binding, now: nat, token: nat)
    ensures NoNewResult(rows, R.BeginStep(rows, b, now, token, true))
    ensures HoldsResults(rows, R.BeginStep(rows, b, now, token, true))
  {
    hide R.IsBacklogFull;
  }

  lemma OthersAddNoResult(rows: R.Rows, b: R.Binding, token: nat)
    ensures NoNewResult(rows, R.MarkStep(rows, b, token)) && HoldsResults(rows, R.MarkStep(rows, b, token))
    ensures NoNewResult(rows, R.ReleaseStep(rows, b, token)) && HoldsResults(rows, R.ReleaseStep(rows, b, token))
    ensures NoNewResult(rows, R.Restart(rows)) && HoldsResults(rows, R.Restart(rows))
  {
  }

  /** Confirming a result touches that result and what is cached already. */
  lemma AckAddsNoResult(rows: R.Rows, b: R.Binding, now: nat, stale: set<R.Key>)
    ensures NoNewResult(rows, R.AckStep(rows, b, now, stale))
    ensures HoldsResults(rows - {b.key}, R.AckStep(rows, b, now, stale))
  {
  }

  // ---- Changes of one part ----

  lemma FewerResults(early: R.Rows, late: R.Rows, flights: Flights, rows: L.Rows)
    requires NoNewResult(early, late) && OwnResults(early, flights, rows)
    ensures OwnResults(late, flights, rows)
    ensures Agree(early, rows) ==> Agree(late, rows)
  {
  }

  lemma FewerFlights(s: System, flights: Flights)
    requires Inv(s) && forall r :: r in flights ==> r in s.flights && flights[r] == s.flights[r]
    ensures Inv(s.(flights := flights))
  {
  }

  /** No stored result belongs to a request that has stored nothing. */
  lemma NothingStored(s: System, r: Request, k: R.Key)
    requires Inv(s) && r in s.flights && (s.flights[r].phase.Streaming? ==> !s.flights[r].phase.stored)
    requires ChargeKey(k) == KeyOf(s.flights[r])
    ensures !Succeeded(s.results, k)
  {
  }

  /** A row of the ledger that no stored result and no other request depends on may get any
      outcome. */
  lemma RechargeFree(s: System, k: L.Key, row: L.Row, flights: Flights)
    requires OwnCharges(flights, s.ledger.rows) && DispatchedOnce(s.dispatched, s.ledger.rows)
    requires OpenCharges(flights, s.ledger.rows) && OwnResults(s.results, flights, s.ledger.rows)
    requires k in s.ledger.rows && row.fence == s.ledger.rows[k].fence
    requires forall r :: r in flights && KeyOf(flights[r]) == k ==> OpenCharge(flights[r], row.state)
    ensures var rows := s.ledger.rows[k := row];
            && OwnCharges(flights, rows) && DispatchedOnce(s.dispatched, rows)
            && OpenCharges(flights, rows) && OwnResults(s.results, flights, rows)
    ensures (Agree(s.results, s.ledger.rows) && (forall j :: Succeeded(s.results, j) ==> ChargeKey(j) != k)) ==>
              Agree(s.results, s.ledger.rows[k := row])
  {
  }

  // ---- A request that has left the table of flights ----

  /** Nothing but `f` depends on the row of the ledger that `f` opened. */
  ghost predicate Loose(s: System, f: Flight) {
    && KeyOf(f) in s.ledger.rows && s.ledger.rows[KeyOf(f)].fence == f.fence
    && (forall q :: q in s.flights ==> KeyOf(s.flights[q]) != KeyOf(f))
    && (forall j :: Succeeded(s.results, j) ==> ChargeKey(j) != KeyOf(f))
  }

  /** `t` keeps the invariant, and agreement if there was agreement; nothing is settled, and
      no unconfirmed result is touched. */
  ghost predicate Keeps(s: System, t: System) {
    && Inv(t)
    && (Agree(s.results, s.ledger.rows) ==> Agree(t.results, t.ledger.rows))
    && SettlesNothing(s.ledger.rows, t.ledger.rows)
    && HoldsResults(s.results, t.results)
  }

  /** The same, when one row of the ledger may be settled. */
  ghost predicate KeepsSettling(s: System, t: System, k: L.Key, actual: L.Amount) {
    && Inv(t)
    && (Agree(s.results, s.ledger.rows) ==> Agree(t.results, t.ledger.rows))
    && Settles(s.ledger.rows, t.ledger.rows, k, actual)
    && HoldsResults(s.results, t.results)
  }

  lemma LooseCharge(s: System, f: Flight, final: L.Final, works: bool)
    requires Inv(s) && Loose(s, f) && !final.Settle?
    ensures Keeps(s, Charge(s, f, final, works)) && Loose(Charge(s, f, final, works), f)
  {
    hide OwnCharges, OpenCharges, OwnResults, DispatchedOnce, Agree, UsageBounds.Fenced, Outcome;
    ChargeIs(s, f, final, works);
    RechargeFree(s, KeyOf(f), Outcome(s.ledger.rows[KeyOf(f)], final, works), s.flights);
  }

  lemma ResultsKeep(s: System, results: R.Rows)
    requires Inv(s) && NoNewResult(s.results, results) && HoldsResults(s.results, results)
    ensures Keeps(s, s.(results := results))
  {
    hide OwnCharges, OpenCharges, OwnResults, DispatchedOnce, Agree, UsageBounds.Fenced;
    FewerResults(s.results, results, s.flights, s.ledger.rows);
  }

  lemma LooseResults(s: System, f: Flight, works: bool)
    requires Inv(s) && Loose(s, f)
    ensures Keeps(s, Mark(s, f, works)) && Loose(Mark(s, f, works), f)
    ensures Keeps(s, Drop(s, f, works)) && Loose(Drop(s, f, works), f)
  {
    hide Inv, Agree, R.MarkStep, R.ReleaseStep;
    OthersAddNoResult(s.results, f.binding, f.token);
    ResultsKeep(s, R.MarkStep(s.results, f.binding, f.token));
    ResultsKeep(s, R.ReleaseStep(s.results, f.binding, f.token));
  }

  lemma FailKeeps(s: System, f: Flight, status: nat, charge: bool, result: bool)
    requires Inv(s) && Loose(s, f)
    ensures Keeps(s, Fail(s, f, status, charge, result))
  {
    hide Inv, Loose, Agree, Charge, Charges, Mark, Drop;
    var final := if Severe(status) then L.Unknown else L.Release;
    LooseCharge(s, f, final, true);
    LooseResults(Charge(s, f, final, true), f, result);
  }

  lemma LetGo(s: System, r: Request)
    requires Inv(s) && r in s.flights && s.flights[r].phase.Waiting?
    ensures var over := s.(flights := s.flights - {r});
            Inv(over) && Loose(over, s.flights[r])
  {
    FewerFlights(s, s.flights - {r});
    forall j | Succeeded(s.results, j) ensures ChargeKey(j) != KeyOf(s.flights[r]) {
      if ChargeKey(j) == KeyOf(s.flights[r]) { NothingStored(s, r, j); }
    }
  }

  /** A request in flight may move to any phase that its charge allows. */
  lemma MoveKeeps(s: System, r: Request, phase: Phase)
    requires Inv(s) && r in s.flights
    requires OpenCharge(s.flights[r].(phase := phase), s.ledger.rows[KeyOf(s.flights[r])].state)
    requires s.flights[r].phase.Streaming? ==> phase.Streaming? && phase.stored == s.flights[r].phase.stored
    ensures Keeps(s, s.(flights := s.flights[r := s.flights[r].(phase := phase)]))
  {
    hide Agree, DispatchedOnce, UsageBounds.Fenced;
  }

  lemma RespondKeeps(s: System, r: Request, response: Response, luck: Luck)
    requires Inv(s)
    ensures Keeps(s, RespondStep(s, r, response, luck))
  {
    hide Inv, Loose, Agree, Fail;
    if r in s.flights && s.flights[r].phase.Waiting? {
      var f := s.flights[r];
      var over := s.(flights := s.flights - {r});
      LetGo(s, r);
      match response
      case Body => BodyKeeps(s, r);
      case Thrown(status) => FailKeeps(over, f, status, luck.charge, luck.result);
      case NotOk(status) =>
        FailKeeps(over, f, status, true, luck.result);
        FailKeeps(over, f, 500, luck.chargeAgain, luck.result);
      case NoBody => NoBodyKeeps(over, f, luck);
    }
  }

  lemma BodyKeeps(s: System, r: Request)
    requires Inv(s) && r in s.flights && s.flights[r].phase.Waiting?
    ensures Keeps(s, s.(flights := s.flights[r := s.flights[r].(phase := Streaming(true, false, false))]))
  {
    hide Keeps;
    MoveKeeps(s, r, Streaming(true, false, false));
  }

  lemma NoBodyKeeps(s: System, f: Flight, luck: Luck)
    requires Inv(s) && Loose(s, f)
    ensures var charged := Charge(Mark(s, f, luck.result), f, L.Unknown, luck.charge);
            Keeps(s, Fail(charged, f, 502, luck.chargeAgain, luck.resultAgain))
  {
    hide Inv, Loose, Agree, Charge, Mark, Fail;
    LooseResults(s, f, luck.result);
    LooseCharge(Mark(s, f, luck.result), f, L.Unknown, luck.charge);
    FailKeeps(Charge(Mark(s, f, luck.result), f, L.Unknown, luck.charge), f, 502, luck.chargeAgain, luck.resultAgain);
  }

  // ---- The stream ----

  lemma MarkUnknownKeeps(s: System, r: Request, luck: Luck)
    requires Inv(s) && r in s.flights && s.flights[r].phase.Streaming?
    ensures Keeps(s, MarkUnknown(s, r, luck))
  {
    var f := s.flights[r];
    if !f.phase.terminal && !f.phase.stored {
      var ended := s.(flights := s.flights[r := f.(phase := f.phase.(terminal := true))]);
      MoveKeeps(s, r, f.phase.(terminal := true));
      var marked := Mark(ended, f, luck.result);
      OthersAddNoResult(ended.results, f.binding, f.token);
      ResultsKeep(ended, marked.results);
      ChargeUnknownKeeps(marked, r, luck.charge);
      assert Charge(marked, f, L.Unknown, luck.charge) == Charge(marked, marked.flights[r], L.Unknown, luck.charge);
    }
  }

  lemma ChargeUnknownKeeps(s: System, r: Request, works: bool)
    requires Inv(s) && r in s.flights && s.flights[r].phase.Streaming?
    requires s.flights[r].phase.terminal && !s.flights[r].phase.stored
    ensures Keeps(s, Charge(s, s.flights[r], L.Unknown, works))
  {
    hide Inv, Agree, UsageBounds.Fenced, Charge, Charges, OpenCharge, Outcome;
    var f := s.flights[r];
    RowOfFlight(s, r);
    NothingStoredFor(s, r);
    var row := s.ledger.rows[KeyOf(f)];
    ChargeIs(s, f, L.Unknown, works);
    UnknownOutcome(row, works);
    StillOpen(s, r, Outcome(row, L.Unknown, works).state);
    RechargeKeeps(s, KeyOf(f), Outcome(row, L.Unknown, works));
  }

  lemma UnknownOutcome(row: L.Row, works: bool)
    ensures Outcome(row, L.Unknown, works).state in {L.OutcomeUnknown, row.state}
  {
  }

  lemma RowOfFlight(s: System, r: Request)
    requires Inv(s) && r in s.flights
    ensures UsageBounds.Fenced(s.ledger) && KeyOf(s.flights[r]) in s.ledger.rows
    ensures s.ledger.rows[KeyOf(s.flights[r])].fence == s.flights[r].fence
  {
  }

  lemma NothingStoredFor(s: System, r: Request)
    requires Inv(s) && r in s.flights && s.flights[r].phase.Streaming? && !s.flights[r].phase.stored
    ensures forall j :: Succeeded(s.results, j) ==> ChargeKey(j) != KeyOf(s.flights[r])
  {
    forall j | Succeeded(s.results, j) ensures ChargeKey(j) != KeyOf(s.flights[r]) {
      if ChargeKey(j) == KeyOf(s.flights[r]) { NothingStored(s, r, j); }
    }
  }

  /** Changing a charge that no stored result belongs to. */
  lemma RechargeKeeps(s: System, k: L.Key, row: L.Row)
    requires Inv(s) && k in s.ledger.rows && row.fence == s.ledger.rows[k].fence
    requires forall r :: r in s.flights && KeyOf(s.flights[r]) == k ==> OpenCharge(s.flights[r], row.state)
    requires forall j :: Succeeded(s.results, j) ==> ChargeKey(j) != k
    requires UsageBounds.Fenced(s.ledger.(rows := s.ledger.rows[k := row]))
    ensures var t := s.(ledger := s.ledger.(rows := s.ledger.rows[k := row]));
            Inv(t) && (Agree(s.results, s.ledger.rows) ==> Agree(t.results, t.ledger.rows))
  {
    hide Agree, OwnCharges, OpenCharges, OwnResults, DispatchedOnce, UsageBounds.Fenced, OpenCharge;
    RechargeFree(s, k, row, s.flights);
  }

  /** A cancelled stream does not mind what its charge becomes. */
  lemma StillOpen(s: System, r: Request, state: L.UsageState)
    requires Inv(s) && r in s.flights && s.flights[r].phase.Streaming?
    requires s.flights[r].phase.terminal && !s.flights[r].phase.stored
    requires state == L.OutcomeUnknown || state == s.ledger.rows[KeyOf(s.flights[r])].state
    ensures forall q :: q in s.flights && KeyOf(s.flights[q]) == KeyOf(s.flights[r]) ==> OpenCharge(s.flights[q], state)
  {
  }

  lemma InterruptKeeps(s: System, r: Request, failed: bool, luck: Luck)
    requires Inv(s)
    ensures Keeps(s, InterruptStep(s, r, failed, luck))
  {
    hide MarkUnknown, Agree, Inv;
    if r in s.flights && s.flights[r].phase.Streaming? {
      MarkUnknownKeeps(s, r, luck);
      StopKeeps(s, r, luck);
    }
  }

  // ---- Storing a result ----

  /** The charge of a request that may still store its result. */
  ghost function ChargeOf(s: System, r: Request): L.UsageState
    requires Inv(s) && r in s.flights
  {
    s.ledger.rows[KeyOf(s.flights[r])].state
  }

  lemma CompleteAdds(s: System, e: Event)
    requires Stores(s, e) && !Succeeded(s.results, s.flights[e.request].binding.key)
    ensures var f := s.flights[e.request];
            && f.binding.key in s.results
            && R.CompleteStep(s.results, f.binding, f.token, PayloadOf(e), true, e.now, {})
               == R.Completed(s.results, f.binding, PayloadOf(e), true, e.now)
  {
  }

  /** The state between storing a result and settling its charge. */
  ghost function AfterStore(s: System, e: Event, terminal: bool): System
    requires e.Finish? && e.request in s.flights && s.flights[e.request].binding.key in s.results
  {
    var f := s.flights[e.request];
    s.(results := R.Completed(s.results, f.binding, PayloadOf(e), true, e.now),
       flights := s.flights[e.request := f.(phase := Streaming(false, true, terminal))])
  }

  lemma AfterStoreInv(s: System, e: Event, terminal: bool)
    requires Inv(s) && Stores(s, e) && s.flights[e.request].binding.key in s.results
    ensures Inv(AfterStore(s, e, terminal))
    ensures ChargeOf(s, e.request) == L.Reserved || ChargeOf(s, e.request) == L.OutcomeUnknown
    ensures Agree(s.results, s.ledger.rows) ==>
              (Agree(AfterStore(s, e, terminal).results, s.ledger.rows) <==> ChargeOf(s, e.request) == L.Reserved)
  {
    hide OwnCharges, OpenCharges, OwnResults, DispatchedOnce, Agree, UsageBounds.Fenced;
    var t := AfterStore(s, e, terminal);
    OthersNotStored(s, e.request);
    AfterStoreFlights(s, e, terminal);
    AfterStoreResults(s, e, terminal);
  }

  lemma OthersNotStored(s: System, r: Request)
    requires Inv(s) && r in s.flights && s.flights[r].phase.Streaming? && s.flights[r].phase.reading
    ensures forall j :: Succeeded(s.results, j) ==> ChargeKey(j) != KeyOf(s.flights[r])
    ensures ChargeOf(s, r) == L.Reserved || ChargeOf(s, r) == L.OutcomeUnknown
    ensures KeyOf(s.flights[r]) in s.ledger.rows
    ensures forall q :: q in s.flights && q != r ==> KeyOf(s.flights[q]) != KeyOf(s.flights[r])
  {
  }

  lemma AfterStoreFlights(s: System, e: Event, terminal: bool)
    requires Stores(s, e) && s.flights[e.request].binding.key in s.results
    requires OwnCharges(s.flights, s.ledger.rows) && OpenCharges(s.flights, s.ledger.rows)
    ensures var t := AfterStore(s, e, terminal);
            OwnCharges(t.flights, s.ledger.rows) && OpenCharges(t.flights, s.ledger.rows)
  {
  }

  lemma AfterStoreResults(s: System, e: Event, terminal: bool)
    requires Stores(s, e) && s.flights[e.request].binding.key in s.results
    requires OwnResults(s.results, s.flights, s.ledger.rows) && KeyOf(s.flights[e.request]) in s.ledger.rows
    requires forall j :: Succeeded(s.results, j) ==> ChargeKey(j) != KeyOf(s.flights[e.request])
    requires forall q :: q in s.flights && q != e.request ==> KeyOf(s.flights[q]) != KeyOf(s.flights[e.request])
    requires var charge := s.ledger.rows[KeyOf(s.flights[e.request])].state;
             charge == L.Reserved || charge == L.OutcomeUnknown
    ensures var t := AfterStore(s, e, terminal); OwnResults(t.results, t.flights, s.ledger.rows)
    ensures Agree(s.results, s.ledger.rows) ==>
              (Agree(AfterStore(s, e, terminal).results, s.ledger.rows)
               <==> s.ledger.rows[KeyOf(s.flights[e.request])].state == L.Reserved)
  {
    var k := s.flights[e.request].binding.key;
    var t := AfterStore(s, e, terminal);
    assert Succeeded(t.results, k);
    assert forall j :: Succeeded(t.results, j) && j != k ==> Succeeded(s.results, j) && t.results[j] == s.results[j];
    assert forall j :: Succeeded(s.results, j) ==> Succeeded(t.results, j) && t.results[j] == s.results[j];
  }

  /** A stored result's own charge may be settled at the amount that it records. */
  lemma SettleAgrees(results: R.Rows, rows: L.Rows, k: R.Key, final: L.Final, works: bool)
    requires Succeeded(results, k) && results[k].payload.Some? && ChargeKey(k) in rows
    requires forall j :: Succeeded(results, j) && ChargeKey(j) == ChargeKey(k) ==> j == k
    requires final.Settle? && final.actual == results[k].payload.value.actual
    ensures var late := rows[ChargeKey(k) := Outcome(rows[ChargeKey(k)], final, works)];
            && (Agree(results, rows) <==> Agree(results, late))
            && Settles(rows, late, ChargeKey(k), final.actual)
  {
    forall j | Succeeded(results, j) && j != k ensures ChargeKey(j) != ChargeKey(k) {}
  }

  lemma OneResult(s: System, k: R.Key)
    requires Inv(s) && Succeeded(s.results, k)
    ensures ChargeKey(k) in s.ledger.rows && UsageBounds.Fenced(s.ledger)
    ensures forall j :: Succeeded(s.results, j) && ChargeKey(j) == ChargeKey(k) ==> j == k
    ensures forall r :: r in s.flights && KeyOf(s.flights[r]) == ChargeKey(k) ==>
              OpenCharge(s.flights[r], L.Settled) && OpenCharge(s.flights[r], s.ledger.rows[ChargeKey(k)].state)
  {
  }

  lemma SettleKeeps(s: System, f: Flight, k: R.Key, final: L.Final, works: bool)
    requires Inv(s) && f.binding.key == k && Succeeded(s.results, k) && s.results[k].payload.Some?
    requires ChargeKey(k) in s.ledger.rows && s.ledger.rows[ChargeKey(k)].fence == f.fence
    requires final.Settle? && final.actual == s.results[k].payload.value.actual
    ensures var t := Charge(s, f, final, works);
            && Inv(t) && (Agree(s.results, s.ledger.rows) <==> Agree(t.results, t.ledger.rows))
            && Settles(s.ledger.rows, t.ledger.rows, ChargeKey(k), final.actual)
  {
    hide OpenCharges, OwnCharges, OwnResults, DispatchedOnce, UsageBounds.Fenced, Agree, Settles, OpenCharge, Charge;
    OneResult(s, k);
    ChargeIs(s, f, final, works);
    RechargeFree(s, ChargeKey(k), Outcome(s.ledger.rows[ChargeKey(k)], final, works), s.flights);
    SettleAgrees(s.results, s.ledger.rows, k, final, works);
  }

  /** What storing a result leaves behind. */
  ghost predicate Stored(s: System, e: Event, t: System)
    requires Stores(s, e)
  {
    var k := s.flights[e.request].binding.key;
    && Succeeded(t.results, k) && t.results[k].payload == R.Some(PayloadOf(e)) && R.Unacknowledged(t.results[k])
    && HoldsResults(s.results, t.results)
    && Settles(s.ledger.rows, t.ledger.rows, ChargeKey(k), e.actual)
  }

  /** After a result is stored, it and its charge agree exactly when the charge was open. */
  lemma StoreKeeps(s: System, e: Event)
    requires Inv(s) && Stores(s, e)
    ensures Inv(FinishStep(s, e))
    ensures Stored(s, e, FinishStep(s, e))
    ensures Agree(s.results, s.ledger.rows) ==>
              (Agree(FinishStep(s, e).results, FinishStep(s, e).ledger.rows) <==> ChargeOf(s, e.request) == L.Reserved)
  {
    hide Inv, Agree;
    var f := s.flights[e.request];
    var final := L.Settle(e.actual, 0, true);
    NothingStoredBy(s, e.request);
    CompleteAdds(s, e);
    var terminal := f.phase.terminal || Charges(s, f, final, e.luck.charge);
    AfterStoreInv(s, e, terminal);
    var t := AfterStore(s, e, terminal);
    StoredCharge(t, e.request);
    SettleKeeps(t, f, f.binding.key, final, e.luck.charge);
  }

  lemma StoredCharge(s: System, r: Request)
    requires Inv(s) && r in s.flights
    ensures KeyOf(s.flights[r]) in s.ledger.rows && s.ledger.rows[KeyOf(s.flights[r])].fence == s.flights[r].fence
  {
  }

  lemma NothingStoredBy(s: System, r: Request)
    requires Inv(s) && r in s.flights && s.flights[r].phase.Streaming? && s.flights[r].phase.reading
    ensures !Succeeded(s.results, s.flights[r].binding.key)
  {
    NothingStored(s, r, s.flights[r].binding.key);
  }

  lemma StopKeeps(s: System, r: Request, luck: Luck)
    requires Inv(s) && r in s.flights && s.flights[r].phase.Streaming?
    ensures Keeps(s, MarkUnknown(StopReading(s, r), r, luck))
  {
    hide MarkUnknown, Agree;
    MoveKeeps(s, r, s.flights[r].phase.(reading := false));
    MarkUnknownKeeps(StopReading(s, r), r, luck);
  }

  lemma FinishKeeps(s: System, e: Event)
    requires Inv(s) && e.Finish?
    ensures Inv(FinishStep(s, e))
    ensures !Stores(s, e) ==> Keeps(s, FinishStep(s, e))
  {
    hide Inv, Agree, MarkUnknown, StopReading, Charge, Charges;
    if Stores(s, e) {
      StoreKeeps(s, e);
    } else if e.request in s.flights && s.flights[e.request].phase.Streaming? {
      StopKeeps(s, e.request, Luck(e.luck.resultAgain, e.luck.chargeAgain, false, false));
    }
  }

  // ---- Arrival ----

  lemma AdmitIs(policy: L.Policy, s: System, e: Event)
    requires UsageBounds.Fenced(s.ledger) && e.Arrive? && Admits(policy, s, e)
    ensures var k := ChargeKey(e.key); var ledger := L.ReserveStep(policy, s.ledger, Claim(e), e.day);
            && k !in s.ledger.rows && UsageBounds.Fenced(ledger)
            && ledger.rows == s.ledger.rows[k := L.NewRow(Claim(e), e.day, s.ledger.next)]
  {
    UsageBounds.StepKeepsFenced(policy, s.ledger, L.Reserve(Claim(e), e.day));
    hide UsageBounds.Fenced, L.Exceeded;
  }

  lemma NewChargeFlights(flights: Flights, dispatched: map<L.Key, nat>, rows: L.Rows, r: Request, f: Flight, row: L.Row)
    requires OwnCharges(flights, rows) && DispatchedOnce(dispatched, rows) && OpenCharges(flights, rows)
    requires r !in flights && KeyOf(f) !in rows && row.fence == f.fence && row.state == L.Reserved && f.phase == Waiting
    ensures OwnCharges(flights[r := f], rows[KeyOf(f) := row])
    ensures OpenCharges(flights[r := f], rows[KeyOf(f) := row])
    ensures KeyOf(f) !in dispatched && DispatchedOnce(dispatched[KeyOf(f) := 1], rows[KeyOf(f) := row])
  {
  }

  lemma NewChargeResults(results: R.Rows, flights: Flights, rows: L.Rows, r: Request, f: Flight, row: L.Row)
    requires OwnResults(results, flights, rows) && r !in flights && KeyOf(f) !in rows
    ensures OwnResults(results, flights[r := f], rows[KeyOf(f) := row])
    ensures Agree(results, rows) ==> Agree(results, rows[KeyOf(f) := row])
  {
  }

  lemma AdmitKeeps(policy: L.Policy, s: System, e: Event, token: nat)
    requires Inv(s) && e.Arrive? && e.request !in s.flights && Admits(policy, s, e)
    ensures Keeps(s, Admit(policy, s, e, token))
    ensures Dispatches(s, ChargeKey(e.key)) == 0
  {
    hide OwnCharges, OpenCharges, OwnResults, DispatchedOnce, Agree, UsageBounds.Fenced, L.ReserveStep, Admits;
    AdmitIs(policy, s, e);
    var f := Flight(TextBinding(e), token, s.ledger.next, Waiting);
    var row := L.NewRow(Claim(e), e.day, s.ledger.next);
    NewChargeFlights(s.flights, s.dispatched, s.ledger.rows, e.request, f, row);
    NewChargeResults(s.results, s.flights, s.ledger.rows, e.request, f, row);
  }

  /** A stored result has its row in the ledger, so reserving again changes nothing. */
  lemma ClaimedAgain(policy: L.Policy, s: System, e: Event)
    requires Inv(s) && e.Arrive? && Succeeded(s.results, e.key)
    ensures Claimed(policy, s, e) == s
    ensures Reserved(policy, s, e).Receipt? ==>
              && ChargeKey(e.key) in s.ledger.rows
              && Reserved(policy, s, e) == L.Receipt(true, s.ledger.rows[ChargeKey(e.key)])
  {
    hide L.Exceeded;
  }

  lemma ReplayKeeps(policy: L.Policy, s: System, e: Event, payload: R.Payload)
    requires Inv(s) && e.Arrive? && Succeeded(s.results, e.key) && s.results[e.key].payload == R.Some(payload)
    ensures var t := SettleReplay(policy, s, e, payload);
            && t.results == s.results && KeepsSettling(s, t, ChargeKey(e.key), payload.actual)
  {
    ClaimedAgain(policy, s, e);
    hide Reserved, Claimed, UsageBounds.Fenced;
    if Readable(policy, s, e, payload) {
      SettleKeeps(s, Replayer(policy, s, e), e.key, L.Settle(payload.actual, 0, true), e.luck.charge);
    }
  }

  /** A charge that is settled for a result that agrees with it ends up settled alike. */
  lemma ReplaySettles(s: System, f: Flight, k: R.Key, final: L.Final, works: bool)
    requires Inv(s) && f.binding.key == k && Succeeded(s.results, k) && s.results[k].payload.Some?
    requires ChargeKey(k) in s.ledger.rows && s.ledger.rows[ChargeKey(k)].fence == f.fence
    requires final.Settle? && final.actual == s.results[k].payload.value.actual
    requires Agree(s.results, s.ledger.rows) && Charges(s, f, final, works)
    ensures var t := Charge(s, f, final, works);
            && ChargeKey(k) in t.ledger.rows
            && t.ledger.rows[ChargeKey(k)].state == L.Settled && t.ledger.rows[ChargeKey(k)].actual == final.actual
  {
    hide OpenCharges, OwnCharges, OwnResults, DispatchedOnce, UsageBounds.Fenced, Charge, Charges;
    ChargeIs(s, f, final, works);
  }

  lemma BegunResult(s: System, e: Event)
    requires e.Arrive? && Started(s, e).Replay?
    ensures R.BeginStep(s.results, TextBinding(e), e.now, e.token, true) == s.results
    ensures Succeeded(s.results, e.key) && s.results[e.key].payload == R.Some(Started(s, e).payload)
  {
  }

  /** The payload that an arriving request is answered with, if it is. */
  ghost predicate Replaying(s: System, e: Event) {
    e.Arrive? && e.begins && e.request !in s.flights && Started(s, e).Replay?
  }

  lemma ArriveKeeps(policy: L.Policy, s: System, e: Event)
    requires Inv(s) && e.Arrive?
    ensures !Replaying(s, e) ==> Keeps(s, ArriveStep(policy, s, e))
    ensures Replaying(s, e) ==>
            KeepsSettling(s, ArriveStep(policy, s, e), ChargeKey(e.key), Started(s, e).payload.actual)
  {
    hide Inv, Agree, Started, R.BeginStep, Admits, SettleReplay, Drop;
    if e.begins && e.request !in s.flights {
      BeginAddsNoResult(s.results, TextBinding(e), e.now, e.token);
      var begun := s.(results := R.BeginStep(s.results, TextBinding(e), e.now, e.token, true));
      ResultsKeep(s, begun.results);
      match Started(s, e)
      case Started(token) =>
        if Admits(policy, begun, e) {
          AdmitKeeps(policy, begun, e, token);
        } else {
          DropKeeps(begun, Flight(TextBinding(e), token, 0, Waiting), e.luck.result);
        }
      case Replay(payload) =>
        BegunResult(s, e);
        ReplayKeeps(policy, s, e, payload);
      case _ =>
    }
  }

  lemma DropKeeps(s: System, f: Flight, works: bool)
    requires Inv(s)
    ensures Keeps(s, Drop(s, f, works))
  {
    hide Inv, Agree, R.ReleaseStep;
    OthersAddNoResult(s.results, f.binding, f.token);
    ResultsKeep(s, R.ReleaseStep(s.results, f.binding, f.token));
  }

  // ---- Every step ----

  lemma ConfirmKeeps(s: System, b: R.Binding, now: nat, stale: set<R.Key>)
    requires Inv(s)
    ensures var t := s.(results := R.AckStep(s.results, b, now, stale));
            && Inv(t) && (Agree(s.results, s.ledger.rows) ==> Agree(t.results, t.ledger.rows))
            && HoldsResults(s.results - {b.key}, t.results)
  {
    hide Agree, R.AckStep, HoldsResults, OwnCharges, OpenCharges, OwnResults, DispatchedOnce, UsageBounds.Fenced;
    AckAddsNoResult(s.results, b, now, stale);
    FewerResults(s.results, R.AckStep(s.results, b, now, stale), s.flights, s.ledger.rows);
  }

  lemma RestartKeeps(s: System)
    requires Inv(s)
    ensures Keeps(s, s.(results := R.Restart(s.results), flights := map[]))
  {
    hide Agree, R.Restart;
    OthersAddNoResult(s.results, R.Binding(R.Key(0, 0, 0), R.TextReasoning, 0, false), 0);
    ResultsKeep(s, R.Restart(s.results));
    FewerFlights(s.(results := R.Restart(s.results)), map[]);
  }

  lemma StepKeeps(policy: L.Policy, s: System, e: Event)
    requires Inv(s)
    ensures Inv(Step(policy, s, e))
    ensures !Stores(s, e) && Agree(s.results, s.ledger.rows) ==>
            Agree(Step(policy, s, e).results, Step(policy, s, e).ledger.rows)
    ensures !Stores(s, e) && !Replaying(s, e) ==> SettlesNothing(s.ledger.rows, Step(policy, s, e).ledger.rows)
    ensures HoldsResults(if e.Confirm? then s.results - {e.binding.key} else s.results, Step(policy, s, e).results)
  {
    hide Inv, Agree, ArriveStep, RespondStep, InterruptStep, FinishStep;
    hide Stores, Replaying, HoldsResults, Settles, Started;
    match e
    case Arrive(_, _, _, _, _, _, _, _, _, _, _, _, _) => ArriveKeeps(policy, s, e);
    case Respond(r, response, luck) => RespondKeeps(s, r, response, luck);
    case Interrupt(r, failed, luck) => InterruptKeeps(s, r, failed, luck);
    case Finish(_, _, _, _, _, _, _) =>
      if Stores(s, e) { StoreKeeps(s, e); }
      FinishKeeps(s, e);
    case Confirm(b, now, stale) => ConfirmKeeps(s, b, now, stale);
    case Restart => RestartKeeps(s);
  }
}
