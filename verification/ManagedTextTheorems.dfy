/** What the managed text protocol promises over all interleavings, store failures and
    restarts. */
module ManagedTextTheorems {
  import L = UsageLedger
  import R = ResultStore
  import UsageBounds
  import opened ManagedText
  import opened ManagedTextInvariant

  lemma InitialInv()
    ensures Inv(Initial)
  {
  }

  lemma {:induction false} RunKeepsInv(policy: L.Policy, events: seq<Event>)
    ensures Inv(Run(policy, events))
    decreases |events|
  {
    hide Inv, Step;
    if events == [] {
      InitialInv();
    } else {
      RunKeepsInv(policy, events[..|events| - 1]);
      StepKeeps(policy, Run(policy, events[..|events| - 1]), events[|events| - 1]);
    }
  }

  // ---- At most one dispatch ----

  lemma OneDispatchOf(s: System, k: L.Key)
    requires Inv(s)
    ensures Dispatches(s, k) <= 1 && (Dispatches(s, k) == 1 ==> k in s.ledger.rows)
  {
  }

  /** The provider is asked at most once per operation of a principal, ever: across
      concurrent requests, released and expired results and restarts. */
  lemma AtMostOneDispatch(policy: L.Policy, events: seq<Event>, k: L.Key)
    ensures Dispatches(Run(policy, events), k) <= 1
    ensures k in Run(policy, events).dispatched ==> Run(policy, events).dispatched[k] == 1
  {
    RunKeepsInv(policy, events);
    OneDispatchOf(Run(policy, events), k);
  }

  // ---- Result and charge ----

  ghost predicate Agrees(s: System) { Agree(s.results, s.ledger.rows) }

  /** A result is stored although its charge was already closed as unknown. */
  ghost predicate Crosses(s: System, e: Event) {
    && Stores(s, e) && KeyOf(s.flights[e.request]) in s.ledger.rows
    && s.ledger.rows[KeyOf(s.flights[e.request])].state == L.OutcomeUnknown
  }

  ghost predicate NeverCrosses(policy: L.Policy, events: seq<Event>) {
    forall i :: 0 <= i < |events| ==> !Crosses(Run(policy, events[..i]), events[i])
  }

  ghost predicate AlwaysAgrees(policy: L.Policy, events: seq<Event>) {
    forall i :: 0 <= i <= |events| ==> Agrees(Run(policy, events[..i]))
  }

  lemma StepAgrees(policy: L.Policy, s: System, e: Event)
    requires Inv(s) && Agree(s.results, s.ledger.rows)
    ensures var t := Step(policy, s, e); Agree(t.results, t.ledger.rows) <==> !Crosses(s, e)
  {
    hide Inv, Agree, Stores, FinishStep;
    if Stores(s, e) {
      StoresIsFinish(policy, s, e);
      StoreKeeps(s, e);
      ChargeIsOpen(s, e.request);
    } else {
      StepKeeps(policy, s, e);
    }
  }

  lemma StoresIsFinish(policy: L.Policy, s: System, e: Event)
    requires Stores(s, e)
    ensures e.Finish? && Step(policy, s, e) == FinishStep(s, e)
    ensures e.request in s.flights && s.flights[e.request].phase.Streaming? && s.flights[e.request].phase.reading
  {
    hide FinishStep;
  }

  lemma ChargeIsOpen(s: System, r: Request)
    requires Inv(s) && r in s.flights && s.flights[r].phase.Streaming? && s.flights[r].phase.reading
    ensures KeyOf(s.flights[r]) in s.ledger.rows && ChargeOf(s, r) == s.ledger.rows[KeyOf(s.flights[r])].state
    ensures ChargeOf(s, r) == L.Reserved || (ChargeOf(s, r) == L.OutcomeUnknown && s.flights[r].phase.terminal)
  {
  }

  lemma NeverCrossesPrefix(policy: L.Policy, events: seq<Event>)
    requires events != []
    ensures var before := events[..|events| - 1];
            NeverCrosses(policy, events) <==>
              NeverCrosses(policy, before) && !Crosses(Run(policy, before), events[|events| - 1])
    ensures var before := events[..|events| - 1];
            AlwaysAgrees(policy, events) <==> AlwaysAgrees(policy, before) && Agrees(Run(policy, events))
  {
    hide Crosses, Agree, Run;
    var before := events[..|events| - 1];
    assert forall i :: 0 <= i <= |before| ==> before[..i] == events[..i];
    assert events[..|events|] == events;
  }

  /** Result and charge agree throughout a run exactly when no result is stored over a
      charge that is closed as unknown; the code does not test for that. */
  lemma {:induction false} AgreementExactly(policy: L.Policy, events: seq<Event>)
    ensures AlwaysAgrees(policy, events) <==> NeverCrosses(policy, events)
    decreases |events|
  {
    hide Inv, Crosses, Step, NeverCrosses, AlwaysAgrees, Agree;
    if events == [] {
      NothingYet(policy, events);
    } else {
      var before := events[..|events| - 1];
      NeverCrossesPrefix(policy, events);
      AgreementExactly(policy, before);
      RunKeepsInv(policy, before);
      if AlwaysAgrees(policy, before) {
        NowAgrees(policy, before);
        StepAgrees(policy, Run(policy, before), events[|events| - 1]);
      }
    }
  }

  lemma NothingYet(policy: L.Policy, events: seq<Event>)
    requires events == []
    ensures AlwaysAgrees(policy, events) && NeverCrosses(policy, events)
  {
  }

  lemma NowAgrees(policy: L.Policy, events: seq<Event>)
    requires AlwaysAgrees(policy, events)
    ensures Agrees(Run(policy, events))
  {
    assert events[..|events|] == events;
  }

  /** In particular they agree while no stream ends after it was cancelled, which is the
      order in which the Streams standard closes a pending read before a cancel returns. */
  lemma AgreementOfOrderlyRuns(policy: L.Policy, events: seq<Event>)
    requires forall i :: 0 <= i < |events| && events[i].Finish?
                         && events[i].request in Run(policy, events[..i]).flights ==>
               !Ended(Run(policy, events[..i]).flights[events[i].request])
    ensures AlwaysAgrees(policy, events)
  {
    forall i | 0 <= i < |events| ensures !Crosses(Run(policy, events[..i]), events[i]) {
      var s := Run(policy, events[..i]);
      if Stores(s, events[i]) {
        RunKeepsInv(policy, events[..i]);
        ChargeIsOpen(s, events[i].request);
      }
    }
    AgreementExactly(policy, events);
  }

  predicate Ended(f: Flight) { f.phase.Streaming? && f.phase.terminal }

  /** A request answered with a stored text leaves its charge settled at the stored amount. */
  lemma ReplayIsSettled(policy: L.Policy, events: seq<Event>, e: Event)
    requires NeverCrosses(policy, events) && Replays(policy, Run(policy, events), e)
    ensures var t := Step(policy, Run(policy, events), e);
            && Succeeded(t.results, e.key) && t.results[e.key].payload.Some?
            && ChargeKey(e.key) in t.ledger.rows
            && t.ledger.rows[ChargeKey(e.key)].state == L.Settled
            && t.ledger.rows[ChargeKey(e.key)].actual == t.results[e.key].payload.value.actual
  {
    var s := Run(policy, events);
    RunKeepsInv(policy, events);
    AgreementExactly(policy, events);
    NowAgrees(policy, events);
    hide Inv, Agree, Run, NeverCrosses, Started, Charges, Charge;
    BegunResult(s, e);
    ClaimedAgain(policy, s, e);
    ReplaySettles(s, Replayer(policy, s, e), e.key, L.Settle(Started(s, e).payload.actual, 0, true), e.luck.charge);
  }

  // ---- The charge is settled after the result is stored ----

  /** Some result of the row `k` was stored, and it recorded this amount. */
  ghost predicate WasStored(policy: L.Policy, events: seq<Event>, k: L.Key, actual: L.Amount) {
    exists i, j :: 0 <= i <= |events| && StoredWith(Run(policy, events[..i]).results, j, k, actual)
  }

  predicate StoredWith(results: R.Rows, j: R.Key, k: L.Key, actual: L.Amount) {
    Succeeded(results, j) && ChargeKey(j) == k && results[j].payload.Some? && results[j].payload.value.actual == actual
  }

  lemma NewlySettled(policy: L.Policy, s: System, e: Event, k: L.Key)
    requires Inv(s)
    ensures var t := Step(policy, s, e);
            k in t.ledger.rows && t.ledger.rows[k].state == L.Settled ==>
              || (k in s.ledger.rows && s.ledger.rows[k] == t.ledger.rows[k])
              || (exists j :: StoredWith(s.results, j, k, t.ledger.rows[k].actual))
              || (exists j :: StoredWith(t.results, j, k, t.ledger.rows[k].actual))
  {
    hide Inv, Stores, Replaying, Agree, FinishStep, ArriveStep, Started, HoldsResults;
    StepKeeps(policy, s, e);
    var t := Step(policy, s, e);
    if Stores(s, e) {
      StoresIsFinish(policy, s, e);
      StoreKeeps(s, e);
      assert k in t.ledger.rows && k == ChargeKey(s.flights[e.request].binding.key)
             && t.ledger.rows[k].actual == e.actual ==>
          StoredWith(t.results, s.flights[e.request].binding.key, k, t.ledger.rows[k].actual);
    } else if Replaying(s, e) {
      ReplayingResult(policy, s, e);
      ArriveKeeps(policy, s, e);
      assert k in t.ledger.rows && k == ChargeKey(e.key) && t.ledger.rows[k].actual == Started(s, e).payload.actual ==>
          StoredWith(s.results, e.key, k, t.ledger.rows[k].actual);
    }
  }

  lemma ReplayingResult(policy: L.Policy, s: System, e: Event)
    requires Replaying(s, e)
    ensures e.Arrive? && Started(s, e).Replay? && Step(policy, s, e) == ArriveStep(policy, s, e)
    ensures Succeeded(s.results, e.key) && s.results[e.key].payload == R.Some(Started(s, e).payload)
  {
    hide ArriveStep;
    BegunResult(s, e);
  }

  /** The ledger is settled only after the result is stored, and at the amount that the
      stored result records. */
  lemma {:induction false} SettledAfterStored(policy: L.Policy, events: seq<Event>, k: L.Key)
    requires k in Run(policy, events).ledger.rows && Run(policy, events).ledger.rows[k].state == L.Settled
    ensures WasStored(policy, events, k, Run(policy, events).ledger.rows[k].actual)
    decreases |events|
  {
    hide Inv, Step, StoredWith;
    if events == [] {
    } else {
      var before := events[..|events| - 1];
      var s, t := Run(policy, before), Run(policy, events);
      RunKeepsInv(policy, before);
      NewlySettled(policy, s, events[|events| - 1], k);
      assert events[..|events|] == events && events[..|before|] == before;
      if k in s.ledger.rows && s.ledger.rows[k] == t.ledger.rows[k] {
        SettledAfterStored(policy, before, k);
        var i, j :| 0 <= i <= |before| && StoredWith(Run(policy, before[..i]).results, j, k, t.ledger.rows[k].actual);
        assert events[..i] == before[..i];
      }
    }
  }

  // ---- A stored result stays ----

  /** A stored result keeps its payload through all other requests, failures and restarts
      until its consumer confirms it. */
  lemma {:induction false} StoredUntilConfirmed(policy: L.Policy, events: seq<Event>, early: nat, k: R.Key)
    requires early <= |events|
    requires forall i :: early <= i < |events| ==> !(events[i].Confirm? && events[i].binding.key == k)
    requires k in Run(policy, events[..early]).results && R.Unacknowledged(Run(policy, events[..early]).results[k])
    ensures k in Run(policy, events).results
         && Run(policy, events).results[k] == Run(policy, events[..early]).results[k]
    decreases |events|
  {
    hide Inv, Step, Agree;
    if early == |events| {
      assert events[..early] == events;
    } else {
      var before := events[..|events| - 1];
      assert before[..early] == events[..early];
      StoredUntilConfirmed(policy, before, early, k);
      RunKeepsInv(policy, before);
      StepKeeps(policy, Run(policy, before), events[|events| - 1]);
    }
  }

  // ---- The run that crosses ----

  const ONE := L.Amount(1, 0, 0, 0)
  const THE_KEY := R.Key(1, 1, 1)
  const ALL_WORKS := Luck(true, true, true, true)

  /** A client cancels while a pull is under way, the result store is unreachable just then
      and the ledger is not, and the pull still ends well. */
  const CROSSING := [
    Arrive(1, THE_KEY, 1, true, 1, ONE, true, 0, 0, 1, true, true, ALL_WORKS),
    Respond(1, Body, ALL_WORKS),
    Interrupt(1, false, Luck(false, true, false, false)),
    Finish(1, 1, 2, ONE, true, 1, ALL_WORKS)]

  const THE_BINDING := R.Binding(THE_KEY, R.TextReasoning, 1, true)
  const THE_CLAIM := L.Input(ChargeKey(THE_KEY), 1, L.TextReasoning, 1, 1, ONE, true)
  const THE_ROW := L.NewRow(THE_CLAIM, 0, 1)

  function CrossingState(phase: Phase, charge: L.Row): System {
    System(map[THE_KEY := R.NewRow(THE_BINDING, 0, 1)], L.Ledger(map[ChargeKey(THE_KEY) := charge], 2),
           map[1 := Flight(THE_BINDING, 1, 1, phase)], map[ChargeKey(THE_KEY) := 1])
  }

  lemma CrossingBegins()
    ensures R.BeginReply(map[], THE_BINDING, 0, 1, true) == R.Started(1)
    ensures R.BeginStep(map[], THE_BINDING, 0, 1, true) == map[THE_KEY := R.NewRow(THE_BINDING, 0, 1)]
  {
    assert R.BacklogBytes(map[], THE_BINDING, false) == map[] == R.BacklogBytes(map[], THE_BINDING, true);
    assert !R.IsBacklogFull(map[], THE_BINDING);
    hide R.IsBacklogFull;
  }

  lemma CrossingFits(policy: L.Policy, scope: L.Scope)
    requires !ONE.Exceeds(L.Select(THE_CLAIM, scope, 0).Limit(policy))
    ensures !L.Exceeded(policy, map[], THE_CLAIM, scope, 0)
  {
    assert forall x :: L.CountedWeights(map[], L.Select(THE_CLAIM, scope, 0), x) == map[];
    assert L.SpentAmount(map[], L.Select(THE_CLAIM, scope, 0)) == L.ZERO;
  }

  lemma CrossingReserves(policy: L.Policy)
    requires !ONE.Exceeds(policy.text.principal) && !ONE.Exceeds(policy.text.installation)
    ensures L.ReserveReply(policy, L.Empty, THE_CLAIM, 0) == L.Receipt(false, THE_ROW)
    ensures L.ReserveStep(policy, L.Empty, THE_CLAIM, 0) == L.Ledger(map[ChargeKey(THE_KEY) := THE_ROW], 2)
  {
    hide L.Exceeded;
    CrossingFits(policy, L.Principal);
    CrossingFits(policy, L.Installation);
  }

  lemma CrossingArrives(policy: L.Policy)
    requires !ONE.Exceeds(policy.text.principal) && !ONE.Exceeds(policy.text.installation)
    ensures Step(policy, Initial, CROSSING[0]) == CrossingState(Waiting, THE_ROW)
  {
    hide R.BeginReply, R.BeginStep, L.ReserveReply, L.ReserveStep;
    CrossingBegins();
    CrossingReserves(policy);
  }

  lemma CrossingResponds(policy: L.Policy)
    ensures Step(policy, CrossingState(Waiting, THE_ROW), CROSSING[1]) ==
              CrossingState(Streaming(true, false, false), THE_ROW)
  {
  }

  lemma CrossingCancels(policy: L.Policy)
    ensures Step(policy, CrossingState(Streaming(true, false, false), THE_ROW), CROSSING[2])
         == CrossingState(Streaming(true, false, true), THE_ROW.(state := L.OutcomeUnknown, actual := ONE))
  {
    var f := Flight(THE_BINDING, 1, 1, Streaming(true, false, false));
    CrossingMarks(policy);
    ChargeIs(CrossingState(Streaming(true, false, true), THE_ROW), f, L.Unknown, true);
    hide Step, Charge;
  }

  lemma CrossingMarks(policy: L.Policy)
    ensures Step(policy, CrossingState(Streaming(true, false, false), THE_ROW), CROSSING[2])
         == Charge(CrossingState(Streaming(true, false, true), THE_ROW),
                   Flight(THE_BINDING, 1, 1, Streaming(true, false, false)), L.Unknown, true)
  {
    hide Charge;
    var told := Flight(THE_BINDING, 1, 1, Streaming(true, false, true));
    assert CrossingState(Streaming(true, false, false), THE_ROW).flights[1 := told] == map[1 := told];
  }

  /** The guarantee without the condition is false: this run stores a result whose charge
      stays unknown. */
  lemma ResultWithoutCharge(policy: L.Policy)
    requires !ONE.Exceeds(policy.text.principal) && !ONE.Exceeds(policy.text.installation)
    ensures var s := Run(policy, CROSSING);
            && Succeeded(s.results, THE_KEY)
            && ChargeKey(THE_KEY) in s.ledger.rows && s.ledger.rows[ChargeKey(THE_KEY)].state == L.OutcomeUnknown
  {
    hide Step;
    assert CROSSING[..4] == CROSSING && CROSSING[..3][..2] == CROSSING[..2] && CROSSING[..2][..1] == CROSSING[..1];
    assert CROSSING[..3][2] == CROSSING[2] && CROSSING[..2][1] == CROSSING[1];
    assert CROSSING[..1][0] == CROSSING[0] && CROSSING[..1][..0] == [];
    CrossingArrives(policy);
    CrossingResponds(policy);
    CrossingCancels(policy);
    assert Run(policy, CROSSING[..1]) == CrossingState(Waiting, THE_ROW);
    assert Run(policy, CROSSING[..2]) == CrossingState(Streaming(true, false, false), THE_ROW);
    CrossingEnds(policy);
  }

  lemma CrossingEnds(policy: L.Policy)
    ensures var s := CrossingState(Streaming(true, false, true), THE_ROW.(state := L.OutcomeUnknown, actual := ONE));
            var t := Step(policy, s, CROSSING[3]);
            && Succeeded(t.results, THE_KEY)
            && ChargeKey(THE_KEY) in t.ledger.rows && t.ledger.rows[ChargeKey(THE_KEY)].state == L.OutcomeUnknown
  {
    var s := CrossingState(Streaming(true, false, true), THE_ROW.(state := L.OutcomeUnknown, actual := ONE));
    CrossingStores(policy);
    ChargeIs(AfterStore(s, CROSSING[3], true), Flight(THE_BINDING, 1, 1, Streaming(true, false, true)),
        L.Settle(ONE, 0, true), true);
    hide Step, Charge;
  }

  lemma CrossingStores(policy: L.Policy)
    ensures var s := CrossingState(Streaming(true, false, true), THE_ROW.(state := L.OutcomeUnknown, actual := ONE));
            Step(policy, s, CROSSING[3]) ==
              Charge(AfterStore(s, CROSSING[3], true), Flight(THE_BINDING, 1, 1, Streaming(true, false, true)),
                     L.Settle(ONE, 0, true), true)
  {
    hide Charge, Charges;
  }
}
