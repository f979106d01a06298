/** What each call of the usage ledger charges: a reservation counts for exactly the amount
    asked for, an outcome replaces it by exactly its cost, and nothing else is charged. */
module UsageOutcomes {
  import opened Sums
  import opened UsageLedger
  import opened UsageBounds

  lemma SpentInsert(rows: Rows, k: Key, row: Row, sel: Selection, x: Axis)
    requires k !in rows
    ensures Spent(rows[k := row], sel, x) ==
              Spent(rows, sel, x) + if sel.Selects(k, row) then row.Counted().Of(x) else 0
  {
    var weights := CountedWeights(rows, sel, x);
    if sel.Selects(k, row) {
      TotalInsert(weights, k, row.Counted().Of(x));
      assert CountedWeights(rows[k := row], sel, x) == weights[k := row.Counted().Of(x)];
    } else {
      assert CountedWeights(rows[k := row], sel, x) == weights;
    }
  }

  lemma SpentUpdate(rows: Rows, k: Key, row: Row, sel: Selection, x: Axis)
    requires k in rows && row.SameReservation(rows[k])
    ensures Spent(rows[k := row], sel, x) ==
              Spent(rows, sel, x) + if sel.Selects(k, row) then row.Counted().Of(x) - rows[k].Counted().Of(x) else 0
  {
    var weights := CountedWeights(rows, sel, x);
    if sel.Selects(k, row) {
      TotalUpdate(weights, k, row.Counted().Of(x));
      assert CountedWeights(rows[k := row], sel, x) == weights[k := row.Counted().Of(x)];
    } else {
      assert CountedWeights(rows[k := row], sel, x) == weights;
    }
  }

  /** The limits that an operation of this principal on this installation counts against. */
  predicate Concerns(sel: Selection, principal: Name, installation: Name, capability: Capability, day: nat) {
    && sel.principal == principal && sel.capability == capability && sel.period == day
    && (sel.scope == Installation ==> sel.installation == installation)
  }

  /** All rows but this one are as before. */
  predicate OtherRowsKept(a: Rows, b: Rows, k: Key) {
    && b.Keys == a.Keys + {k} && forall j :: j in a && j != k ==> b[j] == a[j]
  }

  predicate BoundTo(row: Row, input: Input) {
    && row.installation == input.installation && row.capability == input.capability
    && row.account == input.account && row.fingerprint == input.fingerprint
  }

  /** A reservation that is not a duplicate adds one row, which counts for exactly the amount
      asked for, against the limits of its principal and installation on that day and no
      others; any other answer changes nothing. */
  lemma ReserveCharges(policy: Policy, s: Ledger, input: Input, day: nat)
    requires Fenced(s)
    ensures var t, reply := ReserveStep(policy, s, input, day), ReserveReply(policy, s, input, day);
            if reply.Receipt? && !reply.duplicate then
              && input.key !in s.rows && OtherRowsKept(s.rows, t.rows, input.key)
              && t.rows[input.key] == reply.row && reply.row.state == Reserved && t.next == s.next + 1
              && (forall k :: k in s.rows ==> s.rows[k].fence != reply.row.fence)
              && reply.row.reserved == input.amount && BoundTo(reply.row, input) && reply.row.period == day
              && (forall sel: Selection, x :: Spent(t.rows, sel, x) == Spent(s.rows, sel, x) +
                    if Concerns(sel, input.key.principal, input.installation, input.capability, day)
                    then input.amount.Of(x) else 0)
            else t == s
  {
    hide Spent, Exceeded;
    var reply := ReserveReply(policy, s, input, day);
    if reply.Receipt? && !reply.duplicate {
      forall sel: Selection, x
        ensures Spent(s.rows[input.key := reply.row], sel, x) == Spent(s.rows, sel, x) +
                  if Concerns(sel, input.key.principal, input.installation, input.capability, day)
                  then input.amount.Of(x) else 0
      {
        SpentInsert(s.rows, input.key, reply.row, sel, x);
      }
    }
  }

  /** A request that is malformed, for an unbound account or for an invalid amount is refused
      before the ledger is looked at. */
  lemma ReserveRefuses(policy: Policy, s: Ledger, input: Input, day: nat)
    ensures var reply := ReserveReply(policy, s, input, day);
            && (reply == Refused(BudgetUnavailable) <==>
                  input.formed && input.account != LEGACY && !(input.amount.Valid() && input.amount.requests == 1))
            && (!input.formed || input.account == LEGACY ==> reply == Refused(OperationConflict))
  {
    hide Exceeded;
  }

  /** What a final outcome costs. */
  function Cost(row: Row, f: Final): Amount {
    match f
    case Settle(actual, _, _) => actual
    case Release => ZERO
    case Unknown => row.reserved
  }

  predicate Acceptable(f: Final) {
    f.Settle? ==> f.actual.Valid() && (f.hash == 0 || f.hashFormed)
  }

  predicate StateFits(state: UsageState, f: Final) {
    match f
    case Settle(_, _, _) => state == Settled
    case Release => state == Released
    case Unknown => state == OutcomeUnknown
  }

  /** The first outcome of a row replaces what it reserved by what it cost, on every axis and
      against exactly the limits of that row; an outcome that is not valid is refused, a
      second one is answered with the first, and neither changes anything. */
  lemma FinalizeExactly(s: Ledger, k: Key, fence: nat, f: Final)
    requires Fenced(s) && k in s.rows && s.rows[k].fence == fence
    ensures var row := s.rows[k]; var reply := FinalizeReply(s, k.operation, fence, f);
            var t := FinalizeStep(s, k.operation, fence, f);
            if row.state != Reserved then reply == Receipt(true, row) && t == s
            else if !Acceptable(f) then reply == Refused(BudgetUnavailable) && t == s
            else
              && OtherRowsKept(s.rows, t.rows, k) && t.next == s.next && reply == Receipt(false, t.rows[k])
              && t.rows[k].SameReservation(row) && StateFits(t.rows[k].state, f)
              && (f.Settle? ==> t.rows[k].actual == f.actual && t.rows[k].receiptHash == f.hash)
              && forall sel: Selection, x :: Spent(t.rows, sel, x) == Spent(s.rows, sel, x) +
                   if Concerns(sel, k.principal, row.installation, row.capability, row.period)
                   then Cost(row, f).Of(x) - row.reserved.Of(x) else 0
  {
    hide Spent;
    var row, t := s.rows[k], FinalizeStep(s, k.operation, fence, f);
    FinalizeAnswers(s, k, fence, f);
    FoundIs(s, k, fence);
    if row.state == Reserved && Acceptable(f) {
      forall sel: Selection, x
        ensures Spent(t.rows, sel, x) == Spent(s.rows, sel, x) +
                  if Concerns(sel, k.principal, row.installation, row.capability, row.period)
                  then Cost(row, f).Of(x) - row.reserved.Of(x) else 0
      {
        SpentUpdate(s.rows, k, Finalized(row, f).row, sel, x);
      }
    }
  }

  lemma FoundIs(s: Ledger, k: Key, fence: nat)
    requires Fenced(s) && k in s.rows && s.rows[k].fence == fence
    ensures Find(s.rows, k.operation, fence) == At(k)
  {
    assert IsFenced(s.rows, k, k.operation, fence);
  }

  /** A run takes its events one by one. */
  lemma RunNext(policy: Policy, s: Ledger, events: seq<Event>, e: Event)
    ensures Run(policy, s, []) == s && Run(policy, s, events + [e]) == Step(policy, Run(policy, s, events), e)
  {
    hide Step;
    assert (events + [e])[..|events|] == events;
  }

  /** Two operations whose amounts together exceed a limit are never both reserved, nor both
      unknown, on one day. */
  lemma NeverBothReserved(policy: Policy, events: seq<Event>, k: Key, j: Key, sel: Selection, x: Axis)
    requires var rows := Run(policy, Empty, events).rows;
             && k in rows && j in rows && k != j
             && rows[k].state in {Reserved, OutcomeUnknown} && rows[j].state in {Reserved, OutcomeUnknown}
             && Concerns(sel, k.principal, rows[k].installation, rows[k].capability, rows[k].period)
             && Concerns(sel, j.principal, rows[j].installation, rows[j].capability, rows[j].period)
    requires 0 <= sel.Limit(policy).Of(x)
    ensures var rows := Run(policy, Empty, events).rows;
            rows[k].reserved.Of(x) + rows[j].reserved.Of(x) <=
              (if sel.scope == Principal then policy.For(sel.capability).principal
               else policy.For(sel.capability).installation).Of(x)
  {
    var rows := Run(policy, Empty, events).rows;
    RunKeepsBounded(policy, Empty, events, sel, x);
    assert PlannedWeights(Empty.rows, sel, x) == map[];
    RunKeepsValid(policy, events);
    hide Run;
    PlannedIsValid(rows);
    TotalTwo(PlannedWeights(rows, sel, x), k, j);
  }

  ghost predicate ValidAmounts(rows: Rows) {
    forall k :: k in rows ==> rows[k].reserved.Valid() && rows[k].actual.Valid()
  }

  lemma PlannedIsValid(rows: Rows)
    requires ValidAmounts(rows)
    ensures forall k, x :: k in rows ==> 0 <= rows[k].Planned(x)
  {
  }

  lemma {:induction false} RunKeepsValid(policy: Policy, events: seq<Event>)
    ensures ValidAmounts(Run(policy, Empty, events).rows)
    decreases |events|
  {
    hide Step;
    if events != [] {
      RunKeepsValid(policy, events[..|events| - 1]);
      StepKeepsValid(policy, Run(policy, Empty, events[..|events| - 1]), events[|events| - 1]);
    }
  }

  lemma StepKeepsValid(policy: Policy, s: Ledger, e: Event)
    requires ValidAmounts(s.rows)
    ensures ValidAmounts(Step(policy, s, e).rows)
  {
    hide Exceeded;
  }
}
