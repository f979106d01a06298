/** What the usage ledger promises over whole runs: the bound on counted usage, one terminal
    outcome per row and fences that name one row. */
module UsageBounds {
  import opened Sums
  import opened UsageLedger

  // ---- Counted usage is planned usage plus overrun ----

  ghost predicate ValidRows(rows: Rows) {
    forall k :: k in rows ==> rows[k].reserved.Valid()
  }

  lemma SpentSplits(rows: Rows, sel: Selection, x: Axis)
    requires ValidRows(rows)
    ensures Spent(rows, sel, x) == PlannedSpend(rows, sel, x) + Overrun(rows, sel, x)
    ensures 0 <= Overrun(rows, sel, x)
  {
    TotalSum(PlannedWeights(rows, sel, x), OverrunWeights(rows, sel, x), CountedWeights(rows, sel, x));
    TotalNonNegative(OverrunWeights(rows, sel, x));
  }

  // ---- One insertion, one finalization ----

  lemma InsertSpends(rows: Rows, sel: Selection, x: Axis, k: Key, row: Row)
    requires k !in rows && row.state == Reserved
    ensures PlannedSpend(rows[k := row], sel, x)
         == PlannedSpend(rows, sel, x) + if sel.Selects(k, row) then row.reserved.Of(x) else 0
  {
    var weights := PlannedWeights(rows, sel, x);
    if sel.Selects(k, row) {
      TotalInsert(weights, k, row.Planned(x));
      assert PlannedWeights(rows[k := row], sel, x) == weights[k := row.Planned(x)];
    } else {
      assert PlannedWeights(rows[k := row], sel, x) == weights;
    }
  }

  lemma FinalizePlansLess(rows: Rows, sel: Selection, x: Axis, k: Key, row: Row)
    requires k in rows && row.SameReservation(rows[k]) && row.Planned(x) <= rows[k].Planned(x)
    ensures PlannedSpend(rows[k := row], sel, x) <= PlannedSpend(rows, sel, x)
  {
    var weights := PlannedWeights(rows, sel, x);
    if sel.Selects(k, row) {
      TotalUpdate(weights, k, row.Planned(x));
      assert PlannedWeights(rows[k := row], sel, x) == weights[k := row.Planned(x)];
    } else {
      assert PlannedWeights(rows[k := row], sel, x) == weights;
    }
  }

  /** Finalizing gives a row the one outcome asked for, or leaves it alone. */
  lemma FinalizedKeepsReservation(row: Row, f: Final, x: Axis)
    requires row.state == Reserved ==> row.reserved.Valid()
    ensures var reply := Finalized(row, f);
            reply.Receipt? ==>
              && reply.row.SameReservation(row) && reply.row.Planned(x) <= row.Planned(x)
              && (row.state != Reserved ==> reply.row == row)
              && (row.state == Reserved ==> reply.row.state != Reserved)
  {
  }

  // ---- The bound ----

  ghost predicate Fenced(s: Ledger) {
    && 0 < s.next
    && (forall k :: k in s.rows ==> 0 < s.rows[k].fence < s.next)
    && (forall k, j :: k in s.rows && j in s.rows && s.rows[k].fence == s.rows[j].fence ==> k == j)
  }

  function Max(a: int, b: int): int { if a < b then b else a }

  ghost predicate Bounded(policy: Policy, start: Rows, rows: Rows, sel: Selection, x: Axis) {
    PlannedSpend(rows, sel, x) <= Max(sel.Limit(policy).Of(x), PlannedSpend(start, sel, x))
  }

  lemma ReserveFits(policy: Policy, s: Ledger, input: Input, day: nat, sel: Selection, x: Axis)
    requires var reply := ReserveReply(policy, s, input, day); reply.Receipt? && !reply.duplicate
    requires sel.Selects(input.key, NewRow(input, day, s.next))
    ensures Spent(s.rows, sel, x) + input.amount.Of(x) <= sel.Limit(policy).Of(x)
  {
    assert sel == Select(input, sel.scope, day) || (sel.scope == Principal && sel.installation != input.installation);
    assert !Exceeded(policy, s.rows, input, sel.scope, day);
    assert CountedWeights(s.rows, sel, x) == CountedWeights(s.rows, Select(input, sel.scope, day), x);
  }

  lemma StepKeepsBounded(policy: Policy, start: Rows, s: Ledger, e: Event, sel: Selection, x: Axis)
    requires Bounded(policy, start, s.rows, sel, x) && ValidRows(s.rows)
    ensures Bounded(policy, start, Step(policy, s, e).rows, sel, x) && ValidRows(Step(policy, s, e).rows)
  {
    match e
    case Reserve(input, day) =>
      var reply := ReserveReply(policy, s, input, day);
      if reply.Receipt? && !reply.duplicate {
        InsertSpends(s.rows, sel, x, input.key, reply.row);
        if sel.Selects(input.key, reply.row) {
          ReserveFits(policy, s, input, day, sel, x);
          SpentSplits(s.rows, sel, x);
        }
      }
    case Finalize(operation, fence, f) =>
      var found := Find(s.rows, operation, fence);
      if found.At? {
        FinalizedKeepsReservation(s.rows[found.key], f, x);
        var reply := Finalized(s.rows[found.key], f);
        if reply.Receipt? { FinalizePlansLess(s.rows, sel, x, found.key, reply.row); }
      }
  }

  lemma {:induction false} RunKeepsBounded(policy: Policy, start: Ledger, events: seq<Event>, sel: Selection, x: Axis)
    requires ValidRows(start.rows)
    ensures var s := Run(policy, start, events); Bounded(policy, start.rows, s.rows, sel, x) && ValidRows(s.rows)
    decreases |events|
  {
    if events != [] {
      RunKeepsBounded(policy, start, events[..|events| - 1], sel, x);
      StepKeepsBounded(policy, start.rows, Run(policy, start, events[..|events| - 1]), events[|events| - 1], sel, x);
    }
  }

  /** The ledger bound: for every principal or installation, capability, day and axis, after
      every run under one policy, counted usage is at most the limit (or what the opened
      ledger had planned already) plus what settled rows cost beyond their reservations. */
  lemma LedgerBound(policy: Policy, start: Ledger, events: seq<Event>, sel: Selection, x: Axis)
    requires ValidRows(start.rows)
    ensures var rows := Run(policy, start, events).rows;
            Spent(rows, sel, x)
              <= Max(sel.Limit(policy).Of(x), PlannedSpend(start.rows, sel, x)) + Overrun(rows, sel, x)
  {
    RunKeepsBounded(policy, start, events, sel, x);
    SpentSplits(Run(policy, start, events).rows, sel, x);
  }

  /** From an empty ledger the limit itself is the bound. */
  lemma LedgerBoundFromEmpty(policy: Policy, events: seq<Event>, sel: Selection, x: Axis)
    requires 0 <= sel.Limit(policy).Of(x)
    ensures var rows := Run(policy, Empty, events).rows;
            Spent(rows, sel, x) <= sel.Limit(policy).Of(x) + Overrun(rows, sel, x)
  {
    LedgerBound(policy, Empty, events, sel, x);
    assert PlannedWeights(Empty.rows, sel, x) == map[];
    assert PlannedSpend(Empty.rows, sel, x) == 0;
  }

  // ---- Rows ----

  lemma StepKeepsFenced(policy: Policy, s: Ledger, e: Event)
    requires Fenced(s)
    ensures Fenced(Step(policy, s, e))
  {
    hide Exceeded, SameBinding, SameLegacyBinding;
    if e.Finalize? {
      var found := Find(s.rows, e.operation, e.fence);
      if found.At? {
        FinalizedKeepsFence(s.rows[found.key], e.final);
        hide Finalized, Find;
        var reply := FinalizeReply(s, e.operation, e.fence, e.final);
        if reply.Receipt? { RowKeepsFenced(s, found.key, reply.row); }
      }
    }
  }

  lemma FinalizedKeepsFence(row: Row, f: Final)
    ensures Finalized(row, f).Receipt? ==> Finalized(row, f).row.fence == row.fence
  {
  }

  lemma RowKeepsFenced(s: Ledger, k: Key, row: Row)
    requires Fenced(s) && k in s.rows && row.fence == s.rows[k].fence
    ensures Fenced(s.(rows := s.rows[k := row]))
  {
  }

  lemma {:induction false} RunKeepsFenced(policy: Policy, start: Ledger, events: seq<Event>)
    requires Fenced(start)
    ensures Fenced(Run(policy, start, events))
    decreases |events|
  {
    hide Fenced;
    if events != [] {
      RunKeepsFenced(policy, start, events[..|events| - 1]);
      StepKeepsFenced(policy, Run(policy, start, events[..|events| - 1]), events[|events| - 1]);
    }
  }

  /** A later row has the same reservation, and an outcome, once given, is final. */
  ghost predicate RowEvolves(early: Rows, late: Rows, k: Key) {
    k in early ==>
      && k in late && late[k].SameReservation(early[k])
      && (early[k].state != Reserved ==> late[k] == early[k])
  }

  lemma StepEvolves(policy: Policy, s: Ledger, e: Event, k: Key)
    ensures RowEvolves(s.rows, Step(policy, s, e).rows, k)
  {
    if e.Finalize? {
      var found := Find(s.rows, e.operation, e.fence);
      if found.At? {
        var row := s.rows[found.key];
        assert Finalized(row, e.final).Receipt? ==> Finalized(row, e.final).row.SameReservation(row);
      }
    }
  }

  /** Rows are permanent and exactly one terminal outcome is ever applied to a row. */
  lemma {:induction false} RowsEvolve(policy: Policy, start: Ledger, events: seq<Event>, early: nat, k: Key)
    requires early <= |events|
    ensures RowEvolves(Run(policy, start, events[..early]).rows, Run(policy, start, events).rows, k)
    decreases |events|
  {
    if early == |events| {
      assert events[..early] == events;
    } else {
      var before := events[..|events| - 1];
      RowsEvolve(policy, start, before, early, k);
      assert before[..early] == events[..early];
      StepEvolves(policy, Run(policy, start, before), events[|events| - 1], k);
    }
  }

  // ---- Replies ----

  /** The amount still fits on this axis of this limit. */
  ghost predicate Fits(policy: Policy, s: Ledger, input: Input, scope: Scope, day: nat, x: Axis) {
    var sel := Select(input, scope, day);
    Spent(s.rows, sel, x) + input.amount.Of(x) <= sel.Limit(policy).Of(x)
  }

  /** A fresh operation is reserved exactly when its amount fits on all four axes of both
      limits; the principal limit, being broader, wins the explanation of a refusal. */
  lemma ReserveExactly(policy: Policy, s: Ledger, input: Input, day: nat)
    requires input.formed && input.account != LEGACY && input.amount.Valid() && input.amount.requests == 1
    requires input.key !in s.rows
    ensures var reply := ReserveReply(policy, s, input, day);
            && (reply.Receipt? <==> forall scope, x :: Fits(policy, s, input, scope, day, x))
            && (reply == Refused(UsageLimitReached(Installation)) <==>
                  && (forall x :: Fits(policy, s, input, Principal, day, x))
                  && (exists x :: !Fits(policy, s, input, Installation, day, x)))
            && (reply.Refused? ==> reply.code.UsageLimitReached?)
  {
    FitsEverywhere(policy, s, input, Principal, day);
    FitsEverywhere(policy, s, input, Installation, day);
  }

  lemma FitsEverywhere(policy: Policy, s: Ledger, input: Input, scope: Scope, day: nat)
    ensures Exceeded(policy, s.rows, input, scope, day) <==> exists x :: !Fits(policy, s, input, scope, day, x)
  {
    if Exceeded(policy, s.rows, input, scope, day) {
      assert !Fits(policy, s, input, scope, day, Requests) || !Fits(policy, s, input, scope, day, InputBytes)
          || !Fits(policy, s, input, scope, day, OutputUnits) || !Fits(policy, s, input, scope, day, TotalTokens);
    }
  }

  /** A finalization is refused exactly when its token names no row of that operation, or
      when it asks a reserved row to settle on numbers or a hash that are not valid; else
      it answers with the row, and a row that had an outcome answers with that one. */
  lemma FinalizeAnswers(s: Ledger, k: Key, fence: nat, f: Final)
    requires Fenced(s)
    ensures FinalizeReply(s, k.operation, fence, f) == Refused(StaleFencing) <==>
              forall j :: j in s.rows && s.rows[j].fence == fence ==> j.operation != k.operation
    ensures k in s.rows && s.rows[k].fence == fence ==>
              && FinalizeReply(s, k.operation, fence, f) == Finalized(s.rows[k], f)
              && (s.rows[k].state != Reserved ==> FinalizeStep(s, k.operation, fence, f) == s)
              && (forall j :: j != k && j in s.rows ==>
                    var late := FinalizeStep(s, k.operation, fence, f).rows; j in late && late[j] == s.rows[j])
  {
    var found := Find(s.rows, k.operation, fence);
    if k in s.rows && s.rows[k].fence == fence {
      assert IsFenced(s.rows, k, k.operation, fence);
    }
    forall j | j in s.rows && s.rows[j].fence == fence && j.operation == k.operation
      ensures found.At?
    {
      assert IsFenced(s.rows, j, k.operation, fence);
    }
  }

  /** Reserving again with the same binding finds the same row for good, whatever else
      happened to the ledger; any other binding is a conflict. Neither changes anything. */
  lemma ReserveAgain(policy: Policy, start: Ledger, events: seq<Event>, early: nat, input: Input, again: Input,
                     day: nat)
    requires early <= |events| && again.key == input.key
    requires again.formed && again.account != LEGACY && again.amount.Valid() && again.amount.requests == 1
    requires input.key in Run(policy, start, events[..early]).rows
    requires SameBinding(Run(policy, start, events[..early]).rows[input.key], input)
    ensures var s := Run(policy, start, events);
            && input.key in s.rows && ReserveStep(policy, s, again, day) == s
            && ReserveReply(policy, s, again, day) ==
                 if again.installation == input.installation && again.capability == input.capability
                    && again.fingerprint == input.fingerprint && again.amount == input.amount
                    && (again.account == input.account || input.account == LEGACY)
                 then Receipt(true, s.rows[input.key]) else Refused(OperationConflict)
  {
    RowsEvolve(policy, start, events, early, input.key);
  }
}
