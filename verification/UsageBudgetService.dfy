/** SqliteUsageBudgetService of gateway/usageBudget.ts as the class it is: every method is
    one transaction on the table, proved against the specification UsageLedger. */
module UsageService {
  import opened Sums
  import opened UsageLedger
  import opened UsageBounds

  class UsageBudgetService {
    const policy: Policy
    var rows: Rows
    /** The next value of the AUTOINCREMENT column `fencing_token`. */
    var nextFence: nat

    function View(): Ledger
      reads this
    {
      Ledger(rows, nextFence)
    }

    ghost predicate Valid()
      reads this
    {
      Fenced(View())
    }

    constructor (policy: Policy)
      ensures Valid() && this.policy == policy && View() == Empty
    {
      this.policy := policy;
      rows, nextFence := map[], 1;
    }

    method ReserveUsage(input: Input, day: nat) returns (reply: Reply)
      requires Valid()
      modifies this
      ensures Valid()
      ensures reply == ReserveReply(policy, old(View()), input, day)
      ensures View() == ReserveStep(policy, old(View()), input, day)
    {
      StepKeepsFenced(policy, View(), Reserve(input, day));
      hide Fenced, Exceeded;
      if !input.formed || input.account == LEGACY {
        return Refused(OperationConflict);
      }
      if !input.amount.Valid() || input.amount.requests != 1 {
        return Refused(BudgetUnavailable);
      }
      if input.key in rows {
        var existing := rows[input.key];
        if existing.account == LEGACY {
          if !SameLegacyBinding(existing, input) {
            return Refused(OperationConflict);
          }
          return Receipt(true, existing);
        }
        if !SameBinding(existing, input) {
          return Refused(OperationConflict);
        }
        return Receipt(true, existing);
      }
      var refusal := AssertWithinBudget(input, day);
      if refusal.Refused? {
        return refusal;
      }
      var row := NewRow(input, day, nextFence);
      rows := rows[input.key := row];
      nextFence := nextFence + 1;
      return Receipt(false, row);
    }

    /** Compares what the principal and the installation have used with both limits. */
    method AssertWithinBudget(input: Input, day: nat) returns (reply: Reply)
      ensures reply.Refused? <==>
                Exceeded(policy, rows, input, Principal, day) || Exceeded(policy, rows, input, Installation, day)
      ensures reply.Refused? ==> reply.code == UsageLimitReached(
                if Exceeded(policy, rows, input, Principal, day) then Principal else Installation)
    {
      hide SpentAmount;
      var principal, installation := SumUsage(input, day);
      var limits := policy.For(input.capability);
      var principalExceeded := principal.Plus(input.amount).Exceeds(limits.principal);
      var installationExceeded := installation.Plus(input.amount).Exceeds(limits.installation);
      if principalExceeded || installationExceeded {
        return Refused(UsageLimitReached(if principalExceeded then Principal else Installation));
      }
      return Receipt(false, NewRow(input, day, 0));
    }

    method SumUsage(input: Input, day: nat) returns (principal: Amount, installation: Amount)
      ensures principal == SpentAmount(rows, Select(input, Principal, day))
      ensures installation == SpentAmount(rows, Select(input, Installation, day))
    {
      hide SpentAmount;
      principal, installation := ZERO, ZERO;
      ghost var p, i := Select(input, Principal, day), Select(input, Installation, day);
      var rest := rows;
      while rest != map[]
        invariant principal.Plus(SpentAmount(rest, p)) == SpentAmount(rows, p)
        invariant installation.Plus(SpentAmount(rest, i)) == SpentAmount(rows, i)
        decreases |rest|
      {
        var k :| k in rest;
        var row := rest[k];
        SpentWithout(rest, p, k);
        SpentWithout(rest, i, k);
        rest := rest - {k};
        if row.period != day || row.capability != input.capability || row.state == Released {
          continue;
        }
        var counted := if row.state == Settled then row.actual else row.reserved;
        if k.principal == input.key.principal {
          principal := principal.Plus(counted);
        }
        if k.principal == input.key.principal && row.installation == input.installation {
          installation := installation.Plus(counted);
        }
      }
      NothingSpent(p);
      NothingSpent(i);
    }

    /** `settle`, `release` and `markOutcomeUnknown` differ in the outcome they ask for. */
    method FinalizeUsage(operation: Name, fence: nat, f: Final) returns (reply: Reply)
      requires Valid()
      modifies this
      ensures Valid()
      ensures reply == FinalizeReply(old(View()), operation, fence, f)
      ensures View() == FinalizeStep(old(View()), operation, fence, f)
    {
      StepKeepsFenced(policy, View(), Finalize(operation, fence, f));
      var found := GetForFinalize(operation, fence);
      hide Fenced;
      if found.Absent? {
        return Refused(StaleFencing);
      }
      reply := Finalized(rows[found.key], f);
      if reply.Receipt? {
        rows := rows[found.key := reply.row];
      }
    }

    method GetForFinalize(operation: Name, fence: nat) returns (found: Found)
      requires Valid()
      ensures found == Find(rows, operation, fence)
    {
      var rest := rows;
      while rest != map[]
        invariant rest.Keys <= rows.Keys
        invariant forall k :: k in rows && k !in rest ==> rows[k].fence != fence
        decreases |rest|
      {
        var k :| k in rest;
        if rows[k].fence == fence {
          if k.operation == operation {
            assert IsFenced(rows, k, operation, fence);
            return At(k);
          }
          return Absent;
        }
        rest := rest - {k};
      }
      return Absent;
    }
  }

  lemma NothingSpent(sel: Selection)
    ensures SpentAmount(map[], sel) == ZERO
  {
    assert forall x :: CountedWeights(map[], sel, x) == map[];
  }

  lemma SpentWithout(rows: Rows, sel: Selection, k: Key)
    requires k in rows
    ensures SpentAmount(rows, sel)
         == SpentAmount(rows - {k}, sel).Plus(if sel.Selects(k, rows[k]) then rows[k].Counted() else ZERO)
  {
    hide Spent;
    SpentWithoutOn(rows, sel, k, Requests);
    SpentWithoutOn(rows, sel, k, InputBytes);
    SpentWithoutOn(rows, sel, k, OutputUnits);
    SpentWithoutOn(rows, sel, k, TotalTokens);
  }

  lemma SpentWithoutOn(rows: Rows, sel: Selection, k: Key, x: Axis)
    requires k in rows
    ensures Spent(rows, sel, x) ==
              Spent(rows - {k}, sel, x) + if sel.Selects(k, rows[k]) then rows[k].Counted().Of(x) else 0
  {
    var weights := CountedWeights(rows, sel, x);
    assert CountedWeights(rows - {k}, sel, x) == weights - {k};
    if sel.Selects(k, rows[k]) { TotalSplit(weights, k); } else { assert weights - {k} == weights; }
  }
}
