/** The tables and the in-memory submission set of the video relay
    (video-media-relay/app.ts) as the objects they are, proved against VideoRelay. */
module VideoStoring {
  import opened Sums
  import opened VideoRelay
  import opened VideoFence

  class RelayStore {
    var operations: map<Id, Operation>
    var quotas: map<Id, Quota>
    var keys: map<Key, Bound>
    var flights: map<Request, Flight>
    var activeProviderSubmissions: set<Id>
    var process: nat
    /** How often provider.execute was called, for the claims about it. */
    var executions: map<Local, nat>

    function View(): World
      reads this
    {
      World(operations, quotas, keys, flights, activeProviderSubmissions, executions, process)
    }

    ghost predicate Valid()
      reads this
    {
      Inv(View())
    }

    constructor ()
      ensures Valid() && View() == Initial
    {
      operations, quotas, keys, flights := map[], map[], map[], map[];
      activeProviderSubmissions, process, executions := {}, 0, map[];
    }

    // ---- Quota rows ----

    method RetainUnknownQuota(q: Id)
      modifies this`quotas
      ensures View() == RetainQuota(old(View()), q)
    {
      if q in quotas && quotas[q].state == Reserved {
        quotas := quotas[q := quotas[q].(state := Unknown)];
      }
    }

    method ReleaseReservation(q: Id)
      modifies this`quotas
      ensures View() == ReleaseQuota(old(View()), q)
    {
      if q in quotas && quotas[q].state == Reserved {
        quotas := quotas[q := quotas[q].(state := Released)];
      }
    }

    method SettleReservation(q: Id, units: nat)
      modifies this`quotas
      ensures View() == SettleQuota(old(View()), q, units)
    {
      if q in quotas && quotas[q].state != Released {
        var row := quotas[q];
        var actualUnits := if units > row.units then units else row.units;
        quotas := quotas[q := row.(state := QuotaState.Settled, settledUnits := actualUnits)];
      }
    }

    method WriteState(id: Id, state: OperationState)
      requires id in operations
      modifies this`operations
      ensures View() == SetState(old(View()), id, state)
    {
      operations := operations[id := operations[id].(state := state)];
    }

    // ---- The POST of an operation ----

    method PostOperation(p: Post) returns (verdict: Verdict)
      requires Valid() && Fresh(View(), p)
      modifies this
      ensures Valid() && verdict == ArriveVerdict(old(View()), p) && View() == ArriveStep(old(View()), p)
    {
      hide Inv, LocalTaken, SetState, RetainQuota, QuotaVerdict;
      ArriveKeeps(View(), p);
      var key := Key(p.owner, p.key);
      if key in keys {
        if keys[key].hash != p.hash {
          return KeyConflict;
        }
        verdict := ReplayOperation(p, keys[key].resource);
        if verdict.Proceeds? {
          flights := flights[p.request := Preparing(verdict.operation)];
        }
        return;
      }
      if !p.ready {
        return NotReady;
      }
      var exceeded := ExceededQuota(p);
      var taken := FindLocal(p.owner, p.local);
      assert taken == LocalTaken(View(), p) by { LocalOf(View(), p); }
      if exceeded.Some? || taken {
        return if taken then LocalConflict else QuotaRefused(exceeded.value);
      }
      operations := operations[p.operation := Operation(p.owner, p.local, Accepted, false, p.quota, process)];
      quotas := quotas[p.quota := NewQuota(p)];
      keys := keys[key := Bound(p.hash, p.operation)];
      flights := flights[p.request := Preparing(p.operation)];
      return Proceeds(p.operation);
    }

    /** The test of both daily limits, if neither stops all work. */
    method ExceededQuota(p: Post) returns (exceeded: Option<Scope>)
      ensures exceeded == QuotaVerdict(quotas, p)
    {
      if p.policy.accountDaily == 0 {
        return Some(AccountDaily);
      }
      if p.policy.ownerDaily == 0 {
        return Some(OwnerDaily);
      }
      var ownerTotal := SumUnits(OfOwner(p.owner, p.period));
      if ownerTotal + p.units > p.policy.ownerDaily {
        return Some(OwnerDaily);
      }
      var accountTotal := SumUnits(OfAccount(p.policy.account, p.period));
      return if accountTotal + p.units > p.policy.accountDaily then Some(AccountDaily) else None;
    }

    method SumUnits(sel: Selection) returns (total: int)
      ensures total == Spent(quotas, sel)
    {
      total := 0;
      var rest := quotas;
      while rest != map[]
        invariant total + Spent(rest, sel) == Spent(quotas, sel)
        decreases |rest|
      {
        var q :| q in rest;
        SpentWithout(rest, sel, q);
        if sel.Selects(rest[q]) && rest[q].state != Released {
          total := total + if rest[q].state.Settled? then rest[q].settledUnits else rest[q].units;
        }
        rest := rest - {q};
      }
      assert Weights(map[], sel) == map[];
    }

    /** What a replayed key finds; an interrupted submission becomes unknown. */
    method ReplayOperation(p: Post, id: Id) returns (verdict: Verdict)
      modifies this`operations, this`quotas
      ensures verdict == ReplayVerdict(old(View()), p, id)
      ensures View() == if verdict.InterruptedReply?
                        then RetainQuota(SetState(old(View()), id, OutcomeUnknown), old(operations)[id].quota)
                        else old(View())
    {
      if id !in operations {
        return KeyConflict;
      }
      var row := operations[id];
      if row.state != Accepted {
        return Projected(id);
      }
      if row.fenced {
        if p.publishing || id in activeProviderSubmissions {
          return Projected(id);
        }
        WriteState(id, OutcomeUnknown);
        RetainUnknownQuota(row.quota);
        return InterruptedReply(id);
      }
      return if p.ready then Proceeds(id) else NotReady;
    }

    method FindLocal(owner: Name, local: Name) returns (taken: bool)
      ensures taken <==> exists id :: id in operations && operations[id].owner == owner && operations[id].local == local
    {
      var rest := operations.Keys;
      while rest != {}
        invariant rest <= operations.Keys
        invariant forall id :: id in operations && id !in rest ==>
                !(operations[id].owner == owner && operations[id].local == local)
        decreases |rest|
      {
        var id :| id in rest;
        if operations[id].owner == owner && operations[id].local == local {
          return true;
        }
        rest := rest - {id};
      }
      return false;
    }

    /** failBeforeProvider: the guarded write and the release are one transaction. */
    method FailUnsubmitted(id: Id) returns (transitioned: bool)
      modifies this`operations, this`quotas
      ensures transitioned == Unfenced(old(View()), id)
      ensures View() == FailBeforeProvider(old(View()), id)
    {
      if id !in operations || operations[id].state != Accepted || operations[id].fenced {
        return false;
      }
      var quota := operations[id].quota;
      WriteState(id, Failed);
      ReleaseReservation(quota);
      return true;
    }

    /** The write right before provider.execute; false for the loser of the race. */
    method CrossFence(r: Request) returns (owns: bool)
      requires Valid() && r in flights && flights[r].Preparing?
      modifies this
      ensures Valid() && owns == Unfenced(old(View()), old(flights)[r].operation)
      ensures View() == FenceStep(old(View()), r)
    {
      hide Inv;
      FenceKeeps(View(), r);
      var id := flights[r].operation;
      if id !in operations || operations[id].state != Accepted || operations[id].fenced {
        flights := flights - {r};
        return false;
      }
      var l := Local(operations[id].owner, operations[id].local);
      operations := operations[id := operations[id].(fenced := true)];
      flights := flights[r := Executing(id)];
      CountExecution(id, l);
      return true;
    }

    method CountExecution(id: Id, l: Local)
      modifies this`activeProviderSubmissions, this`executions
      ensures activeProviderSubmissions == old(activeProviderSubmissions) + {id}
      ensures executions == old(executions)[l := VideoRelay.Executions(old(View()), l) + 1]
    {
      activeProviderSubmissions := activeProviderSubmissions + {id};
      executions := executions[l := if l in executions then executions[l] + 1 else 1];
    }

    method CancelOperation(id: Id, owner: Name, key: Name, hash: Name) returns (cancelled: bool)
      requires Valid()
      modifies this
      ensures Valid() && View() == CancelStep(old(View()), id, owner, key, hash)
      ensures cancelled <==> View() != old(View())
    {
      hide Inv;
      CancelKeeps(View(), id, owner, key, hash);
      if id !in operations || operations[id].state != Accepted || operations[id].fenced
        || operations[id].owner != owner || Key(owner, key) in keys {
        return false;
      }
      ghost var before := operations;
      var quota := operations[id].quota;
      WriteState(id, Cancelled);
      assert operations[id].state != before[id].state;
      ReleaseReservation(quota);
      keys := keys[Key(owner, key) := Bound(hash, id)];
      return true;
    }

    // ---- The sweep ----

    /** sweepExpiredResources: fails what an earlier process left before the fence, marks
        what was interrupted after it. Nothing of either kind is left, except that operations
        in `young`, which changed within the grace time, may still be claimed as orphans. */
    method SweepOperations(publishing: set<Id>, young: set<Id>) returns (ghost events: seq<Event>)
      requires Valid()
      modifies this
      ensures Valid() && View() == Run(old(View()), events)
      ensures forall e :: e in events ==> e.SweepOrphan? || e.SweepInterrupted?
      ensures forall id :: Unfenced(View(), id) && operations[id].process < process ==> id in young
      ensures forall id :: id in young && Unfenced(old(View()), id) ==> Unfenced(View(), id)
      ensures forall id :: Interrupted(View(), id) ==> id in publishing || id in activeProviderSubmissions
    {
      hide Inv, SetState, Step;
      events := [];
      var rest := operations.Keys;
      while rest != {}
        invariant Valid() && View() == Run(old(View()), events) && rest <= operations.Keys
        invariant process == old(process) && activeProviderSubmissions == old(activeProviderSubmissions)
        invariant operations.Keys == old(operations).Keys
        invariant forall e :: e in events ==> e.SweepOrphan? || e.SweepInterrupted?
        invariant forall id :: id in operations && id !in rest ==> Swept(View(), id, publishing, young)
        invariant forall id :: id in young && Unfenced(old(View()), id) ==> Unfenced(View(), id)
        decreases |rest|
      {
        var id :| id in rest;
        ghost var w := View();
        ghost var es := [SweepOrphan(id, id !in young), SweepInterrupted(id, id in publishing)];
        SweptSteps(w, id, publishing, young);
        RunTwo(old(View()), events, es[0], es[1]);
        SweepOne(id, id in publishing, id !in young);
        events := events + es;
        rest := rest - {id};
      }
    }

    method SweepOne(id: Id, publishing: bool, aged: bool)
      requires id in operations
      modifies this`operations, this`quotas
      ensures View() == SweepInterruptedStep(SweepOrphanStep(old(View()), id, aged), id, publishing)
    {
      if operations[id].process < process && aged {
        var transitioned := FailUnsubmitted(id);
      }
      if operations[id].state == Accepted && operations[id].fenced && !publishing && id !in activeProviderSubmissions {
        var quota := operations[id].quota;
        WriteState(id, OutcomeUnknown);
        RetainUnknownQuota(quota);
      }
    }
  }

  lemma SpentWithout(quotas: map<Id, Quota>, sel: Selection, q: Id)
    requires q in quotas
    ensures Spent(quotas, sel) == Spent(quotas - {q}, sel) + if sel.Selects(quotas[q]) then quotas[q].Charged() else 0
  {
    var weights := Weights(quotas, sel);
    assert Weights(quotas - {q}, sel) == weights - {q};
    if sel.Selects(quotas[q]) { TotalSplit(weights, q); } else { assert weights - {q} == weights; }
  }

  lemma LocalOf(w: World, p: Post)
    ensures LocalTaken(w, p) <==>
              exists id :: id in w.operations && w.operations[id].owner == p.owner && w.operations[id].local == p.local
  {
  }

  predicate Swept(w: World, id: Id, publishing: set<Id>, young: set<Id>) {
    && (Unfenced(w, id) && w.operations[id].process < w.process ==> id in young)
    && (Interrupted(w, id) ==> id in publishing || id in w.active)
  }

  /** `t` differs from `w` in this operation and the quota at most. */
  predicate OnlyAt(w: World, t: World, id: Id) {
    && t.process == w.process && t.active == w.active && t.operations.Keys == w.operations.Keys
    && (forall j :: j != id && j in w.operations ==> t.operations[j] == w.operations[j])
  }

  lemma OrphanSwept(w: World, id: Id, young: set<Id>)
    requires id in w.operations
    ensures var t := SweepOrphanStep(w, id, id !in young);
            && OnlyAt(w, t, id) && (Unfenced(t, id) && t.operations[id].process < t.process ==> id in young)
            && (id in young ==> t == w)
  {
  }

  lemma InterruptedSwept(w: World, id: Id, publishing: set<Id>, young: set<Id>)
    requires id in w.operations && (Unfenced(w, id) && w.operations[id].process < w.process ==> id in young)
    ensures var t := SweepInterruptedStep(w, id, id in publishing);
            OnlyAt(w, t, id) && Swept(t, id, publishing, young) && (Unfenced(w, id) ==> t == w)
  {
  }

  /** Sweeping one operation sweeps it and leaves the others as they are. */
  lemma SweptSteps(w: World, id: Id, publishing: set<Id>, young: set<Id>)
    requires Inv(w) && id in w.operations
    ensures var t := Step(Step(w, SweepOrphan(id, id !in young)), SweepInterrupted(id, id in publishing));
            && Inv(t) && t == SweepInterruptedStep(SweepOrphanStep(w, id, id !in young), id, id in publishing)
            && OnlyAt(w, t, id) && Swept(t, id, publishing, young) && (id in young && Unfenced(w, id) ==> t == w)
  {
    hide Inv, Swept, Unfenced, SweepOrphanStep, SweepInterruptedStep;
    var orphan := SweepOrphan(id, id !in young);
    StepKeeps(w, orphan);
    StepKeeps(Step(w, orphan), SweepInterrupted(id, id in publishing));
    OrphanSwept(w, id, young);
    InterruptedSwept(SweepOrphanStep(w, id, id !in young), id, publishing, young);
  }

  lemma RunTwo(w: World, events: seq<Event>, a: Event, b: Event)
    ensures Run(w, events + [a, b]) == Step(Step(Run(w, events), a), b)
  {
    hide Step;
    assert (events + [a, b])[..|events| + 1] == events + [a];
    assert (events + [a])[..|events|] == events;
  }
}
