/** What each event of the video relay comes to in every reachable world: which operation it
    ends or starts, what the owner and the account are charged, and what it leaves alone. */
module VideoOutcomes {
  import opened Sums
  import opened VideoRelay
  import opened VideoFence

  // ---- Live work ----

  /** The provider is being asked for this operation. */
  ghost predicate Live(w: World, id: Id) { exists r :: r in w.flights && w.flights[r] == Executing(id) }

  /** The set of active submissions is the truth, and keys and waiting requests name
      operations that exist. */
  ghost predicate Tracked(w: World) {
    && (forall id :: id in w.active <==> Live(w, id))
    && (forall r, q :: r in w.flights && q in w.flights && w.flights[r].Executing? && w.flights[r] == w.flights[q] ==>
          r == q)
    && (forall r :: r in w.flights ==>
          && w.flights[r].operation in w.operations
          && (w.flights[r].Executing? ==> w.operations[w.flights[r].operation].fenced))
    && (forall k :: k in w.keys ==> w.keys[k].resource in w.operations)
  }

  /** Operations stay, and a fence once crossed stays crossed. */
  ghost predicate Grows(a: map<Id, Operation>, b: map<Id, Operation>) {
    forall id :: id in a ==> id in b && (a[id].fenced ==> b[id].fenced)
  }

  /** A step that leaves the requests alone keeps track of them. */
  lemma QuietKeepsTracked(w: World, t: World)
    requires Tracked(w) && Grows(w.operations, t.operations) && t.flights == w.flights && t.active == w.active
    requires forall k :: k in t.keys ==> (k in w.keys && t.keys[k] == w.keys[k]) || t.keys[k].resource in t.operations
    ensures Tracked(t)
  {
    forall id ensures id in t.active <==> Live(t, id) { assert id in w.active <==> Live(w, id); }
  }

  lemma EndKeepsTracked(w: World, r: Request, t: World)
    requires Tracked(w) && r in w.flights && Grows(w.operations, t.operations) && t.keys == w.keys
    requires t.flights == w.flights - {r}
    requires t.active == if w.flights[r].Executing? then w.active - {w.flights[r].operation} else w.active
    ensures Tracked(t)
  {
    forall id ensures id in t.active <==> Live(t, id) {
      if Live(w, id) {
        var q :| q in w.flights && w.flights[q] == Executing(id);
        if q != r { assert q in t.flights; }
      }
    }
  }

  lemma StartKeepsTracked(w: World, r: Request, id: Id, t: World)
    requires Tracked(w) && r !in w.flights && Grows(w.operations, t.operations) && id in t.operations
    requires t.flights == w.flights[r := Preparing(id)] && t.active == w.active
    requires forall k :: k in t.keys ==> t.keys[k].resource in t.operations
    ensures Tracked(t)
  {
    forall j ensures j in t.active <==> Live(t, j) {
      if Live(w, j) {
        var q :| q in w.flights && w.flights[q] == Executing(j);
        assert q in t.flights && t.flights[q] == Executing(j);
      }
    }
  }

  lemma FenceKeepsTracked(w: World, r: Request)
    requires Tracked(w)
    ensures Tracked(FenceStep(w, r))
  {
    if r in w.flights && w.flights[r].Preparing? {
      var id, t := w.flights[r].operation, FenceStep(w, r);
      if Unfenced(w, id) {
        forall j ensures j in t.active <==> Live(t, j) {
          if j == id {
            assert r in t.flights && t.flights[r] == Executing(j);
          } else if Live(w, j) {
            var q :| q in w.flights && w.flights[q] == Executing(j);
            assert q in t.flights && t.flights[q] == Executing(j);
          }
        }
      } else {
        EndKeepsTracked(w, r, t);
      }
    }
  }

  lemma ArriveKeepsTracked(w: World, p: Post)
    requires Tracked(w)
    ensures Tracked(ArriveStep(w, p))
  {
    hide LocalTaken, QuotaVerdict, SetState, RetainQuota, Tracked;
    var t := ArriveStep(w, p);
    if Fresh(w, p) {
      match ArriveVerdict(w, p)
      case Proceeds(id) => ProceedKeepsTracked(w, p, id);
      case InterruptedReply(id) => WriteIsQuiet(w, id, OutcomeUnknown, Retain); QuietKeepsTracked(w, t);
      case _ =>
    }
  }

  lemma ProceedKeepsTracked(w: World, p: Post, id: Id)
    requires Tracked(w) && Fresh(w, p) && ArriveVerdict(w, p) == Proceeds(id)
    ensures Tracked(ArriveStep(w, p))
  {
    hide LocalTaken, QuotaVerdict;
    StartKeepsTracked(w, p.request, id, ArriveStep(w, p));
  }

  /** Only operations and charges change, and no operation is lost or unfenced. */
  ghost predicate Quiet(w: World, t: World) {
    Grows(w.operations, t.operations) && t == w.(operations := t.operations, quotas := t.quotas)
  }

  lemma WriteIsQuiet(w: World, id: Id, state: OperationState, charge: Charge)
    requires id in w.operations
    ensures Quiet(w, ReleaseQuota(SetState(w, id, state), w.operations[id].quota))
    ensures Quiet(w, RetainQuota(SetState(w, id, state), w.operations[id].quota))
    ensures Quiet(w, ChargeQuota(SetState(w, id, state), w.operations[id].quota, charge))
  {
    hide SettledRow;
    OnlyCharges(SetState(w, id, state), w.operations[id].quota, charge);
  }

  lemma OnlyCharges(w: World, q: Id, charge: Charge)
    ensures ReleaseQuota(w, q) == w.(quotas := ReleaseQuota(w, q).quotas)
    ensures RetainQuota(w, q) == w.(quotas := RetainQuota(w, q).quotas)
    ensures ChargeQuota(w, q, charge) == w.(quotas := ChargeQuota(w, q, charge).quotas)
  {
  }

  lemma FailIsQuiet(w: World, id: Id)
    ensures Quiet(w, FailBeforeProvider(w, id))
  {
    hide ReleaseQuota, SetState;
    if Unfenced(w, id) { WriteIsQuiet(w, id, Failed, Keep); }
  }

  lemma StepKeepsTracked(w: World, e: Event)
    requires Tracked(w)
    ensures Tracked(Step(w, e))
  {
    hide Tracked, ArriveStep, FenceStep;
    match e
    case Arrive(p) => ArriveKeepsTracked(w, p);
    case Fence(r) => FenceKeepsTracked(w, r);
    case Restart => RestartKeepsTracked(w);
    case _ => OthersKeepTracked(w, e);
  }

  lemma RestartKeepsTracked(w: World)
    requires Tracked(w)
    ensures Tracked(RestartStep(w))
  {
  }

  lemma OthersKeepTracked(w: World, e: Event)
    requires Tracked(w) && !e.Arrive? && !e.Fence? && !e.Restart?
    ensures Tracked(Step(w, e))
  {
    hide Tracked, FailBeforeProvider, SetState, ReleaseQuota, RetainQuota, ChargeQuota;
    var t := Step(w, e);
    match e
    case Fail(r) =>
      if r in w.flights && w.flights[r].Preparing? {
        FailIsQuiet(w, w.flights[r].operation);
        EndKeepsTracked(w, r, t);
      }
    case Settled(r) => if r in w.flights && w.flights[r].Executing? { EndKeepsTracked(w, r, t); }
    case Conclude(id, state, charge) =>
      if id in w.operations { WriteIsQuiet(w, id, state, charge); }
      QuietKeepsTracked(w, t);
    case Cancel(id, _, _, _) =>
      if Unfenced(w, id) { WriteIsQuiet(w, id, Cancelled, Keep); }
      QuietKeepsTracked(w, t);
    case SweepOrphan(id, _) =>
      FailIsQuiet(w, id);
      QuietKeepsTracked(w, t);
    case SweepInterrupted(id, _) =>
      if Interrupted(w, id) { WriteIsQuiet(w, id, OutcomeUnknown, Retain); }
      QuietKeepsTracked(w, t);
  }

  lemma {:induction false} Reachable(events: seq<Event>)
    ensures Inv(Run(Initial, events)) && Tracked(Run(Initial, events))
    decreases |events|
  {
    hide Step, Inv, Tracked;
    RunKeepsInv(events);
    if events == [] {
      NothingTracked();
    } else {
      Reachable(events[..|events| - 1]);
      StepKeepsTracked(Run(Initial, events[..|events| - 1]), events[|events| - 1]);
    }
  }

  lemma NothingTracked()
    ensures Tracked(Initial)
  {
  }

  /** A run takes its events one by one. */
  lemma RunNext(w: World, events: seq<Event>, e: Event)
    ensures Run(w, []) == w && Run(w, events + [e]) == Step(Run(w, events), e)
  {
    hide Step;
    assert (events + [e])[..|events|] == events;
  }

  // ---- What is charged ----

  lemma SpentUpdate(quotas: map<Id, Quota>, q: Id, row: Quota, sel: Selection)
    requires q in quotas && (sel.Selects(row) <==> sel.Selects(quotas[q]))
    ensures Spent(quotas[q := row], sel) ==
              Spent(quotas, sel) + if sel.Selects(row) then row.Charged() - quotas[q].Charged() else 0
  {
    var weights := Weights(quotas, sel);
    if sel.Selects(row) {
      TotalUpdate(weights, q, row.Charged());
      assert Weights(quotas[q := row], sel) == weights[q := row.Charged()];
    } else {
      assert Weights(quotas[q := row], sel) == weights;
    }
  }

  lemma SpentInsert(quotas: map<Id, Quota>, q: Id, row: Quota, sel: Selection)
    requires q !in quotas
    ensures Spent(quotas[q := row], sel) == Spent(quotas, sel) + if sel.Selects(row) then row.Charged() else 0
  {
    var weights := Weights(quotas, sel);
    if sel.Selects(row) {
      TotalInsert(weights, q, row.Charged());
      assert Weights(quotas[q := row], sel) == weights[q := row.Charged()];
    } else {
      assert Weights(quotas[q := row], sel) == weights;
    }
  }

  /** The operation `id` is in this state now, and its owner and account are charged so much
      more for it; nothing else about operations and charges has changed. */
  ghost predicate Ends(w: World, t: World, id: Id, state: OperationState, more: int) {
    && id in w.operations && w.operations[id].quota in w.quotas
    && t.operations == w.operations[id := w.operations[id].(state := state)]
    && t.executions == w.executions
    && (forall sel: Selection :: Spent(t.quotas, sel) ==
          Spent(w.quotas, sel) + if sel.Selects(w.quotas[w.operations[id].quota]) then more else 0)
    && (forall q :: q in w.quotas && q != w.operations[id].quota ==> q in t.quotas && t.quotas[q] == w.quotas[q])
  }

  lemma WriteEnds(w: World, id: Id, state: OperationState, row: Quota, t: World)
    requires id in w.operations && w.operations[id].quota in w.quotas
    requires var before := w.quotas[w.operations[id].quota];
             row.owner == before.owner && row.period == before.period && row.account == before.account
    requires t == w.(operations := w.operations[id := w.operations[id].(state := state)],
                     quotas := w.quotas[w.operations[id].quota := row])
    ensures Ends(w, t, id, state, row.Charged() - w.quotas[w.operations[id].quota].Charged())
  {
    hide Spent, Quota.Charged;
    forall sel: Selection
      ensures Spent(t.quotas, sel) == Spent(w.quotas, sel) +
                if sel.Selects(w.quotas[w.operations[id].quota])
                then row.Charged() - w.quotas[w.operations[id].quota].Charged() else 0
    {
      SpentUpdate(w.quotas, w.operations[id].quota, row, sel);
    }
  }

  /** What an operation reserved. */
  function Units(w: World, id: Id): int
    requires id in w.operations && w.operations[id].quota in w.quotas
  {
    w.quotas[w.operations[id].quota].units
  }

  /** An operation that was not submitted gives its reservation back in full. */
  lemma FailEnds(w: World, id: Id)
    requires Inv(w) && Unfenced(w, id)
    ensures w.operations[id].quota in w.quotas
    ensures Ends(w, FailBeforeProvider(w, id), id, Failed, -Units(w, id))
  {
    QuotaOf(w, id);
    hide Inv, Ends;
    var row := w.quotas[w.operations[id].quota];
    WriteEnds(w, id, Failed, row.(state := Released), FailBeforeProvider(w, id));
  }

  /** A failure before the fence ends an unsubmitted operation and its request, else only the
      request. */
  lemma FailExactly(events: seq<Event>, r: Request)
    requires r in Run(Initial, events).flights && Run(Initial, events).flights[r].Preparing?
    ensures var w := Run(Initial, events); var id, t := w.flights[r].operation, Step(w, Fail(r));
            && id in w.operations && w.operations[id].quota in w.quotas
            && t.flights == w.flights - {r} && t.keys == w.keys && t.active == w.active
            && if w.operations[id].state == Accepted && !w.operations[id].fenced
               then Ends(w, t, id, Failed, -Units(w, id)) else t == w.(flights := t.flights)
  {
    Reachable(events);
    var w := Run(Initial, events);
    hide Run;
    var id := w.flights[r].operation;
    QuotaOf(w, id);
    hide Inv, Tracked;
    if Unfenced(w, id) { FailEnds(w, id); }
  }

  /** A cancellation ends exactly an unsubmitted operation of its owner under a key that is
      not used yet, and the key then answers for it. */
  lemma CancelExactly(events: seq<Event>, id: Id, owner: Name, key: Name, hash: Name)
    requires id in Run(Initial, events).operations
    ensures var w := Run(Initial, events); var t, o := Step(w, Cancel(id, owner, key, hash)), w.operations[id];
            && o.quota in w.quotas
            && t.flights == w.flights && t.active == w.active
            && if o.state == Accepted && !o.fenced && o.owner == owner && Key(owner, key) !in w.keys
               then Ends(w, t, id, Cancelled, -Units(w, id)) && t.keys == w.keys[Key(owner, key) := Bound(hash, id)]
               else t == w
  {
    Reachable(events);
    var w := Run(Initial, events);
    hide Run;
    QuotaOf(w, id);
    hide Inv, Tracked, Ends;
    if Unfenced(w, id) {
      CancelEnds(w, id);
      var t := ReleaseQuota(SetState(w, id, Cancelled), w.operations[id].quota);
      EndsBut(w, t, t.(keys := t.keys[Key(owner, key) := Bound(hash, id)]), id, Cancelled, -Units(w, id));
    }
  }

  lemma CancelEnds(w: World, id: Id)
    requires Inv(w) && Unfenced(w, id)
    ensures w.operations[id].quota in w.quotas
    ensures Ends(w, ReleaseQuota(SetState(w, id, Cancelled), w.operations[id].quota), id, Cancelled, -Units(w, id))
  {
    QuotaOf(w, id);
    hide Inv, Ends;
    var row := w.quotas[w.operations[id].quota];
    WriteEnds(w, id, Cancelled, row.(state := Released),
        ReleaseQuota(SetState(w, id, Cancelled), w.operations[id].quota));
  }

  lemma EndsBut(w: World, t: World, u: World, id: Id, state: OperationState, more: int)
    requires Ends(w, t, id, state, more)
    requires u.operations == t.operations && u.executions == t.executions && u.quotas == t.quotas
    ensures Ends(w, u, id, state, more)
  {
    hide Spent;
  }

  /** The sweep ends exactly the aged orphans of earlier processes. */
  lemma SweepOrphanExactly(events: seq<Event>, id: Id, aged: bool)
    requires id in Run(Initial, events).operations
    ensures var w := Run(Initial, events); var t, o := Step(w, SweepOrphan(id, aged)), w.operations[id];
            && o.quota in w.quotas
            && if o.state == Accepted && !o.fenced && o.process < w.process && aged
               then Ends(w, t, id, Failed, -Units(w, id)) && t == w.(operations := t.operations, quotas := t.quotas)
               else t == w
  {
    Reachable(events);
    var w := Run(Initial, events);
    hide Run;
    QuotaOf(w, id);
    hide Inv, Tracked, Ends;
    FailIsQuiet(w, id);
    if Unfenced(w, id) { FailEnds(w, id); }
  }

  // ---- The fence and the provider ----

  /** The one that crosses the fence asks the provider, for the first time; a loser only gives
      up its own wait. */
  lemma FenceExactly(events: seq<Event>, r: Request)
    requires r in Run(Initial, events).flights && Run(Initial, events).flights[r].Preparing?
    ensures var w := Run(Initial, events); var id, t := w.flights[r].operation, Step(w, Fence(r));
            && id in w.operations
            && if w.operations[id].state == Accepted && !w.operations[id].fenced
               then && t.operations == w.operations[id := w.operations[id].(fenced := true)]
                    && t.flights == w.flights[r := Executing(id)] && Live(t, id)
                    && t.quotas == w.quotas && t.keys == w.keys
                    && var l := Local(w.operations[id].owner, w.operations[id].local);
                       Executions(w, l) == 0 && Executions(t, l) == 1 && t.executions == w.executions[l := 1]
               else t == w.(flights := w.flights - {r})
  {
    Reachable(events);
    var w := Run(Initial, events);
    hide Run, UniqueLocals, OwnQuotas, FencesFit;
    var id, t := w.flights[r].operation, Step(w, Fence(r));
    if Unfenced(w, id) {
      FencedExecution(w.operations, w.executions, id, Local(w.operations[id].owner, w.operations[id].local));
      assert t.flights[r] == Executing(id);
    }
  }

  /** What the provider's outcome makes of the charge: a settled operation costs what it used,
      but never less than it reserved; an unknown one costs its reservation. */
  function Cost(row: Quota, charge: Charge): nat {
    match charge
    case Settle(units) => if units > row.units then units else row.units
    case _ => row.Charged()
  }

  lemma ConcludeExactly(events: seq<Event>, id: Id, state: OperationState, charge: Charge)
    requires id in Run(Initial, events).operations && state != Accepted
    ensures var w := Run(Initial, events); var t := Step(w, Conclude(id, state, charge));
            if w.operations[id].fenced then Concludes(w, t, id, state, charge) else t == w
  {
    Reachable(events);
    hide Run, Inv, Tracked, Concludes;
    var w := Run(Initial, events);
    if w.operations[id].fenced { ConcludedExactly(w, id, state, charge); }
  }

  ghost predicate Concludes(w: World, t: World, id: Id, state: OperationState, charge: Charge)
    requires id in w.operations
  {
    && w.operations[id].quota in w.quotas && w.operations[id].quota in t.quotas
    && var row, late := w.quotas[w.operations[id].quota], t.quotas[w.operations[id].quota];
       && Ends(w, t, id, state, Cost(row, charge) - row.Charged())
       && t == w.(operations := t.operations, quotas := t.quotas)
       && late.units == row.units
       && (charge.Settle? ==> late.state == QuotaState.Settled)
       && (!charge.Settle? ==> late.Charged() == row.Charged())
       && (charge.Retain? ==> late.state != Reserved)
  }

  lemma ConcludedExactly(w: World, id: Id, state: OperationState, charge: Charge)
    requires Inv(w) && id in w.operations && w.operations[id].fenced && state != Accepted
    ensures Concludes(w, ConcludeStep(w, id, state, charge), id, state, charge)
  {
    QuotaOf(w, id);
    ConcludeIs(w, id, state, charge);
    hide Inv, Ends, ConcludeStep;
    WriteEnds(w, id, state, ChargedRow(w.quotas[w.operations[id].quota], charge), ConcludeStep(w, id, state, charge));
  }

  /** The end of a provider call ends its request, and a restart ends all; neither touches
      operations, charges, keys or counts. */
  lemma EndsLeaveTables(w: World, r: Request)
    ensures var t := Step(w, Event.Settled(r));
            if r in w.flights && w.flights[r].Executing?
            then t == w.(flights := w.flights - {r}, active := w.active - {w.flights[r].operation}) else t == w
    ensures Step(w, Restart) == w.(flights := map[], active := {}, process := w.process + 1)
  {
  }

  // ---- A POST under a bound key ----

  /** The operation is unknown now and costs what it cost; a reservation is held as unknown. */
  ghost predicate BecomesUnknown(w: World, t: World, id: Id) {
    && Ends(w, t, id, OutcomeUnknown, 0) && t == w.(operations := t.operations, quotas := t.quotas)
    && var q := w.operations[id].quota;
       q in t.quotas && t.quotas[q].state == if w.quotas[q].state == Reserved then Unknown else w.quotas[q].state
  }

  lemma InterruptedEnds(w: World, id: Id)
    requires Inv(w) && Interrupted(w, id)
    ensures BecomesUnknown(w, RetainQuota(SetState(w, id, OutcomeUnknown), w.operations[id].quota), id)
  {
    QuotaOf(w, id);
    SameQuota(w, id);
    hide Inv, Ends;
    var row := w.quotas[w.operations[id].quota];
    WriteEnds(w, id, OutcomeUnknown, if row.state == Reserved then row.(state := Unknown) else row,
        RetainQuota(SetState(w, id, OutcomeUnknown), w.operations[id].quota));
  }

  /** A repeated request: finished work is shown, live work is shown and left alone, an
      interrupted submission becomes unknown, and only what never reached the fence goes on. */
  lemma ReplayExactly(events: seq<Event>, p: Post)
    requires var w := Run(Initial, events);
             && Fresh(w, p) && Key(p.owner, p.key) in w.keys && w.keys[Key(p.owner, p.key)].hash == p.hash
    ensures var w := Run(Initial, events); var id := w.keys[Key(p.owner, p.key)].resource;
            var t, v := Step(w, Arrive(p)), ArriveVerdict(w, p);
            && id in w.operations
            && var o := w.operations[id];
               if o.state != Accepted || (o.fenced && (p.publishing || Live(w, id))) then v == Projected(id) && t == w
               else if o.fenced then v == InterruptedReply(id) && BecomesUnknown(w, t, id)
               else if p.ready then v == Proceeds(id) && t == w.(flights := w.flights[p.request := Preparing(id)])
               else v == NotReady && t == w
  {
    Reachable(events);
    var w := Run(Initial, events);
    hide Run;
    var id := w.keys[Key(p.owner, p.key)].resource;
    assert id in w.active <==> Live(w, id);
    hide Inv, Tracked, BecomesUnknown, LocalTaken;
    if Interrupted(w, id) { InterruptedEnds(w, id); }
  }

  /** While the provider is being asked, neither a request under a key of the operation nor
      the sweep changes anything. */
  lemma LiveIsLeftAlone(events: seq<Event>, r: Request, p: Post, publishing: bool, aged: bool)
    requires var w := Run(Initial, events);
             && r in w.flights && w.flights[r].Executing?
             && Key(p.owner, p.key) in w.keys && w.keys[Key(p.owner, p.key)].resource == w.flights[r].operation
    ensures var w := Run(Initial, events); var id := w.flights[r].operation;
            && Step(w, Arrive(p)) == w
            && Step(w, SweepInterrupted(id, publishing)) == w && Step(w, SweepOrphan(id, aged)) == w
  {
    Reachable(events);
    var w := Run(Initial, events);
    hide Run;
    var id := w.flights[r].operation;
    assert w.flights[r] == Executing(id);
    assert Live(w, id) && id in w.active && w.operations[id].fenced;
    hide Inv, Tracked, LocalTaken;
  }

  /** The sweep makes unknown exactly the fenced submissions that nobody works on. */
  lemma SweepInterruptedExactly(events: seq<Event>, id: Id, publishing: bool)
    requires id in Run(Initial, events).operations
    ensures var w := Run(Initial, events); var t, o := Step(w, SweepInterrupted(id, publishing)), w.operations[id];
            if o.state == Accepted && o.fenced && !publishing && !Live(w, id) then BecomesUnknown(w, t, id) else t == w
  {
    Reachable(events);
    var w := Run(Initial, events);
    hide Run;
    assert id in w.active <==> Live(w, id);
    hide Inv, Tracked, BecomesUnknown;
    if Interrupted(w, id) { InterruptedEnds(w, id); }
  }

  // ---- A POST under a new key ----

  /** The limit that a new reservation would break, if any: a limit of zero stops all work,
      that of the account first; else the owner's total is looked at first. */
  ghost predicate Breaks(w: World, p: Post, scope: Scope) {
    var owner :=
      Spent(w.quotas, OfOwner(p.owner, p.period)) + p.units > p.policy.ownerDaily || p.policy.ownerDaily == 0;
    var account :=
      Spent(w.quotas, OfAccount(p.policy.account, p.period)) + p.units > p.policy.accountDaily
      || p.policy.accountDaily == 0;
    match scope
    case OwnerDaily => owner && p.policy.accountDaily != 0
    case AccountDaily => p.policy.accountDaily == 0 || (account && !owner)
  }

  ghost predicate Taken(w: World, p: Post) {
    exists id :: id in w.operations && w.operations[id].owner == p.owner && w.operations[id].local == p.local
  }

  /** A new request opens its operation exactly if its objects are ready, its local command is
      not taken and neither limit is broken; then its owner and the account, on that day, are
      charged exactly what it asks for, and nobody else anything. */
  lemma OpenExactly(events: seq<Event>, p: Post)
    requires Fresh(Run(Initial, events), p) && Key(p.owner, p.key) !in Run(Initial, events).keys
    ensures var w := Run(Initial, events); var t, v := Step(w, Arrive(p)), ArriveVerdict(w, p);
            if !p.ready then v == NotReady && t == w
            else if Taken(w, p) then v == LocalConflict && t == w
            else if Breaks(w, p, AccountDaily) then v == QuotaRefused(AccountDaily) && t == w
            else if Breaks(w, p, OwnerDaily) then v == QuotaRefused(OwnerDaily) && t == w
            else v == Proceeds(p.operation) && Opened(w, t, p)
  {
    var w := Run(Initial, events);
    hide Run, Spent;
    assert Taken(w, p) <==> LocalTaken(w, p);
    hide LocalTaken, Taken, Opened;
    if ArriveVerdict(w, p).Proceeds? { OpenedBy(w, p); }
  }

  ghost predicate Opened(w: World, t: World, p: Post) {
    && t.operations == w.operations[p.operation := Operation(p.owner, p.local, Accepted, false, p.quota, w.process)]
    && t.keys == w.keys[Key(p.owner, p.key) := Bound(p.hash, p.operation)]
    && t.flights == w.flights[p.request := Preparing(p.operation)]
    && t.executions == w.executions && t.active == w.active
    && (forall q :: q in w.quotas ==> q in t.quotas && t.quotas[q] == w.quotas[q])
    && p.quota in t.quotas && t.quotas[p.quota].state == Reserved
    && forall sel: Selection :: Spent(t.quotas, sel) == Spent(w.quotas, sel) +
         if sel == OfOwner(p.owner, p.period) || sel == OfAccount(p.policy.account, p.period) then p.units else 0
  }

  lemma OpenedBy(w: World, p: Post)
    requires Fresh(w, p)
    ensures Opened(w, Created(w, p).(flights := w.flights[p.request := Preparing(p.operation)]), p)
  {
    hide Spent;
    forall sel: Selection
      ensures Spent(Created(w, p).quotas, sel) == Spent(w.quotas, sel) +
                if sel == OfOwner(p.owner, p.period) || sel == OfAccount(p.policy.account, p.period) then p.units else 0
    {
      SpentInsert(w.quotas, p.quota, NewQuota(p), sel);
    }
  }
}
