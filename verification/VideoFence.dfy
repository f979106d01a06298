/** What the submission fence of the video relay promises over all interleavings. */
module VideoFence {
  import opened VideoRelay

  // ---- The invariant ----

  /** One operation for each local operation of an owner. */
  ghost predicate UniqueLocals(ops: map<Id, Operation>) {
    forall a, b :: a in ops && b in ops && ops[a].owner == ops[b].owner && ops[a].local == ops[b].local ==> a == b
  }

  /** Every operation has a reservation of its own. */
  ghost predicate OwnQuotas(ops: map<Id, Operation>, quotas: map<Id, Quota>) {
    && (forall id :: id in ops ==> ops[id].quota in quotas && quotas[ops[id].quota].operation == id)
    && (forall q :: q in quotas ==> quotas[q].operation in ops && ops[quotas[q].operation].quota == q)
  }

  /** Unfenced operations are waiting, failed or cancelled, and only these last have their
      reservation released. */
  predicate FenceFits(o: Operation, q: Quota) {
    && (!o.fenced ==> o.state in {Accepted, Failed, Cancelled})
    && (q.state == Released <==> !o.fenced && o.state in {Failed, Cancelled})
    && (!o.fenced && o.state == Accepted ==> q.state == Reserved)
  }

  ghost predicate FencesFit(ops: map<Id, Operation>, quotas: map<Id, Quota>) {
    forall id :: id in ops ==> ops[id].quota in quotas && FenceFits(ops[id], quotas[ops[id].quota])
  }

  /** The provider was called once for a fenced operation and for no other. */
  ghost predicate ExecutedOnce(ops: map<Id, Operation>, executions: map<Local, nat>) {
    && (forall l :: l in executions ==> executions[l] <= 1)
    && (forall id :: id in ops ==>
          var l := Local(ops[id].owner, ops[id].local);
          ops[id].fenced <==> l in executions && executions[l] == 1)
    && (forall l :: l in executions ==> exists id :: id in ops && Local(ops[id].owner, ops[id].local) == l)
  }

  ghost predicate Inv(w: World) {
    && UniqueLocals(w.operations)
    && OwnQuotas(w.operations, w.quotas)
    && FencesFit(w.operations, w.quotas)
    && ExecutedOnce(w.operations, w.executions)
  }

  // ---- Changes of one operation ----

  /** Changing the state of one operation and its reservation keeps the invariant if the two
      still fit. */
  lemma ChangeKeeps(w: World, id: Id, o: Operation, q: Quota)
    requires Inv(w) && id in w.operations
    requires o.owner == w.operations[id].owner && o.local == w.operations[id].local && o.quota == w.operations[id].quota
    requires o.fenced == w.operations[id].fenced && q.operation == id && FenceFits(o, q)
    ensures var operations, quotas := w.operations[id := o], w.quotas[w.operations[id].quota := q];
            && UniqueLocals(operations) && OwnQuotas(operations, quotas)
            && FencesFit(operations, quotas) && ExecutedOnce(operations, w.executions)
  {
    var operations, quotas := w.operations[id := o], w.quotas[w.operations[id].quota := q];
    forall j | j in operations
      ensures operations[j].quota in quotas && FenceFits(operations[j], quotas[operations[j].quota])
    {
      if j != id { assert w.operations[j].quota != w.operations[id].quota; }
    }
    forall l | l in w.executions
      ensures exists j :: j in operations && Local(operations[j].owner, operations[j].local) == l
    {
      var j :| j in w.operations && Local(w.operations[j].owner, w.operations[j].local) == l;
      assert j in operations && Local(operations[j].owner, operations[j].local) == l;
    }
  }

  lemma QuotaOf(w: World, id: Id)
    requires Inv(w) && id in w.operations
    ensures w.operations[id].quota in w.quotas && w.quotas[w.operations[id].quota].operation == id
    ensures FenceFits(w.operations[id], w.quotas[w.operations[id].quota])
  {
  }

  lemma SameQuota(w: World, id: Id)
    requires Inv(w) && id in w.operations
    ensures w.quotas[w.operations[id].quota := w.quotas[w.operations[id].quota]] == w.quotas
  {
  }

  /** Every guarded or unguarded change of an existing operation. */
  lemma WriteKeeps(w: World, id: Id, state: OperationState, q: Quota)
    requires Inv(w) && id in w.operations && q.operation == id
    requires FenceFits(w.operations[id].(state := state), q)
    ensures Inv(SetState(w, id, state).(quotas := w.quotas[w.operations[id].quota := q]))
  {
    hide UniqueLocals, OwnQuotas, FencesFit, ExecutedOnce;
    ChangeKeeps(w, id, w.operations[id].(state := state), q);
  }

  lemma FailKeeps(w: World, id: Id)
    requires Inv(w)
    ensures Inv(FailBeforeProvider(w, id))
  {
    if Unfenced(w, id) {
      QuotaOf(w, id);
      hide Inv;
      WriteKeeps(w, id, Failed, w.quotas[w.operations[id].quota].(state := Released));
    }
  }

  lemma RetainKeeps(w: World, id: Id)
    requires Inv(w) && Interrupted(w, id)
    ensures Inv(RetainQuota(SetState(w, id, OutcomeUnknown), w.operations[id].quota))
  {
    QuotaOf(w, id);
    SameQuota(w, id);
    hide Inv;
    var q := w.quotas[w.operations[id].quota];
    WriteKeeps(w, id, OutcomeUnknown, q);
    WriteKeeps(w, id, OutcomeUnknown, q.(state := Unknown));
  }

  function ChargedRow(row: Quota, c: Charge): Quota {
    match c
    case Keep => row
    case Retain => if row.state == Reserved then row.(state := Unknown) else row
    case Settle(units) =>
      if row.state == Released then row else SettledRow(row, units)
  }

  lemma ConcludeIs(w: World, id: Id, state: OperationState, charge: Charge)
    requires Inv(w) && id in w.operations && w.operations[id].fenced && state != Accepted
    ensures var q := w.operations[id].quota;
            && q in w.quotas
            && ConcludeStep(w, id, state, charge) ==
               SetState(w, id, state).(quotas := w.quotas[q := ChargedRow(w.quotas[q], charge)])
  {
    QuotaOf(w, id);
    SameQuota(w, id);
    hide Inv;
  }

  lemma ConcludeKeeps(w: World, id: Id, state: OperationState, charge: Charge)
    requires Inv(w)
    ensures Inv(ConcludeStep(w, id, state, charge))
  {
    hide Inv, ChargeQuota, SetState;
    if id in w.operations && w.operations[id].fenced && state != Accepted {
      ConcludeIs(w, id, state, charge);
      QuotaOf(w, id);
      WriteKeeps(w, id, state, ChargedRow(w.quotas[w.operations[id].quota], charge));
    }
  }

  lemma CancelKeeps(w: World, id: Id, owner: Name, key: Name, hash: Name)
    requires Inv(w)
    ensures Inv(CancelStep(w, id, owner, key, hash))
  {
    if Unfenced(w, id) {
      QuotaOf(w, id);
      hide UniqueLocals, OwnQuotas, FencesFit, ExecutedOnce;
      WriteKeeps(w, id, Cancelled, w.quotas[w.operations[id].quota].(state := Released));
    }
  }

  lemma CreatedRows(w: World, p: Post)
    requires UniqueLocals(w.operations) && OwnQuotas(w.operations, w.quotas) && FencesFit(w.operations, w.quotas)
    requires Fresh(w, p) && !LocalTaken(w, p)
    ensures var t := Created(w, p);
            UniqueLocals(t.operations) && OwnQuotas(t.operations, t.quotas) && FencesFit(t.operations, t.quotas)
  {
  }

  lemma CreatedExecutions(ops: map<Id, Operation>, executions: map<Local, nat>, id: Id, o: Operation)
    requires ExecutedOnce(ops, executions) && id !in ops && !o.fenced
    requires forall j :: j in ops ==> Local(ops[j].owner, ops[j].local) != Local(o.owner, o.local)
    ensures ExecutedOnce(ops[id := o], executions)
  {
    var late := ops[id := o];
    forall l | l in executions ensures exists j :: j in late && Local(late[j].owner, late[j].local) == l {
      var j :| j in ops && Local(ops[j].owner, ops[j].local) == l;
      assert j in late && Local(late[j].owner, late[j].local) == l;
    }
  }

  lemma CreateKeeps(w: World, p: Post)
    requires Inv(w) && Fresh(w, p) && !LocalTaken(w, p)
    ensures Inv(Created(w, p))
  {
    hide UniqueLocals, OwnQuotas, FencesFit, ExecutedOnce;
    CreatedRows(w, p);
    CreatedExecutions(w.operations, w.executions, p.operation,
        Operation(p.owner, p.local, Accepted, false, p.quota, w.process));
  }

  lemma ArriveKeeps(w: World, p: Post)
    requires Inv(w)
    ensures Inv(ArriveStep(w, p))
  {
    hide UniqueLocals, OwnQuotas, FencesFit, ExecutedOnce, LocalTaken;
    if Fresh(w, p) {
      match ArriveVerdict(w, p)
      case Proceeds(id) => if Key(p.owner, p.key) !in w.keys { CreateKeeps(w, p); }
      case InterruptedReply(id) => RetainKeeps(w, id);
      case _ =>
    }
  }

  lemma FencedRows(ops: map<Id, Operation>, quotas: map<Id, Quota>, id: Id)
    requires UniqueLocals(ops) && OwnQuotas(ops, quotas) && FencesFit(ops, quotas)
    requires id in ops && ops[id].state == Accepted && !ops[id].fenced
    ensures var late := ops[id := ops[id].(fenced := true)];
            UniqueLocals(late) && OwnQuotas(late, quotas) && FencesFit(late, quotas)
  {
  }

  lemma FencedExecution(ops: map<Id, Operation>, executions: map<Local, nat>, id: Id, l: Local)
    requires UniqueLocals(ops) && ExecutedOnce(ops, executions)
    requires id in ops && !ops[id].fenced && l == Local(ops[id].owner, ops[id].local)
    ensures l !in executions || executions[l] == 0
    ensures ExecutedOnce(ops[id := ops[id].(fenced := true)], executions[l := 1])
  {
    var late := ops[id := ops[id].(fenced := true)];
    assert forall j :: j in ops && j != id ==> Local(ops[j].owner, ops[j].local) != l;
    var counts := executions[l := 1];
    forall m | m in counts ensures exists j :: j in late && Local(late[j].owner, late[j].local) == m {
      if m == l {
        assert id in late && Local(late[id].owner, late[id].local) == m;
      } else {
        var j :| j in ops && Local(ops[j].owner, ops[j].local) == m;
        assert j in late && Local(late[j].owner, late[j].local) == m;
      }
    }
  }

  lemma FenceKeeps(w: World, r: Request)
    requires Inv(w)
    ensures Inv(FenceStep(w, r))
  {
    hide UniqueLocals, OwnQuotas, FencesFit, ExecutedOnce;
    if r in w.flights && w.flights[r].Preparing? && Unfenced(w, w.flights[r].operation) {
      var id := w.flights[r].operation;
      FencedRows(w.operations, w.quotas, id);
      FencedExecution(w.operations, w.executions, id, Local(w.operations[id].owner, w.operations[id].local));
    }
  }

  lemma StepKeeps(w: World, e: Event)
    requires Inv(w)
    ensures Inv(Step(w, e))
  {
    hide UniqueLocals, OwnQuotas, FencesFit, ExecutedOnce, ArriveStep;
    hide FenceStep, FailBeforeProvider, ConcludeStep, CancelStep;
    match e
    case Arrive(p) => ArriveKeeps(w, p);
    case Fail(r) => if r in w.flights { FailKeeps(w, w.flights[r].operation); }
    case Fence(r) => FenceKeeps(w, r);
    case Conclude(id, state, charge) => ConcludeKeeps(w, id, state, charge);
    case Settled(r) =>
    case Cancel(id, owner, key, hash) => CancelKeeps(w, id, owner, key, hash);
    case SweepOrphan(id, _) => FailKeeps(w, id);
    case SweepInterrupted(id, publishing) => if Interrupted(w, id) { RetainKeeps(w, id); }
    case Restart =>
  }

  lemma {:induction false} RunKeepsInv(events: seq<Event>)
    ensures Inv(Run(Initial, events))
    decreases |events|
  {
    hide Step;
    if events != [] {
      RunKeepsInv(events[..|events| - 1]);
      StepKeeps(Run(Initial, events[..|events| - 1]), events[|events| - 1]);
    }
  }

  // ---- The fence ----

  /** Over replays, concurrent POSTs, cancellations, sweeps and restarts the provider is
      asked at most once for a local operation of an owner. */
  lemma ExecutesOnce(events: seq<Event>, l: Local)
    ensures Executions(Run(Initial, events), l) <= 1
  {
    RunKeepsInv(events);
  }

  /** A reservation is released if and only if its operation failed or was cancelled before
      its fence was crossed, and then the provider was not asked. */
  lemma ReleasedMeansUnsubmitted(events: seq<Event>, q: Id)
    requires q in Run(Initial, events).quotas
    ensures var w := Run(Initial, events);
            && w.quotas[q].operation in w.operations
            && var o := w.operations[w.quotas[q].operation];
               && (w.quotas[q].state == Released <==> !o.fenced && o.state in {Failed, Cancelled})
               && (w.quotas[q].state == Released ==> Executions(w, Local(o.owner, o.local)) == 0)
  {
    RunKeepsInv(events);
    hide Run;
  }

  // ---- Released for good ----

  /** A released reservation and the operation it belonged to never change again. */
  predicate Dead(early: World, late: World, q: Id) {
    && q in early.quotas && early.quotas[q].operation in early.operations
    && q in late.quotas && late.quotas[q] == early.quotas[q]
    && early.quotas[q].operation in late.operations
    && late.operations[early.quotas[q].operation] == early.operations[early.quotas[q].operation]
  }

  /** What is written for another operation leaves a released reservation alone. */
  lemma WriteElsewhere(w: World, q: Id, id: Id, o: Operation, row: Quota)
    requires Inv(w) && q in w.quotas && id in w.operations && id != w.quotas[q].operation
    ensures Dead(w, w.(operations := w.operations[id := o], quotas := w.quotas[w.operations[id].quota := row]), q)
  {
  }

  lemma DeadOperation(w: World, q: Id)
    requires Inv(w) && q in w.quotas && w.quotas[q].state == Released
    ensures var id := w.quotas[q].operation;
            && id in w.operations && w.operations[id].quota == q && !w.operations[id].fenced
            && !Unfenced(w, id) && !Interrupted(w, id)
    ensures Dead(w, w, q)
  {
    assert w.quotas[q].operation in w.operations;
  }

  lemma StepKeepsDead(w: World, e: Event, q: Id)
    requires Inv(w) && q in w.quotas && w.quotas[q].state == Released
    ensures Dead(w, Step(w, e), q)
  {
    hide Inv, LocalTaken, FailBeforeProvider, ConcludeStep, CancelStep, FenceStep, ArriveStep;
    DeadOperation(w, q);
    match e
    case Arrive(p) => ArriveElsewhere(w, p, q);
    case Fail(r) => if r in w.flights { FailElsewhere(w, w.flights[r].operation, q); }
    case Fence(r) => FenceElsewhere(w, r, q);
    case Conclude(id, state, charge) => ConcludeElsewhere(w, id, state, charge, q);
    case Settled(r) =>
    case Cancel(id, owner, key, hash) => CancelElsewhere(w, id, owner, key, hash, q);
    case SweepOrphan(id, _) => FailElsewhere(w, id, q);
    case SweepInterrupted(id, publishing) => if Interrupted(w, id) { RetainElsewhere(w, id, q); }
    case Restart =>
  }

  lemma FailElsewhere(w: World, id: Id, q: Id)
    requires Inv(w) && q in w.quotas && w.quotas[q].state == Released
    ensures Dead(w, FailBeforeProvider(w, id), q)
  {
    DeadOperation(w, q);
    if Unfenced(w, id) {
      QuotaOf(w, id);
      hide Inv;
      WriteElsewhere(w, q, id, w.operations[id].(state := Failed),
          w.quotas[w.operations[id].quota].(state := Released));
    }
  }

  lemma RetainElsewhere(w: World, id: Id, q: Id)
    requires Inv(w) && q in w.quotas && w.quotas[q].state == Released && Interrupted(w, id)
    ensures Dead(w, RetainQuota(SetState(w, id, OutcomeUnknown), w.operations[id].quota), q)
  {
    DeadOperation(w, q);
    QuotaOf(w, id);
    SameQuota(w, id);
    hide Inv;
    var row := w.quotas[w.operations[id].quota];
    WriteElsewhere(w, q, id, w.operations[id].(state := OutcomeUnknown), row);
    WriteElsewhere(w, q, id, w.operations[id].(state := OutcomeUnknown), row.(state := Unknown));
  }

  lemma ConcludeElsewhere(w: World, id: Id, state: OperationState, charge: Charge, q: Id)
    requires Inv(w) && q in w.quotas && w.quotas[q].state == Released
    ensures Dead(w, ConcludeStep(w, id, state, charge), q)
  {
    hide Inv, ChargeQuota, ChargedRow;
    DeadOperation(w, q);
    if id in w.operations && w.operations[id].fenced && state != Accepted {
      ConcludeIs(w, id, state, charge);
      WriteElsewhere(w, q, id, w.operations[id].(state := state), ChargedRow(w.quotas[w.operations[id].quota], charge));
    }
  }

  lemma CancelElsewhere(w: World, id: Id, owner: Name, key: Name, hash: Name, q: Id)
    requires Inv(w) && q in w.quotas && w.quotas[q].state == Released
    ensures Dead(w, CancelStep(w, id, owner, key, hash), q)
  {
    DeadOperation(w, q);
    if Unfenced(w, id) {
      QuotaOf(w, id);
      hide Inv;
      WriteElsewhere(w, q, id, w.operations[id].(state := Cancelled),
          w.quotas[w.operations[id].quota].(state := Released));
    }
  }

  lemma FenceElsewhere(w: World, r: Request, q: Id)
    requires Inv(w) && q in w.quotas && w.quotas[q].state == Released
    ensures Dead(w, FenceStep(w, r), q)
  {
    hide Inv;
    DeadOperation(w, q);
  }

  lemma ArriveElsewhere(w: World, p: Post, q: Id)
    requires Inv(w) && q in w.quotas && w.quotas[q].state == Released
    ensures Dead(w, ArriveStep(w, p), q)
  {
    hide Inv, LocalTaken;
    DeadOperation(w, q);
    if Fresh(w, p) && ArriveVerdict(w, p).InterruptedReply? { RetainElsewhere(w, ArriveVerdict(w, p).operation, q); }
  }

  lemma {:induction false} ReleasedForGood(events: seq<Event>, early: nat, q: Id)
    requires early <= |events|
    requires var w := Run(Initial, events[..early]); q in w.quotas && w.quotas[q].state == Released
    ensures Dead(Run(Initial, events[..early]), Run(Initial, events), q)
    decreases |events|
  {
    hide Inv, Step;
    RunKeepsInv(events[..early]);
    if early == |events| {
      assert events[..early] == events;
      DeadNow(Run(Initial, events), q);
    } else {
      var before := events[..|events| - 1];
      assert before[..early] == events[..early];
      ReleasedForGood(before, early, q);
      RunKeepsInv(before);
      StepKeepsDead(Run(Initial, before), events[|events| - 1], q);
    }
  }

  lemma DeadNow(w: World, q: Id)
    requires Inv(w) && q in w.quotas
    ensures Dead(w, w, q)
  {
  }

  // ---- Idempotency ----

  lemma StepKeepsKeys(w: World, e: Event, k: Key)
    requires k in w.keys
    ensures k in Step(w, e).keys && Step(w, e).keys[k] == w.keys[k]
  {
    hide LocalTaken;
  }

  lemma {:induction false} KeysForGood(w: World, events: seq<Event>, k: Key)
    requires k in w.keys
    ensures k in Run(w, events).keys && Run(w, events).keys[k] == w.keys[k]
    decreases |events|
  {
    hide Step;
    if events != [] {
      KeysForGood(w, events[..|events| - 1], k);
      StepKeepsKeys(Run(w, events[..|events| - 1]), events[|events| - 1], k);
    }
  }

  /** A key once bound answers for good: the same request never opens a second operation or
      reservation, another request under that key is a conflict and changes nothing. */
  lemma PostAgain(w: World, events: seq<Event>, p: Post)
    requires Key(p.owner, p.key) in w.keys
    ensures var later := Run(w, events); var t := ArriveStep(later, p);
            && t.operations.Keys == later.operations.Keys
            && t.quotas.Keys == later.quotas.Keys && t.executions == later.executions
            && (w.keys[Key(p.owner, p.key)].hash != p.hash ==> ArriveVerdict(later, p) == KeyConflict && t == later)
            && (ArriveVerdict(later, p).Proceeds? ==>
                  var first := w.keys[Key(p.owner, p.key)].resource;
                  ArriveVerdict(later, p).operation == first && Unfenced(later, first))
  {
    hide Run;
    KeysForGood(w, events, Key(p.owner, p.key));
  }

  /** The operation is still there, for the same owner and local command. */
  predicate SameLocal(w: World, t: World, id: Id) {
    && id in w.operations && id in t.operations
    && t.operations[id].owner == w.operations[id].owner && t.operations[id].local == w.operations[id].local
  }

  lemma ChargesKeepOperations(w: World, q: Id, charge: Charge)
    ensures ReleaseQuota(w, q).operations == RetainQuota(w, q).operations == w.operations
    ensures ChargeQuota(w, q, charge).operations == w.operations
  {
  }

  lemma FailKeepsLocal(w: World, changed: Id, id: Id)
    requires id in w.operations
    ensures SameLocal(w, FailBeforeProvider(w, changed), id)
  {
    hide ReleaseQuota;
    if Unfenced(w, changed) {
      ChargesKeepOperations(SetState(w, changed, Failed), w.operations[changed].quota, Keep);
    }
  }

  lemma RetainKeepsLocal(w: World, changed: Id, id: Id)
    requires id in w.operations && changed in w.operations
    ensures SameLocal(w, RetainQuota(SetState(w, changed, OutcomeUnknown), w.operations[changed].quota), id)
  {
    hide RetainQuota;
    ChargesKeepOperations(SetState(w, changed, OutcomeUnknown), w.operations[changed].quota, Keep);
  }

  lemma ConcludeKeepsLocal(w: World, changed: Id, state: OperationState, charge: Charge, id: Id)
    requires id in w.operations
    ensures SameLocal(w, ConcludeStep(w, changed, state, charge), id)
  {
    hide ChargeQuota;
    if changed in w.operations {
      ChargesKeepOperations(SetState(w, changed, state), w.operations[changed].quota, charge);
    }
  }

  lemma CancelKeepsLocal(w: World, changed: Id, owner: Name, key: Name, hash: Name, id: Id)
    requires id in w.operations
    ensures SameLocal(w, CancelStep(w, changed, owner, key, hash), id)
  {
    hide ReleaseQuota;
    if Unfenced(w, changed) {
      ChargesKeepOperations(SetState(w, changed, Cancelled), w.operations[changed].quota, Keep);
    }
  }

  lemma ArriveKeepsLocal(w: World, p: Post, id: Id)
    requires id in w.operations
    ensures SameLocal(w, ArriveStep(w, p), id)
  {
    hide LocalTaken, QuotaVerdict, RetainQuota, SetState;
    if Fresh(w, p) && ArriveVerdict(w, p).InterruptedReply? {
      RetainKeepsLocal(w, ArriveVerdict(w, p).operation, id);
    }
  }

  lemma StepKeepsLocal(w: World, e: Event, id: Id)
    requires id in w.operations
    ensures SameLocal(w, Step(w, e), id)
  {
    hide FailBeforeProvider, ConcludeStep, CancelStep, ArriveStep, RetainQuota, SetState;
    match e
    case Arrive(p) => ArriveKeepsLocal(w, p, id);
    case Fail(r) => if r in w.flights { FailKeepsLocal(w, w.flights[r].operation, id); }
    case Fence(_) =>
    case Conclude(changed, state, charge) => ConcludeKeepsLocal(w, changed, state, charge, id);
    case Settled(_) =>
    case Cancel(changed, owner, key, hash) => CancelKeepsLocal(w, changed, owner, key, hash, id);
    case SweepOrphan(changed, _) => FailKeepsLocal(w, changed, id);
    case SweepInterrupted(changed, _) => if Interrupted(w, changed) { RetainKeepsLocal(w, changed, id); }
    case Restart =>
  }

  lemma {:induction false} LocalsForGood(w: World, events: seq<Event>, id: Id)
    requires id in w.operations
    ensures SameLocal(w, Run(w, events), id)
    decreases |events|
  {
    hide Step;
    if events != [] {
      LocalsForGood(w, events[..|events| - 1], id);
      StepKeepsLocal(Run(w, events[..|events| - 1]), events[|events| - 1], id);
    }
  }

  /** A local command once taken stays taken: under any other key it is a conflict, whatever
      became of its operation and whatever the quota says, and changes nothing. */
  lemma LocalAgain(w: World, events: seq<Event>, p: Post)
    requires LocalTaken(w, p)
    ensures var later := Run(w, events);
            Key(p.owner, p.key) !in later.keys ==>
              ArriveVerdict(later, p) == (if p.ready then LocalConflict else NotReady) && ArriveStep(later, p) == later
  {
    var id :| id in w.operations && w.operations[id].owner == p.owner && w.operations[id].local == p.local;
    LocalsForGood(w, events, id);
    hide Run;
    assert LocalTaken(Run(w, events), p);
  }
}
