/** The life of a Seedream task goes through its generation calls as the loop of `runSeedream`
    does: the same calls are sent, and the same images are delivered, with the same verdict. */
module ImageTaskRounds {
  import opened RelayTasks
  import opened ImageTaskLife
  import opened ImageTaskTheorems
  import R = ImageResults

  function ErrorOf(e: R.Error): Error {
    match e
    case Admission => Error.Admission
    case Rejected => Other
    case Unknown => Error.Unknown
  }

  /** The events of one round of the loop. */
  function Round(a: R.Answer): Life {
    match a
    case Unsent(error) => [Now(Throw(ErrorOf(error)))]
    case Unanswered(error) => [Now(Call)] + [Now(Throw(ErrorOf(error)))]
    case Declined => [Now(Call)] + [Now(Throw(Other))]
    case Corrupt => [Now(Call)] + [Now(ImageTaskLife.Receipt(0))] + [Now(Throw(Error.Unknown))]
    case Data(items) => [Now(Call)] + [Now(ImageTaskLife.Receipt(0))] + [Now(Read(items))]
  }

  function Rounds(answers: seq<R.Answer>): Life {
    if answers == [] then [] else Rounds(answers[..|answers| - 1]) + Round(answers[|answers| - 1])
  }

  lemma {:induction false} RunTwice(policy: Policy, w: World, id: Id, a: Life, b: Life)
    ensures ImageTaskLife.Run(policy, w, id, a + b)
         == ImageTaskLife.Run(policy, ImageTaskLife.Run(policy, w, id, a), id, b)
    decreases |b|
  {
    hide ImageTaskLife.Step;
    if b == [] {
      assert a + b == a;
    } else {
      RunTwice(policy, w, id, a, b[..|b| - 1]);
      assert (a + b)[..|a + b| - 1] == a + b[..|b| - 1];
    }
  }

  /** The runner is about to make the k-th call, the calls before it brought these answers. */
  predicate AtCall(w: World, plan: Plan, answers: seq<R.Answer>) {
    w.runner == Some(Runner(false, Calling(plan, answers))) && plan.provider == Seedream
  }

  lemma RunOne(policy: Policy, w: World, id: Id, e: ImageTaskLife.Event)
    ensures ImageTaskLife.Run(policy, w, id, [Now(e)]) == ImageTaskLife.Step(policy, w, id, e, 0)
  {
    hide ImageTaskLife.Step;
    assert [Now(e)][..0] == [];
    assert ImageTaskLife.Run(policy, w, id, []) == w;
  }

  /** Where the runner is after a round. */
  function PhaseAfter(plan: Plan, answers: seq<R.Answer>, a: R.Answer): Phase {
    if R.Legible(a) then
      if |answers| + 1 < plan.count then Calling(plan, answers + [a])
      else if R.Images(answers + [a]) == [] then Failing(Error.Unknown)
      else Delivering(R.Images(answers + [a]), R.Clean(answers + [a]))
    else if R.Images(answers) != [] then Delivering(R.Images(answers), false)
    else Failing(match a
                 case Unsent(error) => ErrorOf(error)
                 case Unanswered(error) => ErrorOf(error)
                 case Declined => Other
                 case _ => Error.Unknown)
  }

  function CallsAfter(answers: seq<R.Answer>, a: R.Answer, calls: seq<nat>): seq<nat> {
    if a.Unsent? then calls else calls + [|answers|]
  }

  lemma RoundRuns(policy: Policy, w: World, id: Id, plan: Plan, answers: seq<R.Answer>, a: R.Answer)
    requires AtCall(w, plan, answers) && (a.Unanswered? ==> a.error != R.Admission)
    ensures var t := ImageTaskLife.Run(policy, w, id, Round(a));
            && t.runner == Some(Runner(false, PhaseAfter(plan, answers, a)))
            && t.calls == CallsAfter(answers, a, w.calls)
  {
    hide R.Images, R.Clean, ImageTaskLife.Run;
    match a
    case Unsent(error) =>
      RunOne(policy, w, id, Throw(ErrorOf(error)));
    case Unanswered(error) =>
      RunOne(policy, w, id, Call);
      RunMore(policy, w, id, [Now(Call)], Throw(ErrorOf(error)));
    case Declined =>
      RunOne(policy, w, id, Call);
      RunMore(policy, w, id, [Now(Call)], Throw(Other));
    case _ => PaidRoundRuns(policy, w, id, plan, answers, a);
  }

  lemma PaidRoundRuns(policy: Policy, w: World, id: Id, plan: Plan, answers: seq<R.Answer>, a: R.Answer)
    requires AtCall(w, plan, answers) && (a.Corrupt? || a.Data?)
    ensures var t := ImageTaskLife.Run(policy, w, id, Round(a));
            && t.runner == Some(Runner(false, PhaseAfter(plan, answers, a)))
            && t.calls == CallsAfter(answers, a, w.calls)
  {
    hide R.Images, R.Clean, ImageTaskLife.Run;
    PaidRound(policy, w, id, plan, answers);
    RunMore(policy, w, id, [Now(Call)] + [Now(ImageTaskLife.Receipt(0))],
            if a.Data? then Read(a.items) else Throw(Error.Unknown));
  }

  lemma PaidRound(policy: Policy, w: World, id: Id, plan: Plan, answers: seq<R.Answer>)
    requires AtCall(w, plan, answers)
    ensures var t := ImageTaskLife.Run(policy, w, id, [Now(Call)] + [Now(ImageTaskLife.Receipt(0))]);
            t.runner == Some(Runner(false, Paid(plan, answers))) && t.calls == w.calls + [|answers|]
  {
    hide ImageTaskLife.Run, AppendReceipt;
    RunOne(policy, w, id, Call);
    RunMore(policy, w, id, [Now(Call)], ImageTaskLife.Receipt(0));
  }

  /** As long as all answers can be read the loop goes on, and no call is left out. */
  lemma {:induction false} LegibleRounds(policy: Policy, w: World, id: Id, plan: Plan, answers: seq<R.Answer>)
    requires AtCall(w, plan, []) && AllLegible(answers) && |answers| < plan.count
    ensures var t := ImageTaskLife.Run(policy, w, id, Rounds(answers));
            AtCall(t, plan, answers) && t.calls == w.calls + R.Below(|answers|)
    decreases |answers|
  {
    hide ImageTaskLife.Run, Round, R.Images, R.Clean;
    if answers == [] {
      BelowGrows(0);
      RunNothing(policy, w, id);
    } else {
      var k := |answers| - 1;
      LegibleRounds(policy, w, id, plan, answers[..k]);
      RunTwice(policy, w, id, Rounds(answers[..k]), Round(answers[k]));
      LegibleRound(policy, ImageTaskLife.Run(policy, w, id, Rounds(answers[..k])), id, plan, answers[..k], answers[k]);
      assert answers[..k] + [answers[k]] == answers;
      BelowGrows(k);
      assert w.calls + R.Below(k) + [k] == w.calls + (R.Below(k) + [k]);
    }
  }

  lemma RunNothing(policy: Policy, w: World, id: Id)
    ensures ImageTaskLife.Run(policy, w, id, Rounds([])) == w
  {
  }

  lemma LegibleRound(policy: Policy, w: World, id: Id, plan: Plan, answers: seq<R.Answer>, a: R.Answer)
    requires AtCall(w, plan, answers) && R.Legible(a) && |answers| + 1 < plan.count
    ensures var t := ImageTaskLife.Run(policy, w, id, Round(a));
            AtCall(t, plan, answers + [a]) && t.calls == w.calls + [|answers|]
  {
    hide ImageTaskLife.Run, Round, R.Images, R.Clean;
    RoundRuns(policy, w, id, plan, answers, a);
  }

  /** The rounds up to the one that ends the loop. */
  function Heard(answers: seq<R.Answer>): seq<R.Answer> {
    var k := R.Stop(answers);
    if k < |answers| then answers[..k + 1] else answers
  }

  lemma LastRound(policy: Policy, w: World, id: Id, plan: Plan, heard: seq<R.Answer>)
    requires AtCall(w, plan, []) && 0 < |heard| <= plan.count && AllLegible(heard[..|heard| - 1])
    requires var a := heard[|heard| - 1]; a.Unanswered? ==> a.error != R.Admission
    ensures var t, last := ImageTaskLife.Run(policy, w, id, Rounds(heard)), |heard| - 1;
            && t.runner == Some(Runner(false, PhaseAfter(plan, heard[..last], heard[last])))
            && t.calls == CallsAfter(heard[..last], heard[last], w.calls + R.Below(last))
  {
    hide ImageTaskLife.Run, PhaseAfter, CallsAfter, AllLegible;
    var last := |heard| - 1;
    var before := heard[..last];
    LegibleRounds(policy, w, id, plan, before);
    RunTwice(policy, w, id, Rounds(before), Round(heard[last]));
    RoundRuns(policy, ImageTaskLife.Run(policy, w, id, Rounds(before)), id, plan, before, heard[last]);
  }

  lemma LastPhase(plan: Plan, answers: seq<R.Answer>, calls: seq<nat>)
    requires plan.count == |answers| > 0
    ensures var k, heard := R.Stop(answers), Heard(answers);
            var last := |heard| - 1;
            var images := R.Images(answers[..k]);
            var phase := PhaseAfter(plan, heard[..last], heard[last]);
            && 0 <= last && AllLegible(heard[..last])
            && CallsAfter(heard[..last], heard[last], calls + R.Below(last))
               == calls + R.Below(if k == |answers| || answers[k].Unsent? then k else k + 1)
            && if images == [] then phase.Failing? else phase == Delivering(images, k == |answers| && R.Clean(answers))
  {
    hide R.Images, R.Clean, R.Stop;
    var k, heard := R.Stop(answers), Heard(answers);
    var last := |heard| - 1;
    BelowGrows(last);
    assert calls + R.Below(last) + [last] == calls + (R.Below(last) + [last]);
    if k < |answers| {
      assert heard[..last] == answers[..k];
    } else {
      assert answers[..k] == answers && heard[..last] + [heard[last]] == answers;
    }
  }

  /** From its first call on, a Seedream task sends the calls that the loop sends, and goes on
      to deliver the images that the loop returns, complete exactly if the loop says that no
      part of the outcome is unknown; if the loop throws, the task fails. */
  lemma LifeFollowsLoop(policy: Policy, w: World, id: Id, plan: Plan, answers: seq<R.Answer>)
    requires AtCall(w, plan, []) && plan.count == |answers| > 0
    requires forall i :: 0 <= i < |answers| && answers[i].Unanswered? ==> answers[i].error != R.Admission
    ensures var k, t := R.Stop(answers), ImageTaskLife.Run(policy, w, id, Rounds(Heard(answers)));
            var images := R.Images(answers[..k]);
            && t.calls == w.calls + R.Below(if k == |answers| || answers[k].Unsent? then k else k + 1)
            && t.runner.Some?
            && if images == [] then t.runner.value.phase.Failing?
               else t.runner.value.phase == Delivering(images, k == |answers| && R.Clean(answers))
  {
    LastPhase(plan, answers, w.calls);
    hide ImageTaskLife.Run, PhaseAfter, CallsAfter, AllLegible, R.Images, R.Clean, R.Stop, AtCall;
    LastRound(policy, w, id, plan, Heard(answers));
  }
}
