/** What a managed text stream is charged for: the end of the stream (ManagedText) stores and
    settles what the observer of its chunks (UsageObserver) makes of it. */
module StreamCharge {
  import L = UsageLedger
  import opened ManagedText
  import opened ManagedTextInvariant
  import U = UsageObserving

  /** The charge of a stream that was read in these chunks against this reservation. */
  function ChargeFor(reports: U.Reports, chunks: seq<string>, reserved: L.Amount): L.Amount {
    U.Actual(U.PushAll(reports, U.Fresh, chunks).usage, reserved.inputBytes, reserved.outputUnits, reserved.totalTokens)
  }

  /** The charge of the same text, normalised and read as a whole: every usage report in its
      complete frames, the last one of each field counting. */
  function ChargeForText(reports: U.Reports, text: string, reserved: L.Amount): L.Amount {
    var data := U.DataInFrames(U.Frames(U.Normalize(text)));
    var usage := U.ObserveAll(reports, U.Fresh.usage, data);
    U.Actual(usage, reserved.inputBytes, reserved.outputUnits, reserved.totalTokens)
  }

  /** The charge depends on the text alone, however it arrives, if no cut divides a CR LF. */
  lemma ChargedForItsText(reports: U.Reports, chunks: seq<string>, reserved: L.Amount)
    requires U.NoneDivided(chunks)
    ensures ChargeFor(reports, chunks, reserved) == ChargeForText(reports, U.Concat(chunks), reserved)
  {
    U.ChunkingIndependence(reports, chunks);
    assert "" + U.Normalize(U.Concat(chunks)) == U.Normalize(U.Concat(chunks));
  }

  /** A charge is a valid amount whenever the reservation is. */
  lemma ChargeIsValid(reports: U.Reports, chunks: seq<string>, reserved: L.Amount)
    requires reserved.Valid()
    ensures ChargeFor(reports, chunks, reserved).Valid()
  {
    hide U.PushAll;
  }

  /** Without a usage report in it, a stream costs what was reserved for it. */
  lemma {:induction false} SilentStreams(reports: U.Reports, data: seq<string>, u: U.Usage)
    requires forall d :: d in data ==> d !in reports
    ensures U.ObserveAll(reports, u, data) == u
  {
    if data != [] {
      SilentStreams(reports, data[..|data| - 1], u);
      assert data[|data| - 1] in data;
    }
  }

  lemma SilentStreamCostsReservation(reports: U.Reports, text: string, reserved: L.Amount)
    requires forall d :: d in U.DataInFrames(U.Frames(U.Normalize(text))) ==> d !in reports
    ensures ChargeForText(reports, text, reserved) ==
              L.Amount(1, reserved.inputBytes, reserved.outputUnits, reserved.totalTokens)
  {
    SilentStreams(reports, U.DataInFrames(U.Frames(U.Normalize(text))), U.Fresh.usage);
  }

  // ---- What a report says, by its fields ----

  /** The output of a report is its completion_tokens or, if that is missing, output_tokens. */
  predicate GivesOutput(r: U.Report, n: nat) {
    (r.completionTokens.Count? && r.completionTokens.value == n)
    || (r.completionTokens.Missing? && r.outputTokens.Count? && r.outputTokens.value == n)
  }

  predicate GivesInput(r: U.Report, n: nat) {
    (r.promptTokens.Count? && r.promptTokens.value == n)
    || (r.promptTokens.Missing? && r.inputTokens.Count? && r.inputTokens.value == n)
  }

  /** The total of a report is its total_tokens or, if that is no count, the sum of its input
      and its output if it gives both and the sum is safe. */
  ghost predicate GivesTotal(r: U.Report, t: nat) {
    (r.totalTokens.Count? && r.totalTokens.value == t)
    || (!r.totalTokens.Count? && t <= 0x1F_FFFF_FFFF_FFFF
        && exists p: nat :: p <= t && GivesInput(r, p) && GivesOutput(r, t - p))
  }

  /** The reports of a text in their order: what its complete frames ask to be parsed and
      holds a usage entry. */
  function ReportsOf(reports: U.Reports, data: seq<string>): seq<U.Report> {
    if data == [] then []
    else
      var last := data[|data| - 1];
      ReportsOf(reports, data[..|data| - 1]) + if last in reports then [reports[last]] else []
  }

  /** The last of these reports that gives an output gives this one; none for none. */
  ghost predicate LastOutput(rs: seq<U.Report>, output: U.Option<nat>) {
    match output
    case None => forall i: nat, n: nat :: i < |rs| ==> !GivesOutput(rs[i], n)
    case Some(n) =>
      exists i: nat ::
        i < |rs| && GivesOutput(rs[i], n) && forall j: nat, m: nat :: i < j < |rs| ==> !GivesOutput(rs[j], m)
  }

  ghost predicate LastTotal(rs: seq<U.Report>, total: U.Option<nat>) {
    match total
    case None => forall i: nat, t: nat :: i < |rs| ==> !GivesTotal(rs[i], t)
    case Some(t) =>
      exists i: nat ::
        i < |rs| && GivesTotal(rs[i], t) && forall j: nat, m: nat :: i < j < |rs| ==> !GivesTotal(rs[j], m)
  }

  lemma OutputNext(rs: seq<U.Report>, r: U.Report, before: U.Option<nat>, n: nat)
    requires LastOutput(rs, before)
    ensures GivesOutput(r, n) ==> LastOutput(rs + [r], U.Some(n))
    ensures (forall m: nat :: !GivesOutput(r, m)) ==> LastOutput(rs + [r], before)
  {
    var late := rs + [r];
    assert late[|rs|] == r && forall i: nat :: i < |rs| ==> late[i] == rs[i];
    hide GivesOutput;
    if (forall m: nat :: !GivesOutput(r, m)) && before.Some? {
      var i: nat :| i < |rs| && GivesOutput(rs[i], before.value)
        && forall j: nat, m: nat :: i < j < |rs| ==> !GivesOutput(rs[j], m);
      assert GivesOutput(late[i], before.value);
    }
  }

  lemma TotalNext(rs: seq<U.Report>, r: U.Report, before: U.Option<nat>, n: nat)
    requires LastTotal(rs, before)
    ensures GivesTotal(r, n) ==> LastTotal(rs + [r], U.Some(n))
    ensures (forall m: nat :: !GivesTotal(r, m)) ==> LastTotal(rs + [r], before)
  {
    var late := rs + [r];
    assert late[|rs|] == r && forall i: nat :: i < |rs| ==> late[i] == rs[i];
    hide GivesTotal;
    if (forall m: nat :: !GivesTotal(r, m)) && before.Some? {
      var i: nat :| i < |rs| && GivesTotal(rs[i], before.value)
        && forall j: nat, m: nat :: i < j < |rs| ==> !GivesTotal(rs[j], m);
      assert GivesTotal(late[i], before.value);
    }
  }

  function Widen(n: U.Option<U.SafeCount>): U.Option<nat> { if n.Some? then U.Some(n.value) else U.None }

  lemma OutputStep(rs: seq<U.Report>, r: U.Report, before: U.Option<U.SafeCount>, after: U.Option<U.SafeCount>)
    requires LastOutput(rs, Widen(before))
    requires if exists n: nat :: GivesOutput(r, n) then after.Some? && GivesOutput(r, after.value) else after == before
    ensures LastOutput(rs + [r], Widen(after))
  {
    hide LastOutput, GivesOutput;
    OutputNext(rs, r, Widen(before), if after.Some? then after.value else 0);
  }

  lemma TotalStep(rs: seq<U.Report>, r: U.Report, before: U.Option<U.SafeCount>, after: U.Option<U.SafeCount>)
    requires LastTotal(rs, Widen(before))
    requires if exists t: nat :: GivesTotal(r, t) then after.Some? && GivesTotal(r, after.value) else after == before
    ensures LastTotal(rs + [r], Widen(after))
  {
    hide LastTotal, GivesTotal;
    TotalNext(rs, r, Widen(before), if after.Some? then after.value else 0);
  }

  lemma ObservedOne(u: U.Usage, r: U.Report)
    ensures var v := U.Observe(u, r);
            && (if exists n: nat :: GivesOutput(r, n) then v.outputUnits.Some? && GivesOutput(r, v.outputUnits.value)
                else v.outputUnits == u.outputUnits)
            && (if exists t: nat :: GivesTotal(r, t) then v.totalTokens.Some? && GivesTotal(r, v.totalTokens.value)
                else v.totalTokens == u.totalTokens)
  {
    var v := U.Observe(u, r);
    var output := U.OrElse(r.completionTokens, r.outputTokens);
    var input := U.OrElse(r.promptTokens, r.inputTokens);
    if output.Count? { assert GivesOutput(r, output.value); }
    if input.Count? { assert GivesInput(r, input.value); }
    if r.totalTokens.Count? { assert GivesTotal(r, r.totalTokens.value); }
    if input.Count? && output.Count? && input.value + output.value <= L.MAX_SAFE_INTEGER && !r.totalTokens.Count? {
      assert GivesOutput(r, input.value + output.value - input.value);
      assert GivesTotal(r, input.value + output.value);
    }
  }

  lemma {:induction false} ObservedLast(reports: U.Reports, data: seq<string>)
    ensures var u := U.ObserveAll(reports, U.Fresh.usage, data); var rs := ReportsOf(reports, data);
            LastOutput(rs, Widen(u.outputUnits)) && LastTotal(rs, Widen(u.totalTokens))
  {
    if data != [] {
      ObservedLast(reports, data[..|data| - 1]);
      var last := data[|data| - 1];
      if last in reports {
        var rs := ReportsOf(reports, data[..|data| - 1]);
        var before := U.ObserveAll(reports, U.Fresh.usage, data[..|data| - 1]);
        var r, after := reports[last], U.Observe(before, reports[last]);
        ObservedOne(before, r);
        hide U.Observe, LastOutput, LastTotal, GivesOutput, GivesTotal;
        OutputStep(rs, r, before.outputUnits, after.outputUnits);
        TotalStep(rs, r, before.totalTokens, after.totalTokens);
        assert ReportsOf(reports, data) == rs + [r];
      } else {
        assert ReportsOf(reports, data) == ReportsOf(reports, data[..|data| - 1]);
      }
    }
  }

  /** What a text costs: on each axis the last report of the text that gives it decides, and an
      axis that none gives, or a total below the output, costs what was reserved. */
  lemma ChargeExactly(reports: U.Reports, text: string, reserved: L.Amount)
    ensures var rs := ReportsOf(reports, U.DataInFrames(U.Frames(U.Normalize(text))));
            exists output: U.Option<nat>, total: U.Option<nat> ::
              && LastOutput(rs, output) && LastTotal(rs, total)
              && ChargeForText(reports, text, reserved) == L.Amount(
                   1, reserved.inputBytes,
                   if output.Some? then output.value else reserved.outputUnits,
                   if total.Some? && (output.Some? ==> total.value >= output.value) then total.value
                   else reserved.totalTokens)
  {
    var data := U.DataInFrames(U.Frames(U.Normalize(text)));
    ObservedLast(reports, data);
    var u := U.ObserveAll(reports, U.Fresh.usage, data);
    hide LastOutput, LastTotal, U.ObserveAll, U.DataInFrames, U.Frames, U.Normalize;
    assert LastOutput(ReportsOf(reports, data), Widen(u.outputUnits));
  }

  /** That says which: there is one last output and one last total. */
  lemma LastIsUnique(rs: seq<U.Report>, a: U.Option<nat>, b: U.Option<nat>)
    ensures LastOutput(rs, a) && LastOutput(rs, b) ==> a == b
    ensures LastTotal(rs, a) && LastTotal(rs, b) ==> a == b
  {
  }

  /** The reservation that the stream of this request is charged to. */
  function ReservationOf(s: System, r: Request): L.Row
    requires r in s.flights && KeyOf(s.flights[r]) in s.ledger.rows
  {
    s.ledger.rows[KeyOf(s.flights[r])]
  }

  /** A stream that ends while its charge is open stores its result and settles exactly what
      its text reports, whatever chunks it came in. */
  lemma SettledForItsText(s: System, e: Event, reports: U.Reports, chunks: seq<string>)
    requires Inv(s) && Stores(s, e) && e.luck.charge && KeyOf(s.flights[e.request]) in s.ledger.rows
    requires var row := ReservationOf(s, e.request);
             row.state == L.Reserved && row.reserved.Valid() && e.actual == ChargeFor(reports, chunks, row.reserved)
    requires U.NoneDivided(chunks)
    ensures var k := KeyOf(s.flights[e.request]);
            var t := FinishStep(s, e);
            && k in t.ledger.rows && t.ledger.rows[k].state == L.Settled
            && t.ledger.rows[k].actual == ChargeForText(reports, U.Concat(chunks), ReservationOf(s, e.request).reserved)
  {
    var f := s.flights[e.request];
    var row := ReservationOf(s, e.request);
    ChargedForItsText(reports, chunks, row.reserved);
    ChargeIsValid(reports, chunks, row.reserved);
    StoredCharge(s, e.request);
    InvFenced(s);
    hide Inv, ChargeFor, ChargeForText, Charge, Charges, U.NoneDivided, Stores;
    var settles := Charges(s, f, L.Settle(e.actual, 0, true), true);
    FinishIsCharge(s, e);
    ChargeIs(AfterStore(s, e, f.phase.terminal || settles), f, L.Settle(e.actual, 0, true), true);
  }

  lemma InvFenced(s: System)
    requires Inv(s)
    ensures UsageBounds.Fenced(s.ledger)
  {
  }

  lemma FinishIsCharge(s: System, e: Event)
    requires Inv(s) && Stores(s, e)
    ensures s.flights[e.request].binding.key in s.results
    ensures var f, final := s.flights[e.request], L.Settle(e.actual, 0, true);
            var terminal := f.phase.terminal || Charges(s, f, final, e.luck.charge);
            FinishStep(s, e) == Charge(AfterStore(s, e, terminal), f, final, e.luck.charge)
  {
    hide Inv, R.CompleteStep, R.CompleteReply, Charge, Charges;
    NothingStoredBy(s, e.request);
    CompleteAdds(s, e);
  }
}
