/** How the image relay accounts for every requested image (relay/app.ts): the generation
    loop of Seedream, the single answer of OpenAI, and the results found after a restart.
    Provider calls are inputs: one answer for each of them. */
module ImageResults {

  datatype SafeCode =
    | ResultMissing | ResultInvalid | ResultTooLarge | ProviderRejected
    | NotAttempted | OutcomeUnknown | RecoveredUnknown

  datatype Invalid = Invalid(index: nat, code: SafeCode)

  datatype Summary = Summary(expected: nat, valid: nat, invalid: seq<Invalid>, observed: nat, partial: bool)

  /** One record of a provider's answer: an image, a record without a usable image, or an
      image that had to be fetched and could not be. */
  datatype Item = Image | Bad(code: SafeCode) | Unfetchable(error: Error)

  datatype Error = Admission | Rejected | Unknown

  /** What one generation call comes to: refused before it was sent, sent but unanswered,
      declined, answered with text that does not parse, or answered with records. */
  datatype Answer = Unsent(error: Error) | Unanswered(error: Error) | Declined | Corrupt | Data(items: seq<Item>)

  /** `posts` are the indices whose generation call was sent, `receipts` those whose receipt
      was recorded. */
  datatype Outcome =
    | Threw(error: Error, posts: seq<nat>, receipts: seq<nat>)
    | Returned(outputs: seq<nat>, summary: Summary, posts: seq<nat>, receipts: seq<nat>)

  predicate Ascending(xs: seq<nat>) { forall i, j :: 0 <= i < j < |xs| ==> xs[i] < xs[j] }

  function Indices(invalid: seq<Invalid>): (xs: seq<nat>)
    ensures |xs| == |invalid| && forall i :: 0 <= i < |xs| ==> xs[i] == invalid[i].index
  {
    seq(|invalid|, i requires 0 <= i < |invalid| => invalid[i].index)
  }

  /** Every index below n is accounted for exactly once. */
  ghost predicate Partitions(outputs: seq<nat>, invalid: seq<Invalid>, n: nat) {
    && Ascending(outputs) && Ascending(Indices(invalid))
    && |outputs| + |invalid| == n
    && (forall i :: i in outputs || i in Indices(invalid) ==> i < n)
    && (forall i :: 0 <= i < n ==> (i in outputs) != (i in Indices(invalid)))
  }

  /** The record at a place of an answer; behind its end there is none. */
  function ItemAt(items: seq<Item>, at: nat): Item {
    if at < |items| then items[at] else Bad(ResultMissing)
  }

  predicate Delivers(a: Answer) { a.Data? && ItemAt(a.items, 0).Image? }

  /** The loop of Seedream goes on after this answer, with or without an image. */
  predicate Legible(a: Answer) { a.Data? && !ItemAt(a.items, 0).Unfetchable? }

  /** How many calls the loop gets through before one ends it. */
  function Stop(answers: seq<Answer>): (k: nat)
    ensures k <= |answers| && (k < |answers| ==> !Legible(answers[k]))
    ensures forall i :: 0 <= i < k ==> Legible(answers[i])
  {
    if answers == [] || !Legible(answers[0]) then 0 else 1 + Stop(answers[1..])
  }

  /** The indices whose call brought an image. */
  function Images(answers: seq<Answer>): (xs: seq<nat>)
    ensures Ascending(xs) && forall i :: i in xs <==> 0 <= i < |answers| && Delivers(answers[i])
  {
    if answers == [] then []
    else
      var last := |answers| - 1;
      assert answers == answers[..last] + [answers[last]];
      var before := Images(answers[..last]);
      assert forall i :: 0 <= i < |before| ==> before[i] in before;
      if Delivers(answers[last]) then before + [last] else before
  }

  /** Every call brought one record, and that an image. */
  predicate Clean(answers: seq<Answer>) {
    forall i :: 0 <= i < |answers| ==> Delivers(answers[i]) && |answers[i].items| == 1
  }

  /** The indices of the images in the one answer of OpenAI. */
  function ImagesOf(items: seq<Item>, n: nat): (xs: seq<nat>)
    ensures Ascending(xs) && forall i :: i in xs <==> 0 <= i < n && ItemAt(items, i).Image?
  {
    if n == 0 then []
    else
      var before := ImagesOf(items, n - 1);
      assert forall i :: 0 <= i < |before| ==> before[i] in before;
      if ItemAt(items, n - 1).Image? then before + [n - 1] else before
  }

  /** The answer of OpenAI is complete: as many records as asked for, each an image. */
  predicate CleanOf(items: seq<Item>, n: nat) {
    |items| == n && forall i :: 0 <= i < n ==> ItemAt(items, i).Image?
  }

  lemma {:induction false} CleanIsComplete(answers: seq<Answer>)
    requires Clean(answers)
    ensures Images(answers) == Below(|answers|)
  {
    if answers != [] {
      CleanIsComplete(answers[..|answers| - 1]);
      BelowNext(|answers| - 1);
    }
  }

  lemma {:induction false} CleanOfIsComplete(items: seq<Item>, n: nat)
    requires forall i :: 0 <= i < n ==> ItemAt(items, i).Image?
    ensures ImagesOf(items, n) == Below(n)
  {
    if n > 0 {
      CleanOfIsComplete(items, n - 1);
      BelowNext(n - 1);
    }
  }

  function Below(n: nat): seq<nat> { seq(n, i => i) }

  lemma BelowNext(n: nat)
    ensures Below(n + 1) == Below(n) + [n]
  {
  }

  lemma GrowOutputs(outputs: seq<nat>, invalid: seq<Invalid>, n: nat)
    requires Partitions(outputs, invalid, n)
    ensures Partitions(outputs + [n], invalid, n + 1)
  {
    hide Indices;
    assert n !in outputs && n !in Indices(invalid);
    assert forall i :: i in outputs + [n] <==> i in outputs || i == n;
    assert forall i :: 0 <= i < |outputs| ==> outputs[i] in outputs;
  }

  lemma GrowInvalid(outputs: seq<nat>, invalid: seq<Invalid>, n: nat, code: SafeCode)
    requires Partitions(outputs, invalid, n)
    ensures Partitions(outputs, invalid + [Invalid(n, code)], n + 1)
  {
    var xs := Indices(invalid);
    assert Indices(invalid + [Invalid(n, code)]) == xs + [n];
    hide Indices;
    assert n !in outputs && n !in xs;
    assert forall i :: i in xs + [n] <==> i in xs || i == n;
    assert forall i :: 0 <= i < |xs| ==> xs[i] in xs;
  }

  lemma StartEmpty()
    ensures Partitions([], [], 0) && Below(0) == [] && Images([]) == [] && Clean([])
  {
  }

  /** Why the answer to a call that was received brought no image: what is wrong with its first
      record, or that it has none. */
  predicate Noted(answers: seq<Answer>, e: Invalid) {
    && e.index < |answers| && answers[e.index].Data?
    && if answers[e.index].items == [] then e.code == ResultMissing
       else answers[e.index].items[0] == Bad(e.code)
  }

  /** The code of an index without an image: before the call that ended the loop, at it, and
      behind it. */
  predicate CodeFits(answers: seq<Answer>, k: nat, e: Invalid) {
    if e.index < k then Noted(answers, e)
    else if e.index == k && k < |answers| then
      e.code == if answers[k].Declined? then ProviderRejected else OutcomeUnknown
    else e.code == NotAttempted
  }

  /** One call per requested image, in order; after the first image is there, a later
      failure ends the run instead of losing it. */
  method RunSeedream(count: nat, answers: seq<Answer>) returns (outcome: Outcome)
    requires count >= 1 && |answers| == count
    ensures var k := Stop(answers);
            && outcome.posts == Below(if k == count || answers[k].Unsent? then k else k + 1)
            && outcome.receipts == Below(if k == count || !(answers[k].Corrupt? || answers[k].Data?) then k else k + 1)
            && (outcome.Threw? <==> k < count && Images(answers[..k]) == [])
            && (outcome.Returned? ==>
                  && outcome.outputs == Images(answers[..k])
                  && Partitions(outcome.outputs, outcome.summary.invalid, count)
                  && outcome.summary.expected == count && outcome.summary.valid == |outcome.outputs|
                  && (outcome.summary.invalid != [] ==> outcome.summary.partial)
                  && (outcome.summary.partial <==> k < count || !Clean(answers))
                  && (forall e :: e in outcome.summary.invalid ==> CodeFits(answers, k, e))
                  && (!outcome.summary.partial ==>
                        outcome.outputs == Below(count) && outcome.summary.observed == count))
  {
    hide Partitions, Below, Images, Stop, Clean;
    StartEmpty();
    var outputs: seq<nat>, invalid: seq<Invalid>, posts: seq<nat>, receipts: seq<nat> := [], [], [], [];
    var partial, observed: nat := false, 0;
    var index := 0;
    assert answers[..0] == [];
    while index < count
      invariant 0 <= index <= count
      invariant posts == receipts == Below(index)
      invariant forall i :: 0 <= i < index ==> Legible(answers[i])
      invariant outputs == Images(answers[..index]) && Partitions(outputs, invalid, index)
      invariant invalid != [] ==> partial
      invariant forall e :: e in invalid ==> e.index < index && Noted(answers, e)
      invariant partial <==> !Clean(answers[..index])
      invariant !partial ==> observed == index
      decreases count - index
    {
      BelowNext(index);
      ImagesNext(answers, index);
      if !Legible(answers[index]) {
        StopAt(answers, index);
      }
      var answer := answers[index];
      var failure: seq<Error>, declined := [], false;
      match answer {
        case Unsent(error) =>
          failure := [error];
        case Unanswered(error) =>
          posts, failure := posts + [index], [error];
        case Declined =>
          posts, failure, declined := posts + [index], [Rejected], true;
        case Corrupt =>
          posts, receipts, failure := posts + [index], receipts + [index], [Unknown];
        case Data(items) =>
          posts, receipts := posts + [index], receipts + [index];
          observed := observed + |items|;
          if |items| > 1 {
            partial := true;
          }
          match ItemAt(items, 0) {
            case Unfetchable(error) =>
              failure := [error];
            case Image =>
              GrowOutputs(outputs, invalid, index);
              outputs := outputs + [index];
            case Bad(code) =>
              GrowInvalid(outputs, invalid, index, code);
              invalid := invalid + [Invalid(index, code)];
              partial := true;
          }
      }
      if failure != [] {
        if outputs == [] {
          return Threw(failure[0], posts, receipts);
        }
        invalid := EndEarly(outputs, invalid, index, if declined then ProviderRejected else OutcomeUnknown, count);
        return Returned(outputs, Summary(count, |outputs|, invalid, observed, true), posts, receipts);
      }
      index := index + 1;
    }
    StopAt(answers, count);
    assert answers[..count] == answers;
    if Clean(answers) {
      CleanIsComplete(answers);
    }
    return Returned(outputs, Summary(count, |outputs|, invalid, observed, partial), posts, receipts);
  }

  lemma ImagesNext(answers: seq<Answer>, k: nat)
    requires k < |answers|
    ensures Images(answers[..k + 1]) ==
              if Delivers(answers[k]) then Images(answers[..k]) + [k] else Images(answers[..k])
    ensures Clean(answers[..k + 1]) <==> Clean(answers[..k]) && Delivers(answers[k]) && |answers[k].items| == 1
  {
    hide Delivers;
    var next := answers[..k + 1];
    assert |next| == k + 1 && next[k] == answers[k] && next[..k] == answers[..k];
    assert Images(next) == if Delivers(next[k]) then Images(next[..k]) + [k] else Images(next[..k]);
    CleanNext(answers, k);
  }

  lemma CleanNext(answers: seq<Answer>, k: nat)
    requires k < |answers|
    ensures Clean(answers[..k + 1]) <==> Clean(answers[..k]) && Delivers(answers[k]) && |answers[k].items| == 1
  {
    var next := answers[..k + 1];
    assert next[k] == answers[k];
    assert forall i :: 0 <= i < k ==> next[i] == answers[..k][i];
  }

  lemma {:induction false} StopAt(answers: seq<Answer>, k: nat)
    requires k <= |answers| && (forall i :: 0 <= i < k ==> Legible(answers[i]))
    requires k < |answers| ==> !Legible(answers[k])
    ensures Stop(answers) == k
  {
    if k > 0 { StopAt(answers[1..], k - 1); }
  }

  /** Notes the call that ended the loop and every index behind it. */
  method EndEarly(outputs: seq<nat>, invalid: seq<Invalid>, index: nat, code: SafeCode, count: nat)
    returns (all: seq<Invalid>)
    requires Partitions(outputs, invalid, index) && index < count
    ensures Partitions(outputs, all, count) && all != []
    ensures forall e :: e in all ==>
              e in invalid || e == Invalid(index, code) || (e.index > index && e.code == NotAttempted)
  {
    hide Partitions;
    GrowInvalid(outputs, invalid, index, code);
    all := NotAttemptedFrom(outputs, invalid + [Invalid(index, code)], index + 1, count);
  }

  method NotAttemptedFrom(outputs: seq<nat>, invalid: seq<Invalid>, from: nat, count: nat) returns (all: seq<Invalid>)
    requires Partitions(outputs, invalid, from) && from <= count
    ensures Partitions(outputs, all, count) && (invalid != [] ==> all != [])
    ensures forall e :: e in all ==> e in invalid || (e.index >= from && e.code == NotAttempted)
  {
    hide Partitions;
    all := invalid;
    for missing := from to count
      invariant Partitions(outputs, all, missing) && (invalid != [] ==> all != [])
      invariant forall e :: e in all ==> e in invalid || (e.index >= from && e.code == NotAttempted)
    {
      GrowInvalid(outputs, all, missing, NotAttempted);
      all := all + [Invalid(missing, NotAttempted)];
    }
  }

  /** The one answer of OpenAI carries all images: record i is candidate i, extra records are
      counted but never become candidates. */
  method ReadOpenAI(n: nat, records: seq<Item>) returns (outputs: seq<nat>, summary: Summary)
    ensures outputs == ImagesOf(records, n) && Partitions(outputs, summary.invalid, n)
    ensures summary.expected == n && summary.valid == |outputs| && summary.observed == |records|
    ensures summary.partial <==> !CleanOf(records, n)
    ensures summary.invalid != [] ==> summary.partial
    ensures forall e :: e in summary.invalid ==>
              if e.index >= |records| then e.code == ResultMissing
              else records[e.index] == Bad(e.code) || (records[e.index].Unfetchable? && e.code == ResultInvalid)
  {
    hide Partitions;
    StartEmpty();
    var invalid: seq<Invalid> := [];
    outputs := [];
    var partial := |records| != n;
    for index := 0 to n
      invariant outputs == ImagesOf(records, index) && Partitions(outputs, invalid, index)
      invariant invalid != [] ==> partial
      invariant partial <==> |records| != n || !forall i :: 0 <= i < index ==> ItemAt(records, i).Image?
      invariant forall e :: e in invalid ==>
                  if e.index >= |records| then e.code == ResultMissing
                  else records[e.index] == Bad(e.code) || (records[e.index].Unfetchable? && e.code == ResultInvalid)
    {
      var item := ItemAt(records, index);
      if item.Image? {
        GrowOutputs(outputs, invalid, index);
        outputs := outputs + [index];
      } else {
        var code := if item.Bad? then item.code else ResultInvalid;
        GrowInvalid(outputs, invalid, index, code);
        invalid := invalid + [Invalid(index, code)];
        partial := true;
      }
    }
    summary := Summary(n, |outputs|, invalid, |records|, partial);
  }

  /** A stored output as the restart finds it: the candidate index it names, if it names an
      integer, and whether its image passes. */
  datatype Found = Found(named: seq<int>, image: bool)

  function CandidateAt(stored: seq<Found>, at: nat): int
    requires at < |stored|
  {
    if stored[at].named != [] then stored[at].named[0] else at
  }

  ghost predicate Verified(stored: seq<Found>, expected: nat, upTo: nat, i: int)
    requires upTo <= |stored|
  {
    0 <= i < expected && exists at :: 0 <= at < upTo && CandidateAt(stored, at) == i && stored[at].image
  }

  /** What a restart may deliver of a task that was running: each index for which some stored
      output passes, and a note for every other index. */
  method ProjectStored(stored: seq<Found>, expected: nat) returns (seen: set<nat>, summary: Summary)
    ensures forall i: nat :: i in seen <==> Verified(stored, expected, |stored|, i)
    ensures exists outputs: seq<nat> ::
              Partitions(outputs, summary.invalid, expected) && (forall i :: i in outputs <==> i in seen)
    ensures summary.expected == expected && summary.valid == |seen| && summary.observed == |stored|
    ensures summary.valid + |summary.invalid| == expected && summary.partial
    ensures forall e :: e in summary.invalid ==> e.code == RecoveredUnknown
  {
    seen := {};
    for at := 0 to |stored|
      invariant forall i: nat :: i in seen <==> Verified(stored, expected, at, i)
    {
      var candidate := CandidateAt(stored, at);
      if candidate < 0 || candidate >= expected || candidate in seen {
        continue;
      }
      if stored[at].image {
        seen := seen + {candidate};
      }
    }
    var invalid: seq<Invalid> := [];
    ghost var outputs: seq<nat> := [];
    hide Partitions;
    StartEmpty();
    for index := 0 to expected
      invariant Partitions(outputs, invalid, index)
      invariant forall i :: i in outputs <==> i in seen && i < index
      invariant forall e :: e in invalid ==> e.code == RecoveredUnknown
    {
      if index !in seen {
        GrowInvalid(outputs, invalid, index, RecoveredUnknown);
        invalid := invalid + [Invalid(index, RecoveredUnknown)];
      } else {
        GrowOutputs(outputs, invalid, index);
        outputs := outputs + [index];
      }
    }
    CountSeen(outputs, invalid, seen, expected);
    summary := Summary(expected, |seen|, invalid, |stored|, true);
  }

  lemma CountSeen(outputs: seq<nat>, invalid: seq<Invalid>, seen: set<nat>, n: nat)
    requires Partitions(outputs, invalid, n) && forall i :: i in outputs <==> i in seen
    ensures |seen| + |invalid| == n
  {
    DistinctCount(outputs, seen);
  }

  lemma {:induction false} DistinctCount(xs: seq<nat>, all: set<nat>)
    requires Ascending(xs) && forall i :: i in xs <==> i in all
    ensures |xs| == |all|
  {
    if xs == [] {
      assert all == {};
    } else {
      var last := xs[|xs| - 1];
      assert forall i :: i in xs[..|xs| - 1] <==> i in all - {last};
      DistinctCount(xs[..|xs| - 1], all - {last});
    }
  }
}
