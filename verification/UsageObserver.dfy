/** The incremental reader of usage reports in an event stream, `textReasoningResultUsageObserver`
    of gateway/app.ts. Chunks are decoded text; the decoder itself is not part of this model. */
module UsageObserving {
  import opened UsageLedger

  datatype Option<T> = None | Some(value: T)

  const LF: char := '\n'
  const CR: char := '\r'

  // ---- Cutting the text into frames ----

  predicate BreaksAt(s: string, i: nat) { i + 1 < |s| && s[i] == LF && s[i + 1] == LF }

  /** The first place of an empty line, as indexOf finds it; else the length of the text. */
  function Boundary(s: string): (i: nat)
    ensures i == |s| || BreaksAt(s, i)
    ensures forall j :: 0 <= j < i ==> !BreaksAt(s, j)
  {
    if s == [] || BreaksAt(s, 0) then 0
    else
      var i := 1 + Boundary(s[1..]);
      assert forall j :: 0 < j < i ==> BreaksAt(s, j) == BreaksAt(s[1..], j - 1);
      i
  }

  function Frames(s: string): seq<string>
    decreases |s|
  {
    var i := Boundary(s);
    if i == |s| then [] else [s[..i]] + Frames(s[i + 2..])
  }

  /** What is left after the last complete frame. */
  function Leftover(s: string): string
    decreases |s|
  {
    var i := Boundary(s);
    if i == |s| then s else Leftover(s[i + 2..])
  }

  // ---- Reading a frame ----

  function Lines(s: string): (lines: seq<string>)
    ensures lines != []
  {
    if s == [] then [""]
    else
      var rest := Lines(s[1..]);
      if s[0] == LF then [""] + rest else [[s[0]] + rest[0]] + rest[1..]
  }

  /** The white space that String.prototype.trim removes. */
  predicate IsSpace(c: char) {
    var u := c as int;
    || 9 <= u <= 13 || u == 0x20 || u == 0xA0 || u == 0x1680 || 0x2000 <= u <= 0x200A
    || u == 0x2028 || u == 0x2029 || u == 0x202F || u == 0x205F || u == 0x3000 || u == 0xFEFF
  }

  function TrimStart(s: string): string {
    if s != [] && IsSpace(s[0]) then TrimStart(s[1..]) else s
  }

  function TrimEnd(s: string): string {
    if s != [] && IsSpace(s[|s| - 1]) then TrimEnd(s[..|s| - 1]) else s
  }

  /** The text that a line asks to be parsed; empty for none. */
  function DataOf(line: string): string {
    if "data:" <= line then
      var data := TrimEnd(TrimStart(line[5..]));
      if data == "[DONE]" then "" else data
    else ""
  }

  function DataIn(lines: seq<string>): seq<string> {
    if lines == [] then []
    else
      var data := DataOf(lines[|lines| - 1]);
      DataIn(lines[..|lines| - 1]) + if data == "" then [] else [data]
  }

  function DataInFrames(frames: seq<string>): seq<string> {
    if frames == [] then [] else DataInFrames(frames[..|frames| - 1]) + DataIn(Lines(frames[|frames| - 1]))
  }

  // ---- Usage reports ----

  /** A field of a report: absent or null, a non-negative safe integer, or anything else. */
  datatype Field = Missing | Count(value: SafeCount) | Unusable

  type SafeCount = n: nat | n <= MAX_SAFE_INTEGER witness 0

  datatype Report = Report(
    completionTokens: Field, outputTokens: Field, totalTokens: Field, promptTokens: Field, inputTokens: Field)

  datatype Usage = Usage(outputUnits: Option<SafeCount>, totalTokens: Option<SafeCount>)

  function OrElse(a: Field, b: Field): Field { if a.Missing? then b else a }

  function Observe(u: Usage, r: Report): Usage {
    var output := OrElse(r.completionTokens, r.outputTokens);
    var input := OrElse(r.promptTokens, r.inputTokens);
    Usage(
      if output.Count? then Some(output.value) else u.outputUnits,
      if r.totalTokens.Count? then Some(r.totalTokens.value)
      else if input.Count? && output.Count? && input.value + output.value <= MAX_SAFE_INTEGER
      then Some(input.value + output.value)
      else u.totalTokens)
  }

  /** What parsing a text and looking for its usage yields; texts without an entry do not
      parse, or hold no usage. A stream has finitely many texts, so a finite map is enough. */
  type Reports = map<string, Report>

  function ObserveAll(reports: Reports, u: Usage, data: seq<string>): Usage {
    if data == [] then u
    else
      var before := ObserveAll(reports, u, data[..|data| - 1]);
      var last := data[|data| - 1];
      if last in reports then Observe(before, reports[last]) else before
  }

  // ---- The observer ----

  datatype Observer = Observer(buffer: string, usage: Usage)

  const Fresh := Observer("", Usage(None, None))

  /** Replaces every CR LF of one chunk by LF. */
  function Normalize(s: string): string
    decreases |s|
  {
    if |s| < 2 then s
    else if s[0] == CR && s[1] == LF then [LF] + Normalize(s[2..])
    else [s[0]] + Normalize(s[1..])
  }

  function Pushed(reports: Reports, o: Observer, chunk: string): Observer {
    var text := o.buffer + Normalize(chunk);
    Observer(Leftover(text), ObserveAll(reports, o.usage, DataInFrames(Frames(text))))
  }

  function PushAll(reports: Reports, o: Observer, chunks: seq<string>): Observer {
    if chunks == [] then o else Pushed(reports, PushAll(reports, o, chunks[..|chunks| - 1]), chunks[|chunks| - 1])
  }

  /** What the stream is charged for. */
  function Actual(u: Usage, inputBytes: int, reservedOutput: int, reservedTotal: int): Amount {
    var output := if u.outputUnits.Some? then u.outputUnits.value else 0;
    Amount(1, inputBytes,
           if u.outputUnits.Some? then u.outputUnits.value else reservedOutput,
           if u.totalTokens.Some? && u.totalTokens.value >= output then u.totalTokens.value else reservedTotal)
  }

  class UsageObserver {
    const reports: Reports
    var buffer: string
    var outputUnits: Option<SafeCount>
    var totalTokens: Option<SafeCount>

    function View(): Observer
      reads this
    {
      Observer(buffer, Usage(outputUnits, totalTokens))
    }

    constructor (reports: Reports)
      ensures View() == Fresh && this.reports == reports
    {
      this.reports := reports;
      buffer, outputUnits, totalTokens := "", None, None;
    }

    /** Axes that were not reported, or not consistently, cost what was reserved. */
    method ActualUsage(inputBytes: int, reservedOutput: int, reservedTotal: int) returns (actual: Amount)
      ensures actual == Actual(View().usage, inputBytes, reservedOutput, reservedTotal)
    {
      var observedOutput := if outputUnits.Some? then outputUnits.value else 0;
      var reportedTotal := if totalTokens.Some? && totalTokens.value >= observedOutput then totalTokens else None;
      actual := Amount(
        1, inputBytes,
        if outputUnits.Some? then outputUnits.value else reservedOutput,
        if reportedTotal.Some? then reportedTotal.value else reservedTotal);
    }

    method Push(chunk: string)
      modifies this
      ensures View() == Pushed(reports, old(View()), chunk)
    {
      hide Frames, Leftover, Boundary, DataIn, DataInFrames, ObserveAll, Normalize;
      buffer := buffer + Normalize(chunk);
      ghost var text := buffer;
      ghost var before := View().usage;
      ghost var frames: seq<string> := [];
      NothingRead(reports, before);
      var boundary := Boundary(buffer);
      BoundaryWithin(buffer);
      while boundary < |buffer|
        invariant boundary == Boundary(buffer) <= |buffer|
        invariant frames + Frames(buffer) == Frames(text) && Leftover(buffer) == Leftover(text)
        invariant View().usage == ObserveAll(reports, before, DataInFrames(frames))
        decreases |buffer|
      {
        FramesNext(buffer);
        var frame := buffer[..boundary];
        buffer := buffer[boundary + 2..];
        ReadMore(reports, before, frames, frame);
        assert frames + ([frame] + Frames(buffer)) == frames + [frame] + Frames(buffer);
        ReadFrame(frame);
        frames := frames + [frame];
        boundary := Boundary(buffer);
        BoundaryWithin(buffer);
      }
      FramesNext(buffer);
      assert frames + [] == frames;
    }

    method ReadFrame(frame: string)
      modifies this`outputUnits, this`totalTokens
      ensures View().usage == ObserveAll(reports, old(View().usage), DataIn(Lines(frame)))
    {
      ghost var before := View().usage;
      var lines := Lines(frame);
      for i := 0 to |lines|
        invariant View().usage == ObserveAll(reports, before, DataIn(lines[..i]))
      {
        var line := lines[i];
        assert lines[..i + 1][..i] == lines[..i];
        if !("data:" <= line) {
          assert DataIn(lines[..i + 1]) == DataIn(lines[..i]);
          continue;
        }
        var data := TrimEnd(TrimStart(line[5..]));
        if data == "" || data == "[DONE]" {
          assert DataIn(lines[..i + 1]) == DataIn(lines[..i]);
          continue;
        }
        assert DataIn(lines[..i + 1])[..|DataIn(lines[..i])|] == DataIn(lines[..i]);
        if data in reports {
          ObserveUsage(reports[data]);
        }
      }
      assert lines[..|lines|] == lines;
    }

    method ObserveUsage(r: Report)
      modifies this`outputUnits, this`totalTokens
      ensures View().usage == Observe(old(View().usage), r)
    {
      var output := OrElse(r.completionTokens, r.outputTokens);
      if output.Count? {
        outputUnits := Some(output.value);
      }
      if r.totalTokens.Count? {
        totalTokens := Some(r.totalTokens.value);
      } else {
        var input := OrElse(r.promptTokens, r.inputTokens);
        if input.Count? && output.Count? {
          var total := input.value + output.value;
          if total <= MAX_SAFE_INTEGER {
            totalTokens := Some(total);
          }
        }
      }
    }
  }

  lemma {:induction false} ObserveMore(reports: Reports, u: Usage, a: seq<string>, b: seq<string>)
    ensures ObserveAll(reports, u, a + b) == ObserveAll(reports, ObserveAll(reports, u, a), b)
  {
    if b == [] {
      assert a + b == a;
    } else {
      ObserveMore(reports, u, a, b[..|b| - 1]);
      assert (a + b)[..|a + b| - 1] == a + b[..|b| - 1];
    }
  }

  lemma NothingRead(reports: Reports, u: Usage)
    ensures ObserveAll(reports, u, DataInFrames([])) == u
  {
  }

  lemma ReadMore(reports: Reports, u: Usage, frames: seq<string>, frame: string)
    ensures ObserveAll(reports, u, DataInFrames(frames + [frame]))
         == ObserveAll(reports, ObserveAll(reports, u, DataInFrames(frames)), DataIn(Lines(frame)))
  {
    hide DataIn, ObserveAll;
    assert (frames + [frame])[..|frames|] == frames;
    ObserveMore(reports, u, DataInFrames(frames), DataIn(Lines(frame)));
  }

  lemma BoundaryWithin(s: string)
    ensures Boundary(s) <= |s| && (Boundary(s) < |s| ==> Boundary(s) + 1 < |s|)
  {
  }

  lemma FramesNext(s: string)
    ensures var i := Boundary(s);
            if i < |s|
            then i + 1 < |s| && Frames(s) == [s[..i]] + Frames(s[i + 2..]) && Leftover(s) == Leftover(s[i + 2..])
            else Frames(s) == [] && Leftover(s) == s
  {
    hide Boundary, BreaksAt;
    BoundaryWithin(s);
  }

  // ---- Chunking does not matter ----

  function Concat(chunks: seq<string>): string {
    if chunks == [] then "" else Concat(chunks[..|chunks| - 1]) + chunks[|chunks| - 1]
  }

  /** The text that the observer sees: each chunk normalised by itself. */
  function Seen(chunks: seq<string>): string {
    if chunks == [] then "" else Seen(chunks[..|chunks| - 1]) + Normalize(chunks[|chunks| - 1])
  }

  lemma BoundaryStays(a: string, b: string)
    requires Boundary(a) < |a|
    ensures Boundary(a + b) == Boundary(a)
  {
    var i, j := Boundary(a), Boundary(a + b);
    assert BreaksAt(a + b, i);
    assert forall k: nat :: k + 1 < |a| ==> BreaksAt(a, k) == BreaksAt(a + b, k);
  }

  /** Reading on from the leftover of a prefix finds the frames of the rest. */
  lemma {:induction false} FramesResume(a: string, b: string)
    ensures Frames(a + b) == Frames(a) + Frames(Leftover(a) + b)
    ensures Leftover(a + b) == Leftover(Leftover(a) + b)
    decreases |a|
  {
    hide Frames, Leftover, Boundary, BreaksAt;
    var i := Boundary(a);
    BoundaryWithin(a);
    FramesNext(a);
    if i < |a| {
      BoundaryStays(a, b);
      FramesNext(a + b);
      assert (a + b)[..i] == a[..i] && (a + b)[i + 2..] == a[i + 2..] + b;
      FramesResume(a[i + 2..], b);
      assert [a[..i]] + (Frames(a[i + 2..]) + Frames(Leftover(a) + b))
          == [a[..i]] + Frames(a[i + 2..]) + Frames(Leftover(a) + b);
    } else {
      assert [] + Frames(a + b) == Frames(a + b);
    }
  }

  lemma {:induction false} DataResumes(a: seq<string>, b: seq<string>)
    ensures DataInFrames(a + b) == DataInFrames(a) + DataInFrames(b)
  {
    hide DataIn, Lines;
    if b == [] {
      assert a + b == a;
    } else {
      DataResumes(a, b[..|b| - 1]);
      assert (a + b)[..|a + b| - 1] == a + b[..|b| - 1];
    }
  }

  lemma {:induction false} PushAllSees(reports: Reports, chunks: seq<string>)
    ensures PushAll(reports, Fresh, chunks)
         == Observer(Leftover(Seen(chunks)), ObserveAll(reports, Fresh.usage, DataInFrames(Frames(Seen(chunks)))))
  {
    if chunks == [] {
      assert Boundary("") == 0;
    } else {
      var before, last := chunks[..|chunks| - 1], chunks[|chunks| - 1];
      PushAllSees(reports, before);
      FramesResume(Seen(before), Normalize(last));
      var more := Frames(Leftover(Seen(before)) + Normalize(last));
      DataResumes(Frames(Seen(before)), more);
      ObserveMore(reports, Fresh.usage, DataInFrames(Frames(Seen(before))), DataInFrames(more));
    }
  }

  /** The leftover is the unterminated tail: the text is its frames, each closed by the
      first empty line after it, followed by a rest without an empty line. */
  lemma {:induction false} TextIsFramesAndTail(s: string)
    ensures Closed(Frames(s)) + Leftover(s) == s
    ensures Boundary(Leftover(s)) == |Leftover(s)|
    ensures forall f :: f in Frames(s) ==> Boundary(f + [LF, LF]) == |f|
    decreases |s|
  {
    var i := Boundary(s);
    hide Frames, Leftover, Boundary, BreaksAt;
    FramesNext(s);
    BoundaryWithin(s);
    if i < |s| {
      TextIsFramesAndTail(s[i + 2..]);
      FrameEndsFirst(s);
      var f, rest := s[..i], s[i + 2..];
      assert ([f] + Frames(rest))[1..] == Frames(rest);
      assert forall g :: g in [f] + Frames(rest) <==> g == f || g in Frames(rest);
      assert f + [LF, LF] + Closed(Frames(rest)) + Leftover(rest)
          == f + [LF, LF] + (Closed(Frames(rest)) + Leftover(rest));
    } else {
      assert "" + s == s;
    }
  }

  lemma FrameEndsFirst(s: string)
    requires Boundary(s) < |s|
    ensures var f := s[..Boundary(s)];
            Boundary(f + [LF, LF]) == |f| && s == f + [LF, LF] + s[Boundary(s) + 2..]
  {
    var i := Boundary(s);
    var f := s[..i];
    assert BreaksAt(f + [LF, LF], i);
    assert forall j: nat :: j < i ==> (BreaksAt(f + [LF, LF], j) ==> BreaksAt(s, j));
  }

  function Closed(frames: seq<string>): string {
    if frames == [] then "" else frames[0] + [LF, LF] + Closed(frames[1..])
  }

  // ---- Carriage returns ----

  predicate EndsCr(s: string) { s != [] && s[|s| - 1] == CR }

  predicate StartsLf(s: string) { s != [] && s[0] == LF }

  /** Normalising two pieces apart differs exactly when the cut divides a CR LF, and then
      by the one CR that stays. */
  lemma {:induction false} NormalizePieces(a: string, b: string)
    ensures if EndsCr(a) && StartsLf(b) then |Normalize(a + b)| + 1 == |Normalize(a)| + |Normalize(b)|
            else Normalize(a + b) == Normalize(a) + Normalize(b)
    decreases |a|
  {
    hide Normalize, EndsCr, StartsLf;
    if a == [] {
      NormalizeNothing(b);
    } else if |a| == 1 {
      assert a == [a[0]];
      NormalizeOne(a[0], b);
    } else {
      NormalizeStart(a, b);
      NormalizePieces(if a[0] == CR && a[1] == LF then a[2..] else a[1..], b);
    }
  }

  lemma NormalizeNothing(b: string)
    ensures Normalize("" + b) == Normalize("") + Normalize(b) && !EndsCr("")
  {
    assert "" + b == b;
  }

  /** The first step of normalising a longer text does not see what follows it. */
  lemma NormalizeStart(a: string, b: string)
    requires |a| >= 2
    ensures var rest := if a[0] == CR && a[1] == LF then a[2..] else a[1..];
            var first := if a[0] == CR && a[1] == LF then LF else a[0];
            && Normalize(a) == [first] + Normalize(rest) && Normalize(a + b) == [first] + Normalize(rest + b)
            && EndsCr(a) == EndsCr(rest)
  {
    assert (a + b)[2..] == a[2..] + b && (a + b)[1..] == a[1..] + b;
  }

  lemma NormalizeOne(c: char, b: string)
    ensures if EndsCr([c]) && StartsLf(b) then |Normalize([c] + b)| + 1 == |Normalize([c])| + |Normalize(b)|
            else Normalize([c] + b) == Normalize([c]) + Normalize(b)
  {
    assert ([c] + b)[1..] == b;
    if EndsCr([c]) && StartsLf(b) {
      assert ([c] + b)[2..] == b[1..];
      NormalizeLf(b);
    } else if b == [] {
      assert [c] + b == [c];
    }
  }

  lemma NormalizeLf(b: string)
    requires StartsLf(b)
    ensures Normalize(b) == [LF] + Normalize(b[1..])
  {
    if |b| == 1 { assert b[1..] == [] && b == [LF]; }
  }

  /** The i-th cut divides a CR LF of the stream. */
  predicate DividesCrLf(chunks: seq<string>, i: nat)
    requires i < |chunks|
  {
    EndsCr(Concat(chunks[..i])) && StartsLf(chunks[i])
  }

  ghost predicate NoneDivided(chunks: seq<string>) {
    forall i :: 0 <= i < |chunks| ==> !DividesCrLf(chunks, i)
  }

  lemma NoneDividedPrefix(chunks: seq<string>)
    requires chunks != []
    ensures var last := |chunks| - 1;
            NoneDivided(chunks) <==> NoneDivided(chunks[..last]) && !DividesCrLf(chunks, last)
  {
    hide EndsCr, StartsLf, Concat;
    var last := |chunks| - 1;
    forall i | 0 <= i < last ensures DividesCrLf(chunks, i) == DividesCrLf(chunks[..last], i) {
      assert chunks[..last][..i] == chunks[..i];
    }
  }

  /** The observer sees the normalised stream exactly when no cut divides a CR LF. */
  lemma {:induction false} SeenExactly(chunks: seq<string>)
    ensures Seen(chunks) == Normalize(Concat(chunks)) <==> NoneDivided(chunks)
    ensures |Seen(chunks)| >= |Normalize(Concat(chunks))|
    ensures |Seen(chunks)| == |Normalize(Concat(chunks))| ==> NoneDivided(chunks)
  {
    hide NoneDivided, Normalize, EndsCr, StartsLf;
    if chunks == [] {
      NothingCut(chunks);
    } else {
      var last := |chunks| - 1;
      SeenExactly(chunks[..last]);
      NoneDividedPrefix(chunks);
      NormalizePieces(Concat(chunks[..last]), chunks[last]);
    }
  }

  lemma NothingCut(chunks: seq<string>)
    requires chunks == []
    ensures NoneDivided(chunks) && Normalize(Concat(chunks)) == "" == Seen(chunks)
  {
  }

  lemma {:induction false} NothingToDivide(chunks: seq<string>)
    requires CR !in Concat(chunks)
    ensures NoneDivided(chunks)
  {
    hide NoneDivided;
    if chunks == [] {
      NothingCut(chunks);
    } else {
      NothingToDivide(chunks[..|chunks| - 1]);
      NoneDividedPrefix(chunks);
    }
  }

  /** However a stream is cut, if no cut divides a CR LF then the usage observed and the
      leftover are those of one push of the whole text. */
  lemma ChunkingIndependence(reports: Reports, chunks: seq<string>)
    requires NoneDivided(chunks)
    ensures PushAll(reports, Fresh, chunks) == Pushed(reports, Fresh, Concat(chunks))
    ensures PushAll(reports, Fresh, chunks).buffer == Leftover(Normalize(Concat(chunks)))
  {
    PushAllSees(reports, chunks);
    SeenExactly(chunks);
    assert "" + Normalize(Concat(chunks)) == Normalize(Concat(chunks));
  }

  /** Frames and leftover are those of one push of the whole text if and only if no cut
      divides a CR LF. */
  lemma ChunkingExactly(chunks: seq<string>)
    ensures var seen, whole := Seen(chunks), Normalize(Concat(chunks));
            Frames(seen) == Frames(whole) && Leftover(seen) == Leftover(whole) <==> NoneDivided(chunks)
  {
    hide Frames, Leftover, Normalize, Seen, Concat, NoneDivided, Closed;
    SeenExactly(chunks);
    TextIsFramesAndTail(Seen(chunks));
    TextIsFramesAndTail(Normalize(Concat(chunks)));
  }

  /** A stream without CR may be cut anywhere. */
  lemma ChunkingIndependenceWithoutCr(reports: Reports, chunks: seq<string>)
    requires CR !in Concat(chunks)
    ensures PushAll(reports, Fresh, chunks) == Pushed(reports, Fresh, Concat(chunks))
  {
    NothingToDivide(chunks);
    ChunkingIndependence(reports, chunks);
  }

  /** The condition is needed: a cut inside the second CR LF of an empty line hides the
      frame before it from the observer. */
  lemma DividedCrLfHidesUsage(reports: Reports)
    ensures PushAll(reports, Fresh, ["data:1\r\n\r", "\n"]) == Observer("data:1\n\r\n", Fresh.usage)
    ensures "1" in reports ==>
              Pushed(reports, Fresh, "data:1\r\n\r\n") == Observer("", Observe(Fresh.usage, reports["1"]))
  {
    Hidden(reports);
    if "1" in reports { Shown(reports); }
  }

  lemma Hidden(reports: Reports)
    ensures PushAll(reports, Fresh, ["data:1\r\n\r", "\n"]) == Observer("data:1\n\r\n", Fresh.usage)
  {
    var text := "data:1\n\r\n";
    assert forall j: nat :: !BreaksAt(text, j);
    assert Boundary(text) == |text|;
    hide Boundary, BreaksAt, Seen, Frames, Leftover, Pushed;
    HiddenText();
    FramesNext(text);
    PushAllSees(reports, ["data:1\r\n\r", "\n"]);
  }

  lemma HiddenText()
    ensures Seen(["data:1\r\n\r", "\n"]) == "data:1\n\r\n"
  {
    NormalizeText("data:1", "\r\n\r");
    assert "data:1\r\n\r" == "data:1" + "\r\n\r";
    assert Normalize("\r\n\r") == "\n\r";
    assert ["data:1\r\n\r", "\n"][..1] == ["data:1\r\n\r"] && ["data:1\r\n\r"][..0] == [];
  }

  /** Text without CR is left alone. */
  lemma {:induction false} NormalizeText(a: string, b: string)
    requires CR !in a
    ensures Normalize(a + b) == a + Normalize(b)
  {
    if a == [] {
      assert a + b == b;
    } else {
      assert (a + b)[1..] == a[1..] + b;
      NormalizeText(a[1..], b);
    }
  }

  lemma ShownText()
    ensures Normalize("data:1\r\n\r\n") == "data:1\n\n"
  {
    NormalizeText("data:1", "\r\n\r\n");
    assert "data:1\r\n\r\n" == "data:1" + "\r\n\r\n";
    assert Normalize("\r\n\r\n") == "\n\n" by { assert "\r\n\r\n"[2..] == "\r\n"; }
  }

  lemma ShownFrames()
    ensures Frames("data:1\n\n") == ["data:1"] && Leftover("data:1\n\n") == ""
  {
    var text := "data:1\n\n";
    assert BreaksAt(text, 6);
    assert forall j: nat :: j < 6 ==> !BreaksAt(text, j);
    assert Boundary(text) == 6 && Boundary("") == 0;
    hide Boundary, BreaksAt, Frames, Leftover;
    FramesNext(text);
    FramesNext("");
    assert text[..6] == "data:1" && text[8..] == "";
  }

  lemma ShownData()
    ensures DataInFrames(["data:1"]) == ["1"]
  {
    OneLine("data:1");
    assert "data:1"[5..] == "1" && TrimEnd(TrimStart("1")) == "1";
    assert DataIn(["data:1"]) == ["1"];
    assert ["data:1"][..0] == [];
    assert DataInFrames([]) == [];
  }

  lemma Shown(reports: Reports)
    requires "1" in reports
    ensures Pushed(reports, Fresh, "data:1\r\n\r\n") == Observer("", Observe(Fresh.usage, reports["1"]))
  {
    hide Frames, Leftover, Normalize, DataInFrames, Observe;
    ShownText();
    ShownFrames();
    ShownData();
    assert "" + "data:1\n\n" == "data:1\n\n";
    assert ["1"][..0] == [] && ObserveAll(reports, Fresh.usage, []) == Fresh.usage;
    assert ObserveAll(reports, Fresh.usage, ["1"]) == Observe(Fresh.usage, reports["1"]);
    assert Fresh.buffer == "";
  }

  lemma {:induction false} OneLine(s: string)
    requires LF !in s
    ensures Lines(s) == [s]
  {
    if s == "" {
      assert Lines("") == [""];
    } else {
      OneLine(s[1..]);
      var rest := Lines(s[1..]);
      assert s[0] in s && [s[0]] + s[1..] == s;
      assert Lines(s) == [[s[0]] + rest[0]] + rest[1..];
    }
  }
}
