/** Reading an event stream gives back what was written into it: the data of its events, one
    text for each data line, in order, whether lines end with LF or CR LF. */
module StreamText {
  import opened UsageObserving

  /** A line of an event: data between white space, the end mark, or any other field. */
  datatype Line = Data(before: string, text: string, after: string) | Done(before: string, after: string)
                | Other(text: string)

  type Event = seq<Line>

  /** The white space of JavaScript that may stand beside the data in one line, a lone CR included. */
  predicate Pad(c: char) {
    c in "\t\r\U{b}\U{c} \U{a0}\U{1680}\U{2000}\U{2001}\U{2002}\U{2003}\U{2004}\U{2005}\U{2006}\U{2007}\U{2008}"
         + "\U{2009}\U{200a}\U{2028}\U{2029}\U{202f}\U{205f}\U{3000}\U{feff}"
  }

  predicate Padding(s: string) { forall i :: 0 <= i < |s| ==> Pad(s[i]) }

  lemma PadIsSpace(c: char)
    requires Pad(c)
    ensures IsSpace(c) && c != LF
  {
  }

  /** Nothing else is taken off. */
  lemma SpaceIsPad(c: char)
    requires IsSpace(c)
    ensures Pad(c) || c == LF
  {
  }

  /** No line ends within; a CR at the end would belong to the line end that follows. */
  predicate OneLine(s: string) { LF !in s && (s == "" || s[|s| - 1] != CR) }

  /** Data that is told apart from its padding and from the end mark. */
  predicate Solid(s: string) { s != "" && !IsSpace(s[0]) && !IsSpace(s[|s| - 1]) && s != "[DONE]" }

  predicate Fits(l: Line) {
    match l
    case Data(before, text, after) =>
      Padding(before) && Padding(after) && OneLine(after) && OneLine(text) && Solid(text)
    case Done(before, after) => Padding(before) && Padding(after) && OneLine(after)
    case Other(text) => OneLine(text) && text != "" && !("data:" <= text)
  }

  predicate EventFits(e: Event) { e != [] && forall i :: 0 <= i < |e| ==> Fits(e[i]) }

  predicate StreamFits(es: seq<Event>) { forall i :: 0 <= i < |es| ==> EventFits(es[i]) }

  function Show(l: Line): string {
    match l
    case Data(before, text, after) => "data:" + (before + (text + after))
    case Done(before, after) => "data:" + (before + ("[DONE]" + after))
    case Other(text) => text
  }

  function ShowEvent(e: Event, eol: string): string
    requires e != []
  {
    if |e| == 1 then Show(e[0]) else Show(e[0]) + (eol + ShowEvent(e[1..], eol))
  }

  /** The events, each followed by an empty line. */
  function ShowStream(es: seq<Event>, eol: string): string
    requires forall i :: 0 <= i < |es| ==> es[i] != []
  {
    if es == [] then "" else ShowEvent(es[0], eol) + (eol + (eol + ShowStream(es[1..], eol)))
  }

  function DataOfEvent(e: Event): seq<string> {
    if e == [] then [] else (if e[0].Data? then [e[0].text] else []) + DataOfEvent(e[1..])
  }

  function DataOfStream(es: seq<Event>): seq<string> {
    if es == [] then [] else DataOfEvent(es[0]) + DataOfStream(es[1..])
  }

  // ---- One line ----

  lemma {:induction false} TrimPadded(before: string, s: string)
    requires Padding(before) && s != "" && !IsSpace(s[0])
    ensures TrimStart(before + s) == s
  {
    if before == "" {
      assert before + s == s;
    } else {
      assert (before + s)[1..] == before[1..] + s;
      assert Pad(before[0]);
      PadIsSpace(before[0]);
      hide Pad, IsSpace;
      TrimPadded(before[1..], s);
    }
  }

  lemma {:induction false} TrimPaddedEnd(s: string, after: string)
    requires Padding(after) && s != "" && !IsSpace(s[|s| - 1])
    ensures TrimEnd(s + after) == s
  {
    if after == "" {
      assert s + after == s;
    } else {
      var last := |after| - 1;
      assert (s + after)[..|s + after| - 1] == s + after[..last];
      assert Pad(after[last]);
      PadIsSpace(after[last]);
      hide Pad, IsSpace;
      TrimPaddedEnd(s, after[..last]);
    }
  }

  lemma PaddedIsRead(before: string, text: string, after: string)
    requires Padding(before) && Padding(after) && text != "" && !IsSpace(text[0]) && !IsSpace(text[|text| - 1])
    ensures DataOf("data:" + (before + (text + after))) == if text == "[DONE]" then "" else text
  {
    var line := "data:" + (before + (text + after));
    assert line[5..] == before + (text + after);
    TrimPadded(before, text + after);
    TrimPaddedEnd(text, after);
    hide IsSpace, TrimStart, TrimEnd, Padding;
  }

  lemma PaddedIsOneLine(before: string, text: string, after: string)
    requires Padding(before) && text != "" && OneLine(text) && OneLine(after)
    ensures OneLine("data:" + (before + (text + after)))
  {
    PaddingHasNoLf(before);
    hide Padding, OneLine;
    JoinedIsOneLine(text, after);
    JoinedIsOneLine(before, text + after);
    JoinedIsOneLine("data:", before + (text + after));
  }

  lemma JoinedIsOneLine(a: string, b: string)
    requires LF !in a && OneLine(b) && (b == "" ==> OneLine(a))
    ensures OneLine(a + b)
  {
  }

  lemma PaddingHasNoLf(s: string)
    requires Padding(s)
    ensures LF !in s
  {
    hide Pad;
    forall i | 0 <= i < |s| ensures s[i] != LF { PadIsSpace(s[i]); }
  }

  lemma LineIsRead(l: Line)
    requires Fits(l)
    ensures DataOf(Show(l)) == if l.Data? then l.text else ""
    ensures OneLine(Show(l)) && Show(l) != ""
  {
    match l
    case Data(before, text, after) =>
      PaddedIsRead(before, text, after);
      PaddedIsOneLine(before, text, after);
    case Done(before, after) =>
      NoSpaceAround();
      PaddedIsRead(before, "[DONE]", after);
      PaddedIsOneLine(before, "[DONE]", after);
    case Other(_) =>
  }

  lemma NoSpaceAround()
    ensures !IsSpace('[') && !IsSpace(']')
  {
  }

  // ---- The lines of an event ----

  lemma {:induction false} LinesOfOne(s: string)
    requires LF !in s
    ensures Lines(s) == [s]
  {
    if s != [] {
      LinesOfOne(s[1..]);
      assert s == [s[0]] + s[1..];
    }
  }

  lemma {:induction false} LinesOfMore(s: string, rest: string)
    requires LF !in s
    ensures Lines(s + ([LF] + rest)) == [s] + Lines(rest)
  {
    var all := s + ([LF] + rest);
    if s == [] {
      assert all[0] == LF && all[1..] == rest;
    } else {
      LinesOfMore(s[1..], rest);
      assert all[0] == s[0] && all[1..] == s[1..] + ([LF] + rest);
      assert s == [s[0]] + s[1..];
    }
  }

  function Read(line: string): seq<string> { if DataOf(line) == "" then [] else [DataOf(line)] }

  lemma DataInBack(lines: seq<string>, line: string)
    ensures DataIn(lines + [line]) == DataIn(lines) + Read(line)
  {
    hide DataOf;
    var all := lines + [line];
    assert all[|all| - 1] == line && all[..|all| - 1] == lines;
  }

  lemma NoDataInNothing()
    ensures DataIn([]) == []
  {
  }

  /** Reading from the front is reading from the back. */
  lemma {:induction false} DataInFront(line: string, lines: seq<string>)
    ensures DataIn([line] + lines) == Read(line) + DataIn(lines)
  {
    hide DataIn, Read;
    NoDataInNothing();
    if lines == [] {
      assert [line] + lines == [] + [line];
      DataInBack([], line);
    } else {
      var rest, last := lines[..|lines| - 1], lines[|lines| - 1];
      DataInFront(line, rest);
      assert lines == rest + [last] && [line] + lines == ([line] + rest) + [last];
      DataInBack(rest, last);
      DataInBack([line] + rest, last);
    }
  }

  lemma {:induction false} EventIsRead(e: Event)
    requires EventFits(e)
    ensures DataIn(Lines(ShowEvent(e, [LF]))) == DataOfEvent(e)
  {
    hide DataOf, Show, Lines;
    LineIsRead(e[0]);
    if |e| == 1 {
      LinesOfOne(Show(e[0]));
      assert [Show(e[0])] == [Show(e[0])] + [];
      DataInFront(Show(e[0]), []);
      assert DataIn([]) == [] && DataOfEvent(e[1..]) == [];
    } else {
      EventIsRead(e[1..]);
      LinesOfMore(Show(e[0]), ShowEvent(e[1..], [LF]));
      DataInFront(Show(e[0]), Lines(ShowEvent(e[1..], [LF])));
    }
  }

  // ---- The frames of a stream ----

  /** A text without an empty line, and no line end at either end. */
  predicate Whole(s: string) {
    s != "" && s[0] != LF && s[|s| - 1] != LF && forall i :: 0 <= i < |s| ==> !BreaksAt(s, i)
  }

  /** An event ends at its first empty line. */
  lemma EndsThere(event: string, rest: string)
    requires Whole(event)
    ensures var s := event + ([LF] + ([LF] + rest));
            Boundary(s) == |event| && Frames(s) == [event] + Frames(rest)
  {
    var s, n := event + ([LF] + ([LF] + rest)), |event|;
    assert s[n] == LF && s[n + 1] == LF && s[..n] == event && s[n + 2..] == rest;
    assert BreaksAt(s, n);
    forall j | 0 <= j < n ensures !BreaksAt(s, j) {
      if j + 1 < n { assert !BreaksAt(event, j) && s[j] == event[j] && s[j + 1] == event[j + 1]; }
    }
    hide Boundary, BreaksAt, Frames;
    FramesNext(s);
  }

  lemma LineIsWhole(l: string)
    requires l != "" && LF !in l
    ensures Whole(l)
  {
  }

  lemma LinesAreWhole(l: string, rest: string)
    requires l != "" && LF !in l && Whole(rest)
    ensures Whole(l + ([LF] + rest))
  {
    var s := l + ([LF] + rest);
    forall i | 0 <= i < |s| ensures !BreaksAt(s, i) {
      if i > |l| { assert s[i] == rest[i - |l| - 1] && !BreaksAt(rest, i - |l| - 1); }
    }
  }

  lemma {:induction false} EventIsWhole(e: Event)
    requires EventFits(e)
    ensures Whole(ShowEvent(e, [LF]))
  {
    LineIsRead(e[0]);
    hide Fits, Show, Whole;
    if |e| == 1 {
      LineIsWhole(Show(e[0]));
    } else {
      EventIsWhole(e[1..]);
      LinesAreWhole(Show(e[0]), ShowEvent(e[1..], [LF]));
    }
  }

  lemma {:induction false} DataInFramesFront(frame: string, frames: seq<string>)
    ensures DataInFrames([frame] + frames) == DataIn(Lines(frame)) + DataInFrames(frames)
  {
    hide DataIn, Lines;
    if frames == [] {
      assert [frame] + frames == [frame] && [frame][..0] == [];
      assert DataInFrames([]) == [];
    } else {
      var last := |frames| - 1;
      DataInFramesFront(frame, frames[..last]);
      assert ([frame] + frames)[..|[frame] + frames| - 1] == [frame] + frames[..last];
    }
  }

  lemma {:induction false} FramesOfStream(es: seq<Event>)
    requires StreamFits(es)
    ensures DataInFrames(Frames(ShowStream(es, [LF]))) == DataOfStream(es)
  {
    hide DataIn, Lines, ShowEvent, DataOfEvent, Frames, DataInFrames;
    if es == [] {
      NothingShown();
    } else {
      FramesOfStream(es[1..]);
      EventIsWhole(es[0]);
      EndsThere(ShowEvent(es[0], [LF]), ShowStream(es[1..], [LF]));
      EventIsRead(es[0]);
      DataInFramesFront(ShowEvent(es[0], [LF]), Frames(ShowStream(es[1..], [LF])));
    }
  }

  lemma NothingShown()
    ensures DataInFrames(Frames("")) == []
  {
  }

  // ---- Line ends ----

  lemma FirstIsKept(l: string, rest: string)
    requires l != "" && OneLine(l)
    ensures var s := l + rest;
            s[0] == l[0] && s[1..] == l[1..] + rest && !(|s| > 1 && s[0] == CR && s[1] == LF)
  {
  }

  lemma FirstAgain(l: string, rest: string)
    requires l != ""
    ensures [l[0]] + (l[1..] + rest) == l + rest
  {
  }

  lemma LineBehind(l: string)
    requires l != "" && OneLine(l)
    ensures OneLine(l[1..])
  {
  }

  lemma {:induction false} NormalLine(l: string, rest: string)
    requires OneLine(l)
    ensures Normalize(l + rest) == l + Normalize(rest)
  {
    hide Normalize, OneLine;
    if l == "" {
      assert l + rest == rest && l + Normalize(rest) == Normalize(rest);
    } else {
      FirstIsKept(l, rest);
      LineBehind(l);
      NormalLine(l[1..], rest);
      NormalizeStep(l + rest);
      FirstAgain(l, Normalize(rest));
    }
  }

  lemma NormalizeStep(s: string)
    requires s != "" && !(|s| > 1 && s[0] == CR && s[1] == LF)
    ensures Normalize(s) == [s[0]] + Normalize(s[1..])
  {
    if |s| == 1 { assert s[1..] == "" && s == [s[0]]; }
  }

  lemma {:induction false} NormalEvent(e: Event, eol: string, rest: string)
    requires EventFits(e) && (eol == [LF] || eol == [CR, LF])
    ensures Normalize(ShowEvent(e, eol) + rest) == ShowEvent(e, [LF]) + Normalize(rest)
  {
    hide Fits, Show, Normalize;
    LineIsRead(e[0]);
    var l := Show(e[0]);
    if |e| == 1 {
      NormalLine(l, rest);
    } else {
      var more := ShowEvent(e[1..], eol);
      NormalEvent(e[1..], eol, rest);
      assert l + (eol + more) + rest == l + (eol + (more + rest));
      NormalLine(l, eol + (more + rest));
      NormalEnd(eol, more + rest);
      assert l + ([LF] + (ShowEvent(e[1..], [LF]) + Normalize(rest)))
          == l + ([LF] + ShowEvent(e[1..], [LF])) + Normalize(rest);
    }
  }

  lemma NormalEnd(eol: string, rest: string)
    requires eol == [LF] || eol == [CR, LF]
    ensures Normalize(eol + rest) == [LF] + Normalize(rest)
  {
    var s := eol + rest;
    if eol == [LF] {
      assert s[1..] == rest;
      NormalizeLf(s);
    } else {
      assert s[0] == CR && s[1] == LF && s[2..] == rest;
    }
  }

  lemma {:induction false} NormalStream(es: seq<Event>, eol: string)
    requires StreamFits(es) && (eol == [LF] || eol == [CR, LF])
    ensures Normalize(ShowStream(es, eol)) == ShowStream(es, [LF])
  {
    hide Normalize, ShowEvent;
    if es == [] {
      NormalNothing();
    } else {
      var rest := ShowStream(es[1..], eol);
      NormalStream(es[1..], eol);
      NormalEvent(es[0], eol, eol + (eol + rest));
      NormalEnd(eol, eol + rest);
      NormalEnd(eol, rest);
    }
  }

  lemma NormalNothing()
    ensures Normalize("") == ""
  {
  }

  /** What is read of a stream is what was written: the data lines of its events in order, and
      nothing of the end marks and other fields, whichever the line ends are. */
  lemma StreamIsRead(es: seq<Event>, eol: string)
    requires StreamFits(es) && (eol == [LF] || eol == [CR, LF])
    ensures DataInFrames(Frames(Normalize(ShowStream(es, eol)))) == DataOfStream(es)
  {
    NormalStream(es, eol);
    FramesOfStream(es);
  }
}
