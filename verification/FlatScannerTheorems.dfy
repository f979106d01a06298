/** Scanner and printer undo each other, and the scanner finds its way through any JSON text,
    whatever field-like text its strings contain. */
module FlatScannerTheorems {
  import opened FlatScanner
  import opened JsonString

  // ---- Escaping and unescaping ----

  lemma {:induction false} HexDigitValue(d: int)
    requires 0 <= d < 16
    ensures DigitOf(HexDigit(d)) == Some(d)
  {
  }

  lemma {:induction false} ControlCode(c: char)
    requires IsControl(c)
    ensures FromHex(['0', '0', HexDigit(c as int / 16), HexDigit(c as int % 16)]) == Some(c as int)
  {
    var a, b := HexDigit(c as int / 16), HexDigit(c as int % 16);
    HexDigitValue(c as int / 16);
    HexDigitValue(c as int % 16);
    var code := ['0', '0', a, b];
    assert code[..3] == ['0', '0', a] && code[..3][..2] == ['0', '0'];
    assert code[..3][..2][..1] == ['0'] && code[..3][..2][..1][..0] == [];
    assert Digits(['0']) == Some(0) && Digits(['0', '0']) == Some(0);
    assert Digits(['0', '0', a]) == Some(c as int / 16);
  }

  /** Reading back the first character of an escaped text. */
  lemma {:induction false} FirstOfEscape(c: char, rest: string)
    ensures FirstChar(EscapeChar(c) + rest) == Char(c, |EscapeChar(c)|)
    ensures (EscapeChar(c) + rest)[|EscapeChar(c)|..] == rest
  {
    var t := EscapeChar(c) + rest;
    if IsControl(c) && c != '\n' && c != '\r' && c != '\t' {
      assert t[2..6] == ['0', '0', HexDigit(c as int / 16), HexDigit(c as int % 16)];
      ControlCode(c);
    }
  }

  lemma {:induction false} UnescapeEscape(s: string)
    ensures Unescape(Escape(s)) == Some(s)
  {
    if s != "" {
      FirstOfEscape(s[0], Escape(s[1..]));
      UnescapeEscape(s[1..]);
      assert [s[0]] + s[1..] == s;
    }
  }

  // ---- The escapes are those of section 7 of RFC 8259 ----

  function Codes(s: string): (codes: seq<int>)
    ensures |codes| == |s| && forall i :: 0 <= i < |s| ==> codes[i] == s[i] as int
  {
    seq(|s|, i requires 0 <= i < |s| => s[i] as int)
  }

  /** The characters that are not written as they are: quotation mark, reverse solidus, and
      the controls of C0, of C1 and DEL. */
  predicate Special(c: int) { c == 34 || c == 92 || c < 0x20 || 0x7F <= c <= 0x9F }

  /** These pieces write this string, the special characters and no others by an escape. */
  predicate Writes(ps: seq<Piece>, s: string) {
    AllFit(ps) && Meaning(ps) == Codes(s) && forall i :: 0 <= i < |ps| ==> (ps[i].Plain? <==> !Special(s[i] as int))
  }

  function PieceOf(c: char): Piece {
    if c == '"' || c == '\\' then Letter(c as int)
    else if c == '\n' then Letter('n' as int)
    else if c == '\r' then Letter('r' as int)
    else if c == '\t' then Letter('t' as int)
    else if IsControl(c) then Hex(Codes(['0', '0', HexDigit(c as int / 16), HexDigit(c as int % 16)]))
    else Plain(c as int)
  }

  lemma HexDigitStands(d: int)
    requires 0 <= d < 16
    ensures IsHexDigit(HexDigit(d) as int) && DigitValue(HexDigit(d) as int) == d
  {
  }

  lemma EscapedChar(c: char)
    ensures Fits(PieceOf(c)) && Meant(PieceOf(c)) == c as int && Shown(PieceOf(c)) == Codes(EscapeChar(c))
    ensures PieceOf(c).Plain? <==> !Special(c as int)
  {
    if IsControl(c) {
      HexDigitStands(c as int / 16);
      HexDigitStands(c as int % 16);
    }
  }

  function Pieces(s: string): (ps: seq<Piece>)
    ensures |ps| == |s| && forall i :: 0 <= i < |s| ==> ps[i] == PieceOf(s[i])
  {
    if s == "" then [] else [PieceOf(s[0])] + Pieces(s[1..])
  }

  lemma {:induction false} EscapeIsWritten(s: string)
    ensures Spelled(Pieces(s)) == Codes(Escape(s))
  {
    hide PieceOf, EscapeChar, Shown;
    if s != "" {
      EscapedChar(s[0]);
      EscapeIsWritten(s[1..]);
      assert Pieces(s)[1..] == Pieces(s[1..]);
    }
  }

  /** The printer's output is a string of the grammar that stands for the text, and of its
      characters exactly the special ones are escaped. */
  lemma EscapeIsGrammatical(s: string)
    ensures exists ps :: Writes(ps, s) && Spelled(ps) == Codes(Escape(s))
  {
    hide PieceOf, Fits, Meant, Escape, Special;
    forall i | 0 <= i < |s|
      ensures Fits(PieceOf(s[i])) && Meant(PieceOf(s[i])) == s[i] as int
      ensures PieceOf(s[i]).Plain? <==> !Special(s[i] as int)
    {
      EscapedChar(s[i]);
    }
    EscapeIsWritten(s);
    assert Writes(Pieces(s), s);
  }

  // ---- What is understood of other writers' escapes ----

  /** An escape of half a surrogate pair, which JSON allows. */
  predicate HalfPair(p: Piece) { p.Hex? && Fits(p) && 0xD800 <= Meant(p) <= 0xDFFF }

  lemma HexDigitRead(c: char)
    requires IsHexDigit(c as int)
    ensures DigitOf(c) == Some(DigitValue(c as int)) && c != '+'
  {
  }

  lemma HexIsRead(digits: string)
    requires Fits(Hex(Codes(digits)))
    ensures FromHex(digits) == Some(Meant(Hex(Codes(digits))))
  {
    var codes := Codes(digits);
    assert forall i :: 0 <= i < 4 ==> IsHexDigit(codes[i]);
    HexDigitRead(digits[0]);
    HexDigitRead(digits[1]);
    HexDigitRead(digits[2]);
    HexDigitRead(digits[3]);
    hide IsHexDigit, DigitOf, DigitValue;
    FourDigits(digits);
  }

  lemma FourDigits(s: string)
    requires |s| == 4 && forall i :: 0 <= i < 4 ==> DigitOf(s[i]).Some?
    ensures Digits(s) == Some(0x1000 * DigitOf(s[0]).value + 0x100 * DigitOf(s[1]).value
                              + 0x10 * DigitOf(s[2]).value + DigitOf(s[3]).value)
  {
    hide DigitOf;
    var s3, s2, s1 := s[..3], s[..2], s[..1];
    assert s3[..2] == s2 && s2[..1] == s1 && s1[..0] == "";
    assert Digits(s1) == Some(DigitOf(s[0]).value);
    assert Digits(s2) == Some(0x10 * DigitOf(s[0]).value + DigitOf(s[1]).value);
    assert Digits(s3) == Some(0x10 * Digits(s2).value + DigitOf(s[2]).value);
    assert Digits(s) == Some(0x10 * Digits(s3).value + DigitOf(s[3]).value);
  }

  /** A text starts with one piece and goes on with the rest. */
  predicate StartsWith(s: string, p: Piece, rest: seq<int>) {
    var n := |Shown(p)|;
    n <= |s| && Codes(s[..n]) == Shown(p) && Codes(s[n..]) == rest
  }

  lemma TextApart(s: string, p: Piece, rest: seq<int>)
    requires Codes(s) == Shown(p) + rest
    ensures StartsWith(s, p, rest)
  {
    var n := |Shown(p)|;
    hide Shown;
    assert |s| == |Codes(s)| && Codes(s[..n]) == Codes(s)[..n] == Shown(p);
    assert Codes(s[n..]) == Codes(s)[n..] == rest;
  }

  /** The first character, whatever follows it. */
  lemma PieceIsRead(s: string, p: Piece, rest: seq<int>)
    requires Fits(p) && StartsWith(s, p, rest)
    ensures s != ""
    ensures HalfPair(p) ==> FirstChar(s).Bad?
    ensures !HalfPair(p) ==>
              FirstChar(s).Char? && FirstChar(s).c as int == Meant(p) && FirstChar(s).length == |Shown(p)|
  {
    var first := s[..|Shown(p)|];
    var codes := Codes(first);
    assert first[0] as int == codes[0] == Shown(p)[0];
    match p
    case Plain(_) =>
    case Letter(letter) =>
      assert first[1] as int == codes[1] == letter;
    case Hex(digits) =>
      HexApart(first, digits);
      assert s[2..6] == first[2..6];
      HexIsRead(s[2..6]);
      hide FromHex, Codes, IsHexDigit, DigitValue;
  }

  lemma HexApart(t: string, digits: seq<int>)
    requires |digits| == 4 && Codes(t) == Shown(Hex(digits))
    ensures |t| == 6 && t[1] == 'u' && Codes(t[2..6]) == digits
  {
    var codes := Codes(t);
    assert t[1] as int == codes[1] == 117;
    assert codes[2..6] == digits;
    assert Codes(t[2..6]) == codes[2..6];
  }

  /** Every text of the grammar is read as what it stands for, unless it writes half a
      surrogate pair by an escape: then, and only then, it is refused. */
  lemma {:induction false} UnescapeExactly(s: string, ps: seq<Piece>)
    requires AllFit(ps) && Codes(s) == Spelled(ps)
    ensures Unescape(s).Some? <==> forall i :: 0 <= i < |ps| ==> !HalfPair(ps[i])
    ensures Unescape(s).Some? ==> Codes(Unescape(s).value) == Meaning(ps)
  {
    hide Fits, HalfPair, FirstChar, Shown, Meant;
    if ps != [] {
      TextApart(s, ps[0], Spelled(ps[1..]));
      PieceIsRead(s, ps[0], Spelled(ps[1..]));
      if !HalfPair(ps[0]) {
        UnescapeExactly(s[|Shown(ps[0])|..], ps[1..]);
        assert forall i :: 0 < i < |ps| ==> ps[i] == ps[1..][i - 1];
        assert ps == [ps[0]] + ps[1..];
      }
    }
  }

  /** A pair written as two escapes is refused, though RFC 8259 allows it. */
  lemma PairIsRefused(s: string)
    requires s == "\\ud83d\\ude00"
    ensures Unescape(s) == None
  {
    var ps := [Hex(Codes("d83d")), Hex(Codes("de00"))];
    assert Spelled(ps) == Codes(s) by { assert ps[1..] == [ps[1]] && ps[1..][1..] == []; }
    UnescapeExactly(s, ps);
    assert HalfPair(ps[0]);
  }

  // ---- JSON values ----

  /** A string body of the grammar, whoever wrote it. */
  ghost predicate Grammatical(raw: string) { exists ps :: AllFit(ps) && Codes(raw) == Spelled(ps) }

  /** JSON text: strings by their raw bodies, numbers and literals, arrays and objects, with
      white space between all parts; `blank` is what an empty array or object holds. */
  datatype Value =
    | Text(raw: string) | Atom(text: string)
    | Array(blank: string, items: seq<Item>) | Object(blank: string, fields: seq<Field>)

  datatype Item = Item(before: string, value: Value, after: string)

  datatype Field = Field(
    before: string, key: string, beforeColon: string, afterColon: string, value: Value, after: string)

  /** White space is what Unicode calls so; JSON text only uses four of them. */
  lemma WhiteSpace(c: char)
    ensures IsSpace(c) <==>
              c in "\t\n\U{b}\U{c}\r \U{85}\U{a0}\U{1680}\U{2000}\U{2001}\U{2002}\U{2003}\U{2004}\U{2005}\U{2006}"
                   + "\U{2007}\U{2008}\U{2009}\U{200a}\U{2028}\U{2029}\U{202f}\U{205f}\U{3000}"
  {
  }

  predicate Blank(s: string) { forall i :: 0 <= i < |s| ==> IsSpace(s[i]) }

  predicate PlainChar(c: char) {
    c !in {'"', '{', '}', '[', ']', ',', ':'} && !IsSpace(c)
  }

  ghost predicate WellFormed(v: Value) {
    match v
    case Text(raw) => Grammatical(raw)
    case Atom(text) => text != "" && forall i :: 0 <= i < |text| ==> PlainChar(text[i])
    case Array(blank, items) => Blank(blank) && forall i :: 0 <= i < |items| ==> ItemFits(items[i])
    case Object(blank, fields) => Blank(blank) && forall i :: 0 <= i < |fields| ==> FieldFits(fields[i])
  }

  ghost predicate ItemFits(e: Item) { Blank(e.before) && Blank(e.after) && WellFormed(e.value) }

  ghost predicate FieldFits(f: Field) {
    && Blank(f.before) && Blank(f.beforeColon) && Blank(f.afterColon) && Blank(f.after)
    && Grammatical(f.key) && WellFormed(f.value)
  }

  function Quote(raw: string): string { ['"'] + raw + ['"'] }

  function Render(v: Value): string {
    match v
    case Text(raw) => Quote(raw)
    case Atom(text) => text
    case Array(blank, items) => ['['] + (if items == [] then blank else RenderItems(items)) + [']']
    case Object(blank, fields) => ['{'] + (if fields == [] then blank else RenderFields(fields)) + ['}']
  }

  function RenderItem(e: Item): string { e.before + (Render(e.value) + e.after) }

  function RenderItems(items: seq<Item>): string {
    if items == [] then ""
    else if |items| == 1 then RenderItem(items[0])
    else RenderItem(items[0]) + [','] + RenderItems(items[1..])
  }

  function RenderField(f: Field): string {
    f.before + (Quote(f.key) + (f.beforeColon + ([':'] + (f.afterColon + (Render(f.value) + f.after)))))
  }

  function RenderFields(fields: seq<Field>): string {
    if fields == [] then ""
    else if |fields| == 1 then RenderField(fields[0])
    else RenderField(fields[0]) + [','] + RenderFields(fields[1..])
  }

  // ---- Scanning over rendered text ----

  /** Scanning the text outside a string at this depth comes back to this depth. */
  ghost predicate Passes(t: string, depth: nat) {
    forall rest :: ScanEnd(t + rest, depth, false, false) == |t| + ScanEnd(rest, depth, false, false)
  }

  lemma {:induction false} PassesBoth(a: string, b: string, depth: nat)
    requires Passes(a, depth) && Passes(b, depth)
    ensures Passes(a + b, depth)
  {
    forall rest ensures ScanEnd(a + b + rest, depth, false, false) == |a + b| + ScanEnd(rest, depth, false, false) {
      assert a + b + rest == a + (b + rest);
    }
  }

  lemma {:induction false} PassesNothing(depth: nat)
    ensures Passes("", depth)
  {
    forall rest ensures ScanEnd("" + rest, depth, false, false) == |""| + ScanEnd(rest, depth, false, false) {
      assert "" + rest == rest;
    }
  }

  lemma {:induction false} PassesChar(c: char, depth: nat)
    requires c !in {'"', '{', '}', '[', ']'} && (c == ',' ==> depth > 0)
    ensures Passes([c], depth)
  {
    forall rest ensures ScanEnd([c] + rest, depth, false, false) == 1 + ScanEnd(rest, depth, false, false) {
      assert ([c] + rest)[1..] == rest;
    }
  }

  lemma {:induction false} PassesPlain(t: string, depth: nat)
    requires forall i :: 0 <= i < |t| ==> t[i] !in {'"', '{', '}', '[', ']', ','}
    ensures Passes(t, depth)
  {
    if t == "" {
      PassesNothing(depth);
    } else {
      PassesChar(t[0], depth);
      PassesPlain(t[1..], depth);
      PassesBoth([t[0]], t[1..], depth);
      assert [t[0]] + t[1..] == t;
    }
  }

  /** Scanning one character of a string, however it is written, stays inside the string. */
  lemma {:induction false} QuotedChar(t: string, p: Piece, rest: string, depth: nat)
    requires Fits(p) && Codes(t) == Shown(p)
    ensures ScanEnd(t + rest, depth, true, false) == |t| + ScanEnd(rest, depth, true, false)
    ensures StringEnd(t + rest, false) == Shifted(StringEnd(rest, false), |t|)
  {
    var codes := Codes(t);
    assert |t| == |codes| && codes[0] == Shown(p)[0];
    if p.Plain? {
      assert (t + rest)[1..] == rest;
    } else {
      assert t[0] == '\\';
      assert (t + rest)[1..] == t[1..] + rest && (t[1..] + rest)[1..] == t[2..] + rest;
      if p.Letter? {
        assert t[2..] + rest == rest;
      } else {
        assert codes[2..] == p.digits;
        forall i | 0 <= i < |t[2..]| ensures t[2..][i] != '"' && t[2..][i] != '\\' {
          assert codes[2..][i] == p.digits[i] && IsHexDigit(p.digits[i]);
        }
        QuotedPlain(t[2..], rest, depth);
      }
    }
  }

  lemma {:induction false} QuotedPlain(t: string, rest: string, depth: nat)
    requires forall i :: 0 <= i < |t| ==> t[i] != '"' && t[i] != '\\'
    ensures ScanEnd(t + rest, depth, true, false) == |t| + ScanEnd(rest, depth, true, false)
    ensures StringEnd(t + rest, false) == Shifted(StringEnd(rest, false), |t|)
  {
    if t == "" {
      assert t + rest == rest;
    } else {
      assert (t + rest)[1..] == t[1..] + rest;
      QuotedPlain(t[1..], rest, depth);
    }
  }

  /** A body is its first character and the rest. */
  lemma BodyApart(raw: string, ps: seq<Piece>)
    requires ps != [] && Codes(raw) == Spelled(ps)
    ensures var n := |Shown(ps[0])|;
            n <= |raw| && Codes(raw[..n]) == Shown(ps[0]) && Codes(raw[n..]) == Spelled(ps[1..])
  {
    var n := |Shown(ps[0])|;
    hide Shown;
    assert Codes(raw[..n]) == Codes(raw)[..n] && Codes(raw[n..]) == Codes(raw)[n..];
  }

  lemma {:induction false} QuotedBody(raw: string, ps: seq<Piece>, rest: string, depth: nat)
    requires AllFit(ps) && Codes(raw) == Spelled(ps)
    ensures ScanEnd(raw + rest, depth, true, false) == |raw| + ScanEnd(rest, depth, true, false)
    ensures StringEnd(raw + rest, false) == Shifted(StringEnd(rest, false), |raw|)
    decreases |ps|
  {
    hide ScanEnd, StringEnd, Fits, Shown;
    if ps == [] {
      assert raw + rest == rest;
    } else {
      BodyApart(raw, ps);
      var first, more := raw[..|Shown(ps[0])|], raw[|Shown(ps[0])|..];
      assert raw + rest == first + (more + rest);
      hide Codes, Spelled;
      QuotedChar(first, ps[0], more + rest, depth);
      QuotedBody(more, ps[1..], rest, depth);
    }
  }

  lemma {:induction false} PassesQuote(raw: string, depth: nat)
    requires Grammatical(raw)
    ensures Passes(Quote(raw), depth)
  {
    var ps :| AllFit(ps) && Codes(raw) == Spelled(ps);
    hide AllFit, Codes, Spelled;
    forall rest
      ensures ScanEnd(Quote(raw) + rest, depth, false, false) == |Quote(raw)| + ScanEnd(rest, depth, false, false)
    {
      var t := Quote(raw) + rest;
      assert t[1..] == raw + (['"'] + rest);
      QuotedBody(raw, ps, ['"'] + rest, depth);
      assert (['"'] + rest)[1..] == rest;
    }
  }

  /** A quoted string ends where it was closed. */
  lemma {:induction false} QuoteEnds(raw: string, rest: string)
    requires Grammatical(raw)
    ensures ValueEnd(Quote(raw) + rest) == Some(|Quote(raw)|)
  {
    var ps :| AllFit(ps) && Codes(raw) == Spelled(ps);
    hide AllFit, Codes, Spelled;
    var t := Quote(raw) + rest;
    assert t[1..] == raw + (['"'] + rest);
    QuotedBody(raw, ps, ['"'] + rest, 0);
    assert StringEnd(['"'] + rest, false) == Some(1);
  }

  lemma {:induction false} PassesBrackets(open: char, inner: string, close: char, depth: nat)
    requires open in {'{', '['} && close in {'}', ']'} && Passes(inner, depth + 1)
    ensures Passes([open] + inner + [close], depth)
  {
    forall rest
      ensures ScanEnd([open] + inner + [close] + rest, depth, false, false)
           == |[open] + inner + [close]| + ScanEnd(rest, depth, false, false)
    {
      var t := [open] + inner + [close] + rest;
      assert t[1..] == inner + ([close] + rest);
      assert ([close] + rest)[1..] == rest;
    }
  }

  lemma {:induction false} PassesBlank(s: string, depth: nat)
    requires Blank(s)
    ensures Passes(s, depth)
  {
    PassesPlain(s, depth);
  }

  lemma {:induction false} PassesValue(v: Value, depth: nat)
    requires WellFormed(v)
    ensures Passes(Render(v), depth)
    decreases v, 1, 0
  {
    hide Passes, Blank, Grammatical;
    match v
    case Text(raw) => PassesQuote(raw, depth);
    case Atom(text) => PassesPlain(text, depth);
    case Array(blank, items) =>
      if items == [] { PassesBlank(blank, depth + 1); } else { PassesItems(v, items, depth + 1); }
      PassesBrackets('[', if items == [] then blank else RenderItems(items), ']', depth);
    case Object(blank, fields) =>
      if fields == [] { PassesBlank(blank, depth + 1); } else { PassesFields(v, fields, depth + 1); }
      PassesBrackets('{', if fields == [] then blank else RenderFields(fields), '}', depth);
  }

  lemma {:induction false} PassesItems(v: Value, items: seq<Item>, depth: nat)
    requires depth > 0 && (forall i :: 0 <= i < |items| ==> items[i].value < v && ItemFits(items[i]))
    ensures Passes(RenderItems(items), depth)
    decreases v, 0, |items|
  {
    hide Passes, Blank, WellFormed, Render;
    if items == [] {
      PassesNothing(depth);
    } else {
      var e := items[0];
      PassesBlank(e.before, depth);
      PassesValue(e.value, depth);
      PassesBlank(e.after, depth);
      PassesBoth(Render(e.value), e.after, depth);
      PassesBoth(e.before, Render(e.value) + e.after, depth);
      if |items| > 1 {
        PassesItems(v, items[1..], depth);
        PassesChar(',', depth);
        PassesBoth(RenderItem(e), [','], depth);
        PassesBoth(RenderItem(e) + [','], RenderItems(items[1..]), depth);
      }
    }
  }

  /** A field passes if its value does. */
  lemma PassesField(f: Field, depth: nat)
    requires FieldFits(f) && Passes(Render(f.value), depth)
    ensures Passes(RenderField(f), depth)
  {
    PassesQuote(f.key, depth);
    PassesChar(':', depth);
    hide Passes, Blank, WellFormed, Render, Quote, Grammatical;
    PassesBlank(f.before, depth);
    PassesBlank(f.beforeColon, depth);
    PassesBlank(f.afterColon, depth);
    PassesBlank(f.after, depth);
    var valued := Render(f.value) + f.after;
    PassesBoth(Render(f.value), f.after, depth);
    PassesBoth(f.afterColon, valued, depth);
    PassesBoth([':'], f.afterColon + valued, depth);
    PassesBoth(f.beforeColon, [':'] + (f.afterColon + valued), depth);
    PassesBoth(Quote(f.key), f.beforeColon + ([':'] + (f.afterColon + valued)), depth);
    PassesBoth(f.before, Quote(f.key) + (f.beforeColon + ([':'] + (f.afterColon + valued))), depth);
  }

  lemma {:induction false} PassesFields(v: Value, fields: seq<Field>, depth: nat)
    requires depth > 0 && (forall i :: 0 <= i < |fields| ==> fields[i].value < v && FieldFits(fields[i]))
    ensures Passes(RenderFields(fields), depth)
    decreases v, 0, |fields|
  {
    hide Passes, Blank, WellFormed, Render, RenderField, Grammatical;
    if fields == [] {
      PassesNothing(depth);
    } else {
      var f := fields[0];
      PassesValue(f.value, depth);
      PassesField(f, depth);
      if |fields| > 1 {
        PassesFields(v, fields[1..], depth);
        PassesChar(',', depth);
        PassesBoth(RenderField(f), [','], depth);
        PassesBoth(RenderField(f) + [','], RenderFields(fields[1..]), depth);
      }
    }
  }

  // ---- Looking up a member of an object ----

  /** The fields from one on, with the commas between them, and the closing brace. */
  function RenderRest(fields: seq<Field>): string { RenderFields(fields) + ['}'] }

  /** The value of the first field with this key; a key before it that is not understood ends
      the search. */
  function FirstMatch(fields: seq<Field>, key: string): Option<Value> {
    if fields == [] then None
    else
      var name := Unescape(fields[0].key);
      if name == None then None
      else if name == Some(key) then Some(fields[0].value)
      else FirstMatch(fields[1..], key)
  }

  predicate Solid(s: string) { s != "" && !IsSpace(s[0]) }

  lemma {:induction false} TrimStartBlank(blank: string, s: string)
    requires Blank(blank) && Solid(s)
    ensures TrimStart(blank + s) == s
  {
    if blank == "" {
      assert blank + s == s;
    } else {
      assert (blank + s)[1..] == blank[1..] + s;
      TrimStartBlank(blank[1..], s);
    }
  }

  lemma {:induction false} TrimEndBlank(s: string, blank: string)
    requires Blank(blank) && s != "" && !IsSpace(s[|s| - 1])
    ensures TrimEnd(s + blank) == s
  {
    if blank == "" {
      assert s + blank == s;
    } else {
      var last := |blank| - 1;
      assert (s + blank)[..|s + blank| - 1] == s + blank[..last];
      TrimEndBlank(s, blank[..last]);
    }
  }

  lemma {:induction false} ValueIsSolid(v: Value)
    requires WellFormed(v)
    ensures Solid(Render(v)) && !IsSpace(Render(v)[|Render(v)| - 1])
    ensures Render(v)[0] != '}' && Render(v)[0] != ',' && Render(v)[0] != ':'
    ensures Render(v)[0] == '"' <==> v.Text?
  {
    hide RenderItems, RenderFields, Grammatical, ItemFits, FieldFits, Blank;
  }

  /** What may follow a value at the top level: a comma or the closing brace. */
  predicate Follows(s: string) { s != "" && (s[0] == ',' || s[0] == '}') }

  /** A raw value ends where its text ends, give or take white space after a bare one. */
  lemma {:induction false} ValueEnds(v: Value, blank: string, rest: string)
    requires WellFormed(v) && Blank(blank) && Follows(rest)
    ensures var end := ValueEnd(Render(v) + (blank + rest));
            end == Some(if v.Text? then |Render(v)| else |Render(v)| + |blank|)
  {
    if v.Text? {
      QuoteEnds(v.raw, blank + rest);
    } else {
      ValueIsSolid(v);
      PassesValue(v, 0);
      PassesBlank(blank, 0);
      hide Render;
      PassesBoth(Render(v), blank, 0);
      assert Render(v) + (blank + rest) == Render(v) + blank + rest;
      assert (Render(v) + blank + rest)[0] == Render(v)[0];
    }
  }

  lemma {:induction false} KeyIsRead(key: string, rest: string)
    requires Grammatical(key)
    ensures var t := Quote(key) + rest;
            && ValueEnd(t) == Some(|Quote(key)|) && t[..|Quote(key)|] == Quote(key) && t[|Quote(key)|..] == rest
            && StringOf(Quote(key)) == Unescape(key)
  {
    QuoteEnds(key, rest);
    StringIsBody(key);
  }

  lemma StringIsBody(raw: string)
    ensures StringOf(Quote(raw)) == Unescape(raw)
  {
    assert Quote(raw)[1..|Quote(raw)| - 1] == raw;
  }

  /** What is left of the text after a field: the white space after a string stays. */
  function LeftAfter(f: Field, rest: string): string { if f.value.Text? then f.after + rest else rest }

  lemma {:induction false} TrimSolid(s: string, blank: string)
    requires Solid(s) && !IsSpace(s[|s| - 1]) && Blank(blank)
    ensures Trim(s + blank) == s && Trim(s) == s
  {
    hide IsSpace;
    assert Solid(s + blank);
    TrimStartBlank("", s + blank);
    TrimStartBlank("", s);
    assert "" + (s + blank) == s + blank && "" + s == s;
    TrimEndBlank(s, blank);
    TrimEndBlank(s, "");
    assert s + "" == s;
  }

  lemma {:induction false} ValueIsRead(f: Field, rest: string)
    requires FieldFits(f) && Follows(rest)
    ensures var t := Render(f.value) + (f.after + rest); var end := ValueEnd(t);
            end.Some? && Trim(t[..end.value]) == Render(f.value) && t[end.value..] == LeftAfter(f, rest)
  {
    hide Render, ValueEnd, Trim, IsSpace, Blank;
    var v := Render(f.value);
    var t := v + (f.after + rest);
    ValueEnds(f.value, f.after, rest);
    ValueIsSolid(f.value);
    TrimSolid(v, f.after);
    if f.value.Text? {
      assert t[..|v|] == v && t[|v|..] == f.after + rest;
    } else {
      assert t[..|v| + |f.after|] == v + f.after && t[|v| + |f.after|..] == rest;
    }
  }

  /** What a round of the lookup makes of a field. */
  function Understood(f: Field, rest: string): Found {
    match Unescape(f.key)
    case Some(name) => Member(name, Render(f.value), LeftAfter(f, rest))
    case None => Malformed
  }

  /** One round of the loop reads one field. */
  lemma {:induction false} FieldIsRead(left: string, comma: bool, f: Field, rest: string)
    requires Blank(left) && FieldFits(f) && Follows(rest) && (!comma ==> left == "")
    ensures var text := left + ((if comma then [','] else "") + (RenderField(f) + rest));
            NextMember(text) == Understood(f, rest)
  {
    var text := left + ((if comma then [','] else "") + (RenderField(f) + rest));
    FieldStart(left, comma, f, rest);
    FieldParts(f, rest);
    hide NextMember, TrimStart, ValueEnd, StringOf, Trim, RenderField, Render, Quote, Blank, FieldFits, Follows,
      LeftAfter, Keyed, Coloned, Valued, Unescape;
    MemberOfParts(text, Unescape(f.key), Keyed(f, rest), Coloned(f, rest), Valued(f, rest));
  }

  /** One round of the lookup, told by what it finds. */
  lemma {:induction false} MemberOfParts(text: string, key: Option<string>, keyed: string, colon: string,
                                            valued: string)
    requires var start := TrimStart(text);
             && start != "" && start[0] != '}'
             && (if start[0] == ',' then TrimStart(start[1..]) else start) == keyed
    requires var keyEnd := ValueEnd(keyed);
             && keyEnd.Some? && StringOf(keyed[..keyEnd.value]) == key
             && TrimStart(keyed[keyEnd.value..]) == colon
    requires colon != "" && colon[0] == ':' && TrimStart(colon[1..]) == valued && ValueEnd(valued).Some?
    ensures var end := ValueEnd(valued).value;
            NextMember(text)
              == if key.None? then Malformed else Member(key.value, Trim(valued[..end]), valued[end..])
  {
    hide TrimStart, ValueEnd, StringOf, Trim;
  }

  /** The text of a field from its key on, from its colon on, and from its value on. */
  function Keyed(f: Field, rest: string): string { Quote(f.key) + (f.beforeColon + Coloned(f, rest)) }

  function Coloned(f: Field, rest: string): string { [':'] + (f.afterColon + Valued(f, rest)) }

  function Valued(f: Field, rest: string): string { Render(f.value) + (f.after + rest) }

  lemma {:induction false} FieldStart(left: string, comma: bool, f: Field, rest: string)
    requires Blank(left) && FieldFits(f) && (!comma ==> left == "")
    ensures var start := TrimStart(left + ((if comma then [','] else "") + (RenderField(f) + rest)));
            && start != "" && start[0] != '}'
            && (if start[0] == ',' then TrimStart(start[1..]) else start) == Keyed(f, rest)
  {
    var keyed := Keyed(f, rest);
    var text := left + ((if comma then [','] else "") + (RenderField(f) + rest));
    FieldText(f, rest);
    assert keyed != "" && keyed[0] == '"';
    hide Render, RenderField, Keyed, Quote;
    TrimStartBlank(f.before, keyed);
    if comma {
      assert text == left + ([','] + (f.before + keyed));
      TrimStartBlank(left, [','] + (f.before + keyed));
      assert ([','] + (f.before + keyed))[1..] == f.before + keyed;
    } else {
      assert text == f.before + keyed;
    }
  }

  /** What the lookup makes of the text from the key on. */
  lemma {:induction false} FieldParts(f: Field, rest: string)
    requires FieldFits(f) && Follows(rest)
    ensures var keyed := Keyed(f, rest); var keyEnd := ValueEnd(keyed);
            && keyEnd.Some? && StringOf(keyed[..keyEnd.value]) == Unescape(f.key)
            && TrimStart(keyed[keyEnd.value..]) == Coloned(f, rest)
    ensures Coloned(f, rest) != "" && Coloned(f, rest)[0] == ':' && TrimStart(Coloned(f, rest)[1..]) == Valued(f, rest)
    ensures var valued := Valued(f, rest); var end := ValueEnd(valued);
            && end.Some? && Trim(valued[..end.value]) == Render(f.value) && valued[end.value..] == LeftAfter(f, rest)
  {
    KeyIsRead(f.key, f.beforeColon + Coloned(f, rest));
    ValueIsSolid(f.value);
    ValueIsRead(f, rest);
    hide ValueEnd, Trim, StringOf, Render, Quote, Follows;
    TrimStartBlank(f.beforeColon, Coloned(f, rest));
    assert Coloned(f, rest)[1..] == f.afterColon + Valued(f, rest);
    TrimStartBlank(f.afterColon, Valued(f, rest));
  }

  lemma {:induction false} FieldText(f: Field, rest: string)
    ensures RenderField(f) + rest
         == f.before + (Quote(f.key) + (f.beforeColon
              + ([':'] + (f.afterColon + (Render(f.value) + (f.after + rest))))))
  {
    hide Render, Quote;
  }

  lemma {:induction false} RestFollows(fields: seq<Field>)
    ensures Follows((if fields == [] then "" else [',']) + RenderRest(fields))
  {
  }

  lemma {:induction false} EndIsRead(left: string)
    requires Blank(left)
    ensures NextMember(left + ['}']) == NoMore
  {
    TrimStartBlank(left, ['}']);
  }

  /** The text of the loop before a field or the end. */
  function TextFrom(left: string, comma: bool, fields: seq<Field>): string {
    left + ((if comma && fields != [] then [','] else "") + RenderRest(fields))
  }

  lemma {:induction false} RestOfFirst(fields: seq<Field>)
    requires fields != []
    ensures RenderRest(fields)
         == RenderField(fields[0]) + ((if |fields| == 1 then "" else [',']) + RenderRest(fields[1..]))
  {
    hide RenderField;
    if |fields| == 1 { assert fields[1..] == []; }
  }

  lemma {:induction false} TextOfFirst(left: string, comma: bool, fields: seq<Field>)
    requires fields != []
    ensures TextFrom(left, comma, fields)
         == left + ((if comma then [','] else "") + (RenderField(fields[0]) + TextFrom("", true, fields[1..])))
  {
    hide RenderField;
    var rest := (if |fields| == 1 then "" else [',']) + RenderRest(fields[1..]);
    assert TextFrom("", true, fields[1..]) == rest;
    RestOfFirst(fields);
  }

  lemma {:induction false} TextFollows(fields: seq<Field>)
    ensures Follows(TextFrom("", true, fields))
  {
    RestFollows(fields);
    var rest := (if fields == [] then "" else [',']) + RenderRest(fields);
    assert TextFrom("", true, fields) == rest;
  }

  lemma {:induction false} TextLeft(f: Field, fields: seq<Field>)
    ensures LeftAfter(f, TextFrom("", true, fields)) == TextFrom(if f.value.Text? then f.after else "", true, fields)
  {
    hide RenderRest;
    var rest := (if fields != [] then [','] else "") + RenderRest(fields);
    assert TextFrom("", true, fields) == "" + rest == rest;
  }

  /** From any field on, the lookup finds the first match. */
  lemma {:induction false} LookupFinds(left: string, comma: bool, fields: seq<Field>, key: string)
    requires Blank(left) && (!comma ==> left == "" && fields != [])
    requires forall i :: 0 <= i < |fields| ==> FieldFits(fields[i])
    ensures Lookup(TextFrom(left, comma, fields), key)
         == match FirstMatch(fields, key) case Some(v) => Some(Render(v)) case None => None
    decreases |fields|
  {
    hide Render, RenderField, NextMember, TextFrom, LeftAfter;
    if fields == [] {
      EndText(left, comma);
      EndIsRead(left);
    } else {
      var f := fields[0];
      TextFollows(fields[1..]);
      TextOfFirst(left, comma, fields);
      FieldIsRead(left, comma, f, TextFrom("", true, fields[1..]));
      TextLeft(f, fields[1..]);
      LookupFinds(if f.value.Text? then f.after else "", true, fields[1..], key);
    }
  }

  lemma {:induction false} EndText(left: string, comma: bool)
    ensures TextFrom(left, comma, []) == left + ['}']
  {
    assert "" + ['}'] == ['}'];
  }

  lemma {:induction false} TrimObject(before: string, body: string, after: string)
    requires Blank(before) && Blank(after) && Solid(body) && !IsSpace(body[|body| - 1])
    ensures Trim(before + (body + after)) == body
  {
    hide IsSpace;
    assert Solid(body + after);
    TrimStartBlank(before, body + after);
    TrimEndBlank(body, after);
  }

  /** For every object of JSON text, however its strings are escaped and wherever white space
      stands, the lookup returns exactly the text of the value of the first matching key, and
      nothing if there is none. */
  lemma {:induction false} MemberOfRendered(blankBefore: string, v: Value, blankAfter: string, key: string)
    requires Blank(blankBefore) && Blank(blankAfter) && v.Object? && WellFormed(v)
    ensures MemberValue(blankBefore + (Render(v) + blankAfter), key)
         == match FirstMatch(v.fields, key) case Some(w) => Some(Render(w)) case None => None
  {
    ObjectBody(v);
    ValueIsSolid(v);
    hide Render, RenderField, Lookup, FirstMatch, Trim, FieldFits, Blank;
    TrimObject(blankBefore, Render(v), blankAfter);
    LookupFinds(if v.fields == [] then v.blank else "", v.fields == [], v.fields, key);
  }

  /** What follows the opening brace. */
  lemma ObjectBody(v: Value)
    requires v.Object?
    ensures Render(v)[0] == '{'
    ensures Render(v)[1..] == TextFrom(if v.fields == [] then v.blank else "", v.fields == [], v.fields)
  {
    hide RenderFields;
    NoFields();
  }

  lemma NoFields()
    ensures RenderFields([]) == ""
  {
  }

  /** A string member is read as what its body stands for; what the printer wrote is read as
      it was; a member of another kind is no string. */
  lemma {:induction false} StringMemberOfRendered(blankBefore: string, v: Value, blankAfter: string, key: string)
    requires Blank(blankBefore) && Blank(blankAfter) && v.Object? && WellFormed(v)
    ensures StringMember(blankBefore + (Render(v) + blankAfter), key)
         == match FirstMatch(v.fields, key) case Some(Text(raw)) => Unescape(raw) case _ => None
    ensures forall s :: FirstMatch(v.fields, key) == Some(Text(Escape(s))) ==>
              StringMember(blankBefore + (Render(v) + blankAfter), key) == Some(s)
  {
    MemberOfRendered(blankBefore, v, blankAfter, key);
    FirstMatchFits(v.fields, key);
    var first := FirstMatch(v.fields, key);
    hide FirstMatch, Unescape, Render, MemberValue, WellFormed;
    if first.Some? { StringOfValue(first.value); }
    forall s | first == Some(Text(Escape(s)))
      ensures StringMember(blankBefore + (Render(v) + blankAfter), key) == Some(s)
    {
      UnescapeEscape(s);
    }
  }

  lemma StringOfValue(v: Value)
    requires WellFormed(v)
    ensures StringOf(Render(v)) == if v.Text? then Unescape(v.raw) else None
  {
    ValueIsSolid(v);
    if v.Text? { StringIsBody(v.raw); }
  }

  lemma {:induction false} FirstMatchFits(fields: seq<Field>, key: string)
    requires forall i :: 0 <= i < |fields| ==> FieldFits(fields[i])
    ensures FirstMatch(fields, key).Some? ==> WellFormed(FirstMatch(fields, key).value)
  {
    if fields != [] { FirstMatchFits(fields[1..], key); }
  }
}
