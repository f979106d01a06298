/** The canonical text is JSON text for the value: its strings are strings of RFC 8259 that
    stand for the characters, escaped exactly where JSON.stringify escapes them. */
module StableJsonText {
  import opened StableJson
  import opened StableJsonTheorems
  import opened JsonString

  predicate High(c: int) { 0xD800 <= c <= 0xDBFF }
  predicate Low(c: int) { 0xDC00 <= c <= 0xDFFF }

  /** A surrogate without its other half beside it. */
  predicate Lone(s: Str, i: nat)
    requires i < |s|
  {
    || (High(s[i]) && (i + 1 == |s| || !Low(s[i + 1])))
    || (Low(s[i]) && (i == 0 || !High(s[i - 1])))
  }

  /** The way JSON.stringify writes a unit: the five named controls, the quotation mark and the
      reverse solidus by a letter, other controls and lone surrogates by small hexadecimal
      digits, anything else as it is. */
  predicate Usual(p: Piece, c: int, lone: bool) {
    if c in {8, 9, 10, 12, 13, 34, 92} then p.Letter?
    else if c < 0x20 || lone then p.Hex? && forall d :: d in p.digits ==> !(65 <= d <= 70)
    else p == Plain(c)
  }

  /** These pieces write this string. */
  predicate Writes(ps: seq<Piece>, s: Str) {
    AllFit(ps) && Meaning(ps) == s && forall i :: 0 <= i < |s| ==> Usual(ps[i], s[i], Lone(s, i))
  }

  function PieceOf(u: Unit, lone: bool): Piece {
    if u == 8 then Letter(98)
    else if u == 9 then Letter(116)
    else if u == 10 then Letter(110)
    else if u == 12 then Letter(102)
    else if u == 13 then Letter(114)
    else if u == 34 || u == 92 then Letter(u)
    else if u < 0x20 || lone then Hex(Hex4(u))
    else Plain(u)
  }

  lemma HexDigitStands(d: int)
    requires 0 <= d < 16
    ensures IsHexDigit(HexDigit(d)) && DigitValue(HexDigit(d)) == d && !(65 <= HexDigit(d) <= 70)
  {
  }

  lemma Hex4Stands(u: Unit)
    ensures Fits(Hex(Hex4(u))) && Meant(Hex(Hex4(u))) == u && forall d :: d in Hex4(u) ==> !(65 <= d <= 70)
  {
    var tens := u / 16;
    var hundreds := tens / 16;
    HexDigitStands(hundreds / 16);
    HexDigitStands(hundreds % 16);
    HexDigitStands(tens % 16);
    HexDigitStands(u % 16);
    hide HexDigit;
  }

  lemma PieceStands(u: Unit, lone: bool)
    requires lone ==> High(u) || Low(u)
    ensures var p := PieceOf(u, lone); Fits(p) && Meant(p) == u && Usual(p, u, lone)
    ensures (lone <==> IsHigh(u) || IsLow(u)) ==> Shown(PieceOf(u, lone)) == EscapeUnit(u)
  {
    Hex4Stands(u);
    hide Hex4;
  }

  function Pieces(s: Str): (ps: seq<Piece>)
    ensures |ps| == |s| && forall i :: 0 <= i < |s| ==> ps[i] == PieceOf(s[i], Lone(s, i))
  {
    seq(|s|, i requires 0 <= i < |s| => PieceOf(s[i], Lone(s, i)))
  }

  /** Behind the first character surrogates stand alone or not as they did. */
  lemma LoneBehind(s: Str, i: nat)
    requires s != [] && HeadLength(s) <= i < |s|
    ensures Lone(s, i) <==> Lone(s[HeadLength(s)..], i - HeadLength(s))
  {
  }

  lemma PiecesBehind(s: Str)
    requires s != []
    ensures HeadLength(s) <= |s| && Pieces(s)[HeadLength(s)..] == Pieces(s[HeadLength(s)..])
  {
    var n := HeadLength(s);
    hide Lone, HeadLength, PieceOf;
    HeadFits(s);
    forall i | n <= i < |s| ensures Pieces(s)[i] == Pieces(s[n..])[i - n] { LoneBehind(s, i); }
  }

  lemma HeadFits(s: Str)
    requires s != []
    ensures 1 <= HeadLength(s) <= |s|
  {
  }

  /** The first character is written by its pieces. */
  lemma HeadIsWritten(s: Str)
    requires s != []
    ensures Spelled(Pieces(s)) == HeadText(s) + Spelled(Pieces(s)[HeadLength(s)..])
  {
    var ps := Pieces(s);
    hide PieceOf, EscapeUnit, Spelled;
    SpelledOfFirst(ps);
    if HeadLength(s) == 2 {
      assert !Lone(s, 0) && !Lone(s, 1);
      PairIsPlain(s[0], s[1]);
      SpelledOfFirst(ps[1..]);
      assert ps[1..][1..] == ps[2..];
      assert [s[0]] + ([s[1]] + Spelled(ps[2..])) == s[..2] + Spelled(ps[2..]);
    } else {
      assert Lone(s, 0) <==> IsHigh(s[0]) || IsLow(s[0]);
      PieceStands(s[0], Lone(s, 0));
    }
  }

  lemma SpelledOfFirst(ps: seq<Piece>)
    requires ps != []
    ensures Spelled(ps) == Shown(ps[0]) + Spelled(ps[1..])
  {
  }

  lemma PairIsPlain(u: Unit, v: Unit)
    requires IsHigh(u) && IsLow(v)
    ensures PieceOf(u, false) == Plain(u) && PieceOf(v, false) == Plain(v)
  {
  }

  lemma {:induction false} EscapeIsWritten(s: Str)
    ensures Spelled(Pieces(s)) == Escape(s)
  {
    hide Pieces, HeadText, Spelled, HeadLength;
    if s == [] {
      NothingWritten();
    } else {
      HeadFits(s);
      HeadIsWritten(s);
      PiecesBehind(s);
      EscapeIsWritten(s[HeadLength(s)..]);
    }
  }

  lemma NothingWritten()
    ensures Spelled(Pieces([])) == []
  {
  }

  lemma PiecesWrite(s: Str)
    ensures Writes(Pieces(s), s)
  {
    hide PieceOf, Lone, Fits, Meant, Usual;
    forall i | 0 <= i < |s|
      ensures Fits(Pieces(s)[i]) && Meant(Pieces(s)[i]) == s[i] && Usual(Pieces(s)[i], s[i], Lone(s, i))
    {
      if Lone(s, i) { LoneIsSurrogate(s, i); }
      PieceStands(s[i], Lone(s, i));
    }
  }

  lemma LoneIsSurrogate(s: Str, i: nat)
    requires i < |s| && Lone(s, i)
    ensures High(s[i]) || Low(s[i])
  {
  }

  /** Every string is written as a string of RFC 8259 that stands for it, and no other way. */
  lemma QuoteMeans(s: Str)
    ensures exists ps :: Writes(ps, s) && Quote(s) == [34] + Spelled(ps) + [34]
  {
    hide Writes, Escape, Spelled;
    EscapeIsWritten(s);
    PiecesWrite(s);
    assert Writes(Pieces(s), s);
  }

  // ---- Literals, numbers, arrays and objects ----

  predicate Ascii(s: string) { forall i :: 0 <= i < |s| ==> s[i] as int < 0x80 }

  function Units(s: string): (t: Str)
    requires Ascii(s)
    ensures |t| == |s| && forall i :: 0 <= i < |s| ==> t[i] == s[i] as int
  {
    seq(|s|, i requires 0 <= i < |s| => s[i] as int)
  }

  predicate Digits(s: string) { s != "" && forall i :: 0 <= i < |s| ==> '0' <= s[i] <= '9' }

  /** The decimal texts of section 6 of RFC 8259, in the spelling that JavaScript uses. */
  predicate Decimal(s: string, negative: bool, whole: string, fraction: string, exponent: string) {
    && Digits(whole) && (fraction == "" || Digits(fraction))
    && (exponent == "" || (exponent[0] in "+-" && Digits(exponent[1..])))
    && s == (if negative then "-" else "") + whole + (if fraction == "" then "" else "." + fraction)
            + (if exponent == "" then "" else "e" + exponent)
  }

  /** No such number is left out. */
  lemma DecimalsAreNumbers(s: string, negative: bool, whole: string, fraction: string, exponent: string)
    requires Decimal(s, negative, whole, fraction, exponent)
    ensures Ascii(s) && NumberText(Units(s))
  {
    assert forall i :: 0 <= i < |s| ==> '0' <= s[i] <= '9' || s[i] in "+-.e";
  }

  /** The order of sort(): by the first unit that differs, a prefix first. */
  predicate Before(a: Str, b: Str) {
    exists k :: 0 <= k <= |a| && k < |b| && a[..k] == b[..k] && (k < |a| ==> a[k] < b[k])
  }

  lemma {:induction false} BeforeIsLess(a: Str, b: Str, k: nat)
    requires k <= |a| && k < |b| && a[..k] == b[..k] && (k < |a| ==> a[k] < b[k])
    ensures Less(a, b)
  {
    if k > 0 {
      assert a[0] == a[..k][0] == b[..k][0] == b[0];
      assert a[1..][..k - 1] == a[..k][1..] == b[..k][1..] == b[1..][..k - 1];
      BeforeIsLess(a[1..], b[1..], k - 1);
    }
  }

  /** Texts with commas between them. */
  function Commas(ts: seq<Str>): Str {
    if ts == [] then [] else ts[0] + (if |ts| == 1 then [] else [44] + Commas(ts[1..]))
  }

  lemma {:induction false} JoinIsCommas(ts: seq<Str>)
    ensures Join(ts) == Commas(ts)
  {
    if |ts| > 1 { JoinIsCommas(ts[1..]); }
  }

  function EntryTexts(entries: seq<Entry>): (ts: seq<Str>)
    ensures |ts| == |entries|
    ensures forall i :: 0 <= i < |ts| ==> ts[i] == Quote(entries[i].key) + [58] + Stable(entries[i].value)
  {
    if entries == [] then []
    else [Quote(entries[0].key) + [58] + Stable(entries[0].value)] + EntryTexts(entries[1..])
  }

  predicate InOrder(entries: seq<Entry>) {
    forall i, j :: 0 <= i < j < |entries| ==> Before(entries[i].key, entries[j].key)
  }

  /** The entries of an object are written in the order of their keys. */
  lemma ObjectText(entries: seq<Entry>, order: seq<Entry>)
    requires DistinctKeys(entries) && |order| == |entries| && (forall e :: e in order ==> e in entries)
    requires InOrder(order)
    ensures Stable(Object(entries)) == [123] + Commas(EntryTexts(order)) + [125]
  {
    hide Sort, Less, InOrder, Before;
    MembersInOrder(order);
    OrderedMembers(entries, order);
    LinesAreTexts(order);
    JoinIsCommas(EntryTexts(order));
  }

  lemma MembersInOrder(order: seq<Entry>)
    requires InOrder(order)
    ensures Sorted(Members(order))
  {
    hide Less;
    var ms := Members(order);
    forall i, j | 0 <= i < j < |ms| ensures Less(ms[i].key, ms[j].key) {
      MembersAt(order, i);
      MembersAt(order, j);
      assert Before(order[i].key, order[j].key);
      var k: nat :| k <= |order[i].key| && k < |order[j].key| && order[i].key[..k] == order[j].key[..k]
                    && (k < |order[i].key| ==> order[i].key[k] < order[j].key[k]);
      BeforeIsLess(order[i].key, order[j].key, k);
    }
  }

  lemma OrderedMembers(entries: seq<Entry>, order: seq<Entry>)
    requires DistinctKeys(entries) && |order| == |entries| && (forall e :: e in order ==> e in entries)
    requires Sorted(Members(order))
    ensures Sort(Members(entries)) == Members(order)
  {
    var ms, ns := Members(order), Members(entries);
    hide Sort, Less, Stable;
    MembersDistinct(entries);
    SortedIsDistinct(ms);
    forall m | m in ms ensures m in ns {
      var i: nat :| i < |ms| && ms[i] == m;
      MembersAt(order, i);
      assert order[i] in order;
      var j: nat :| j < |entries| && entries[j] == order[i];
      MembersAt(entries, j);
    }
    SameMembers(ms, ns);
    SortSorts(ms);
    SortKeepsMembers(ms);
    SortedUnique(Sort(ms), ms);
  }

  lemma SortedIsDistinct(ms: seq<Member>)
    requires Sorted(ms)
    ensures DistinctMembers(ms)
  {
    hide Less;
    forall i, j | 0 <= i < j < |ms| ensures ms[i].key != ms[j].key { NotLess(ms[i].key); }
  }

  lemma {:induction false} LinesAreTexts(order: seq<Entry>)
    ensures Lines(Members(order)) == EntryTexts(order)
  {
    hide Quote, Stable;
    forall i: nat | i < |order| ensures Lines(Members(order))[i] == EntryTexts(order)[i] { MembersAt(order, i); }
  }

  /** The values of an array are written in its order. */
  lemma ArrayText(items: seq<Json>)
    ensures exists ts :: |ts| == |items| && (forall i :: 0 <= i < |ts| ==> ts[i] == Stable(items[i]))
                         && Stable(Array(items)) == [91] + Commas(ts) + [93]
  {
    var ts := StableAll(items);
    forall i: nat | i < |items| ensures ts[i] == Stable(items[i]) { StableAllAt(items, i); }
    JoinIsCommas(ts);
  }

  lemma ScalarText(v: Json)
    ensures Stable(Null) == Units("null")
    ensures Stable(Bool(true)) == Units("true") && Stable(Bool(false)) == Units("false")
    ensures v.Number? ==> Stable(v) == v.text
    ensures v.Text? ==> Stable(v) == Quote(v.chars)
  {
  }
}
