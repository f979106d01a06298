/** The canonical text of a JSON value determines it up to the order of entries, and nothing
    else does. */
module StableJsonTheorems {
  import opened StableJson

  // ---- Texts that can be told apart from what follows ----

  /** What may follow a value inside another: nothing, a comma or a closing bracket. */
  predicate Delimited(x: Str) { x == [] || x[0] == COMMA || x[0] == RBRACKET || x[0] == RBRACE }

  /** However the two texts go on, equal continuations mean equal texts. */
  ghost predicate Parted(s: Str, t: Str) {
    forall x, y :: Delimited(x) && Delimited(y) && s + x == t + y ==> s == t
  }

  lemma {:induction false} EscapeParted(a: Str, b: Str, x: Str, y: Str)
    requires Escape(a) + [QUOTE] + x == Escape(b) + [QUOTE] + y
    ensures a == b && x == y
    decreases |a|
  {
    hide HeadText, HeadLength, Escape;
    if a == [] || b == [] {
      EscapeEnd(a, b, x, y);
    } else {
      var n, m := HeadLength(a), HeadLength(b);
      HeadLengthFits(a);
      HeadLengthFits(b);
      EscapeThen(a, x);
      EscapeThen(b, y);
      HeadParted(a, b, Escape(a[n..]) + [QUOTE] + x, Escape(b[m..]) + [QUOTE] + y);
      EscapeParted(a[n..], b[m..], x, y);
      assert a == a[..n] + a[n..] && b == b[..m] + b[m..];
    }
  }

  lemma {:induction false} HeadLengthFits(a: Str)
    requires a != []
    ensures 1 <= HeadLength(a) <= |a|
  {
  }

  lemma {:induction false} EscapeThen(a: Str, x: Str)
    requires a != []
    ensures Escape(a) + [QUOTE] + x == HeadText(a) + (Escape(a[HeadLength(a)..]) + [QUOTE] + x)
  {
  }

  /** Only the closing quote starts like a quote. */
  lemma {:induction false} EscapeFirst(a: Str, x: Str)
    ensures (Escape(a) + [QUOTE] + x)[0] == QUOTE <==> a == []
  {
    if a != [] { assert (Escape(a) + [QUOTE] + x)[0] == HeadText(a)[0]; }
  }

  lemma {:induction false} Cons(u: Unit, x: Str, y: Str)
    requires [u] + x == [u] + y
    ensures x == y
  {
    assert x == ([u] + x)[1..] && y == ([u] + y)[1..];
  }

  lemma {:induction false} EscapeEnd(a: Str, b: Str, x: Str, y: Str)
    requires Escape(a) + [QUOTE] + x == Escape(b) + [QUOTE] + y && (a == [] || b == [])
    ensures a == b && x == y
  {
    EscapeFirst(a, x);
    EscapeFirst(b, y);
    assert Escape(a) + [QUOTE] + x == [QUOTE] + x && Escape(b) + [QUOTE] + y == [QUOTE] + y;
    Cons(QUOTE, x, y);
  }

  lemma {:induction false} Hex4Apart(u: Unit, v: Unit)
    requires Hex4(u) == Hex4(v)
    ensures u == v
  {
    hide HexDigit;
    HexDigitApart(u / 16 / 16 / 16, v / 16 / 16 / 16);
    HexDigitApart(u / 16 / 16 % 16, v / 16 / 16 % 16);
    HexDigitApart(u / 16 % 16, v / 16 % 16);
    HexDigitApart(u % 16, v % 16);
    assert Hex4(u)[0] == Hex4(v)[0] && Hex4(u)[1] == Hex4(v)[1] && Hex4(u)[2] == Hex4(v)[2] && Hex4(u)[3] == Hex4(v)[3];
  }

  lemma {:induction false} HexDigitApart(c: int, d: int)
    requires 0 <= c < 16 && 0 <= d < 16
    ensures HexDigit(c) == HexDigit(d) <==> c == d
  {
  }

  lemma {:induction false} UnitParted(u: Unit, v: Unit, p: Str, q: Str)
    requires EscapeUnit(u) + p == EscapeUnit(v) + q
    ensures u == v && p == q
  {
    var s, t := EscapeUnit(u) + p, EscapeUnit(v) + q;
    assert s[0] == t[0] && (s[0] == BACKSLASH ==> s[1] == t[1]);
    if s[0] == BACKSLASH && s[1] == 117 {
      assert s[2..6] == Hex4(u) && t[2..6] == Hex4(v);
      Hex4Apart(u, v);
    }
    var n := |EscapeUnit(u)|;
    assert u == v;
    assert p == s[n..] && q == t[n..];
  }

  /** A text that starts with a high surrogate starts with a pair. */
  lemma {:induction false} HeadFirst(a: Str)
    requires a != []
    ensures IsHigh(HeadText(a)[0]) <==> HeadLength(a) == 2
  {
  }

  /** The text of one character can be told apart whatever follows it. */
  lemma {:induction false} HeadParted(a: Str, b: Str, p: Str, q: Str)
    requires a != [] && b != [] && HeadText(a) + p == HeadText(b) + q
    ensures HeadLength(a) == HeadLength(b) && a[..HeadLength(a)] == b[..HeadLength(b)] && p == q
  {
    var s, t := HeadText(a) + p, HeadText(b) + q;
    HeadFirst(a);
    HeadFirst(b);
    assert s[0] == HeadText(a)[0] && t[0] == HeadText(b)[0];
    assert HeadLength(a) == HeadLength(b);
    if HeadLength(a) == 2 {
      assert a[..2] == s[..2] && b[..2] == t[..2] && p == s[2..] && q == t[2..];
    } else {
      UnitParted(a[0], b[0], p, q);
    }
  }

  lemma {:induction false} QuoteThen(a: Str, x: Str)
    ensures Quote(a) + x == [QUOTE] + (Escape(a) + [QUOTE] + x)
  {
  }

  lemma {:induction false} QuoteParted(a: Str, b: Str, x: Str, y: Str)
    requires Quote(a) + x == Quote(b) + y
    ensures a == b && x == y
  {
    hide Quote, Escape;
    QuoteThen(a, x);
    QuoteThen(b, y);
    Cons(QUOTE, Escape(a) + [QUOTE] + x, Escape(b) + [QUOTE] + y);
    EscapeParted(a, b, x, y);
  }

  /** How many units of a number the text starts with. */
  function NumberRun(s: Str): nat {
    if s == [] || !IsNumberUnit(s[0]) then 0 else 1 + NumberRun(s[1..])
  }

  lemma {:induction false} NumberEnds(s: Str, x: Str)
    requires Delimited(x) && forall i :: 0 <= i < |s| ==> IsNumberUnit(s[i])
    ensures NumberRun(s + x) == |s|
  {
    if s == [] {
      assert s + x == x;
    } else {
      assert (s + x)[1..] == s[1..] + x;
      NumberEnds(s[1..], x);
    }
  }

  lemma {:induction false} NumbersParted(s: Str, t: Str)
    requires NumberText(s) && NumberText(t)
    ensures Parted(s, t)
  {
    forall x, y | Delimited(x) && Delimited(y) && s + x == t + y ensures s == t {
      NumberEnds(s, x);
      NumberEnds(t, y);
      assert s == (s + x)[..|s|] && t == (t + y)[..|t|];
    }
  }

  // ---- Lists of texts ----

  /** The texts of two lists can be told apart, and none is empty or starts like the end. */
  ghost predicate ListsParted(a: seq<Str>, b: seq<Str>) {
    && (forall i, j :: 0 <= i < |a| && 0 <= j < |b| ==> Parted(a[i], b[j]))
    && (forall i :: 0 <= i < |a| ==> Starts(a[i]))
    && (forall j :: 0 <= j < |b| ==> Starts(b[j]))
  }

  predicate Starts(s: Str) { s != [] && !Delimited(s) }

  /** The list goes on with its closing bracket. */
  predicate Closes(x: Str) { x != [] && (x[0] == RBRACKET || x[0] == RBRACE) }

  lemma {:induction false} JoinParted(a: seq<Str>, b: seq<Str>, x: Str, y: Str)
    requires ListsParted(a, b) && Closes(x) && Closes(y) && Join(a) + x == Join(b) + y
    ensures a == b && x == y
    decreases |a|
  {
    if a == [] || b == [] {
      JoinEnds(a, b, x, y);
    } else {
      JoinHeads(a, b, x, y);
      hide ListsParted, Join, Closes;
      if |a| > 1 {
        ListsPartedTail(a, b);
        JoinParted(a[1..], b[1..], x, y);
        assert a == [a[0]] + a[1..] && b == [b[0]] + b[1..];
      } else {
        assert a == [a[0]] && b == [b[0]];
      }
    }
  }

  /** Equal joined texts start with equal lines, and so do what remains of them. */
  lemma {:induction false} JoinHeads(a: seq<Str>, b: seq<Str>, x: Str, y: Str)
    requires ListsParted(a, b) && Closes(x) && Closes(y) && Join(a) + x == Join(b) + y && a != [] && b != []
    ensures a[0] == b[0] && (|a| > 1 <==> |b| > 1)
    ensures if |a| > 1 then Join(a[1..]) + x == Join(b[1..]) + y else x == y
  {
    assert Parted(a[0], b[0]);
    hide Join, JoinRest, ListsParted, Parted, Delimited;
    PartedHeads(a[0], b[0], JoinRest(a, x), JoinRest(b, y));
    JoinTail(a, x);
    JoinTail(b, y);
  }

  lemma {:induction false} JoinTail(a: seq<Str>, x: Str)
    requires a != [] && Closes(x)
    ensures if |a| > 1 then JoinRest(a, x)[1..] == Join(a[1..]) + x else JoinRest(a, x) == x
  {
    if |a| > 1 {
      hide Join;
      assert JoinRest(a, x) == [COMMA] + Join(a[1..]) + x == [COMMA] + (Join(a[1..]) + x);
    }
  }

  lemma {:induction false} PartedHeads(s: Str, t: Str, p: Str, q: Str)
    requires Parted(s, t) && Delimited(p) && Delimited(q) && s + p == t + q
    ensures s == t && p == q
  {
    assert p == (s + p)[|s|..] && q == (t + q)[|t|..];
  }

  function JoinRest(a: seq<Str>, x: Str): (p: Str)
    requires a != [] && Closes(x)
    ensures Join(a) + x == a[0] + p && Delimited(p) && p != []
    ensures p[0] == COMMA <==> |a| > 1
  {
    if |a| == 1 then x
    else
      assert Join(a) + x == a[0] + ([COMMA] + Join(a[1..]) + x);
      [COMMA] + Join(a[1..]) + x
  }

  lemma {:induction false} ListsPartedTail(a: seq<Str>, b: seq<Str>)
    requires ListsParted(a, b) && a != [] && b != []
    ensures ListsParted(a[1..], b[1..])
  {
  }

  /** Only the closing bracket starts like one. */
  lemma {:induction false} JoinFirst(a: seq<Str>, x: Str)
    requires Closes(x) && forall i :: 0 <= i < |a| ==> Starts(a[i])
    ensures |Join(a) + x| > 0 && (Closes(Join(a) + x) <==> a == [])
  {
    if a == [] {
      assert Join(a) + x == x;
    } else {
      assert Join(a) + x == a[0] + JoinRest(a, x) && Starts(a[0]);
      assert (a[0] + JoinRest(a, x))[0] == a[0][0];
    }
  }

  lemma {:induction false} JoinEnds(a: seq<Str>, b: seq<Str>, x: Str, y: Str)
    requires ListsParted(a, b) && Closes(x) && Closes(y) && Join(a) + x == Join(b) + y && (a == [] || b == [])
    ensures a == b && x == y
  {
    JoinFirst(a, x);
    JoinFirst(b, y);
    assert Join(a) + x == x && Join(b) + y == y;
  }

  // ---- Values ----

  /** The first unit of a text says which kind of value it is. */
  function Kind(v: Json): (k: int) {
    match v
    case Null => 0
    case Bool(value) => if value then 1 else 2
    case Number(_) => 3
    case Text(_) => 4
    case Array(_) => 5
    case Object(_) => 6
  }

  function KindOf(u: Unit): int {
    if u == 110 then 0 else if u == 116 then 1 else if u == 102 then 2
    else if u == QUOTE then 4 else if u == LBRACKET then 5 else if u == LBRACE then 6 else 3
  }

  lemma {:induction false} StableStarts(v: Json)
    requires WellFormed(v)
    ensures Starts(Stable(v)) && KindOf(Stable(v)[0]) == Kind(v)
  {
    hide Join, Lines, Sort, Members, Escape;
  }

  lemma {:induction false} KindSeen(v: Json, x: Str)
    requires WellFormed(v)
    ensures |Stable(v) + x| > 0 && KindOf((Stable(v) + x)[0]) == Kind(v)
  {
    StableStarts(v);
    hide Stable;
    assert (Stable(v) + x)[0] == Stable(v)[0];
  }

  lemma {:induction false} KindsParted(a: Json, b: Json)
    requires WellFormed(a) && WellFormed(b) && Kind(a) != Kind(b)
    ensures Parted(Stable(a), Stable(b))
  {
    hide Stable;
    forall x, y ensures Stable(a) + x != Stable(b) + y {
      KindSeen(a, x);
      KindSeen(b, y);
    }
  }

  lemma {:induction false} BracketsParted(a: seq<Str>, b: seq<Str>, open: Unit, close: Unit)
    requires ListsParted(a, b) && (close == RBRACKET || close == RBRACE)
    ensures Parted([open] + Join(a) + [close], [open] + Join(b) + [close])
    ensures [open] + Join(a) + [close] == [open] + Join(b) + [close] ==> a == b
  {
    var s, t := [open] + Join(a) + [close], [open] + Join(b) + [close];
    forall x, y | s + x == t + y ensures a == b {
      assert Join(a) + ([close] + x) == (s + x)[1..];
      assert Join(b) + ([close] + y) == (t + y)[1..];
      JoinParted(a, b, [close] + x, [close] + y);
    }
    assert s + [] == s && t + [] == t;
  }

  lemma {:induction false} TextsParted(a: Str, b: Str)
    ensures Parted(Quote(a), Quote(b))
  {
    forall x, y | Quote(a) + x == Quote(b) + y ensures a == b { QuoteParted(a, b, x, y); }
  }

  lemma {:induction false} LineThen(m: Member, x: Str)
    ensures m.Line() + x == Quote(m.key) + ([COLON] + (m.text + x))
  {
  }

  lemma {:induction false} LineParted(m: Member, n: Member, x: Str, y: Str)
    requires Parted(m.text, n.text) && Delimited(x) && Delimited(y) && m.Line() + x == n.Line() + y
    ensures m == n
  {
    hide Quote;
    LineThen(m, x);
    LineThen(n, y);
    QuoteParted(m.key, n.key, [COLON] + (m.text + x), [COLON] + (n.text + y));
    Cons(COLON, m.text + x, n.text + y);
  }

  lemma {:induction false} LineStarts(m: Member)
    ensures Starts(m.Line())
  {
  }

  lemma {:induction false} LinesParted(m: Member, n: Member)
    requires Parted(m.text, n.text)
    ensures Parted(m.Line(), n.Line()) && Starts(m.Line())
    ensures m.Line() == n.Line() ==> m == n
  {
    assert Starts(m.Line());
    assert m.Line() + [] == m.Line() && n.Line() + [] == n.Line();
    if m.Line() == n.Line() { LineParted(m, n, [], []); }
    forall x, y | Delimited(x) && Delimited(y) && m.Line() + x == n.Line() + y ensures m == n {
      LineParted(m, n, x, y);
    }
  }

  /** The members of an object come from its entries. */
  lemma {:induction false} MemberOf(entries: seq<Entry>, m: Member)
    requires m in Sort(Members(entries))
    ensures exists i :: 0 <= i < |entries| && m == Member(entries[i].key, Stable(entries[i].value))
  {
    hide Sort, Stable;
    SortKeepsMembers(Members(entries));
    assert m in Members(entries);
    var i: nat :| i < |Members(entries)| && Members(entries)[i] == m;
    MembersAt(entries, i);
  }

  lemma {:induction false} InsertKeepsMembers(m: Member, ms: seq<Member>)
    ensures |Insert(m, ms)| == |ms| + 1
    ensures forall n :: n in Insert(m, ms) <==> n == m || n in ms
  {
    if ms != [] && Less(ms[0].key, m.key) {
      InsertKeepsMembers(m, ms[1..]);
      assert ms == [ms[0]] + ms[1..];
    }
  }

  lemma {:induction false} SortKeepsMembers(ms: seq<Member>)
    ensures |Sort(ms)| == |ms|
    ensures forall n :: n in Sort(ms) <==> n in ms
  {
    if ms != [] {
      SortKeepsMembers(ms[1..]);
      InsertKeepsMembers(ms[0], Sort(ms[1..]));
      assert ms == [ms[0]] + ms[1..];
    }
  }

  lemma {:induction false} StableParted(a: Json, b: Json)
    requires WellFormed(a) && WellFormed(b)
    ensures Parted(Stable(a), Stable(b))
    decreases a, 1
  {
    if Kind(a) != Kind(b) {
      KindsParted(a, b);
    } else {
      match a
      case Number(text) => NumbersParted(text, b.text);
      case Text(chars) => TextsParted(chars, b.chars);
      case Array(items) => ArraysParted(a, b);
      case Object(entries) => ObjectsParted(a, b);
      case _ =>
    }
  }

  lemma {:induction false} ArraysParted(a: Json, b: Json)
    requires WellFormed(a) && WellFormed(b) && a.Array? && b.Array?
    ensures Parted(Stable(a), Stable(b))
    ensures Stable(a) == Stable(b) ==> StableAll(a.items) == StableAll(b.items)
    decreases a, 0
  {
    var s, t := StableAll(a.items), StableAll(b.items);
    forall i, j | 0 <= i < |s| && 0 <= j < |t| ensures Parted(s[i], t[j]) {
      StableAllAt(a.items, i);
      StableAllAt(b.items, j);
      StableParted(a.items[i], b.items[j]);
    }
    forall i | 0 <= i < |s| ensures Starts(s[i]) { StableAllAt(a.items, i); StableStarts(a.items[i]); }
    forall j | 0 <= j < |t| ensures Starts(t[j]) { StableAllAt(b.items, j); StableStarts(b.items[j]); }
    hide Parted;
    BracketsParted(s, t, LBRACKET, RBRACKET);
  }

  lemma {:induction false} ObjectsParted(a: Json, b: Json)
    requires WellFormed(a) && WellFormed(b) && a.Object? && b.Object?
    ensures Parted(Stable(a), Stable(b))
    ensures Stable(a) == Stable(b) ==> Sort(Members(a.entries)) == Sort(Members(b.entries))
    decreases a, 0
  {
    hide Parted, Sort, Members;
    var p, q := Sort(Members(a.entries)), Sort(Members(b.entries));
    forall i, j | 0 <= i < |p| && 0 <= j < |q|
      ensures Parted(p[i].Line(), q[j].Line()) && (p[i].Line() == q[j].Line() ==> p[i] == q[j])
    {
      MemberOf(a.entries, p[i]);
      MemberOf(b.entries, q[j]);
      var k :| 0 <= k < |a.entries| && p[i] == Member(a.entries[k].key, Stable(a.entries[k].value));
      var l :| 0 <= l < |b.entries| && q[j] == Member(b.entries[l].key, Stable(b.entries[l].value));
      StableParted(a.entries[k].value, b.entries[l].value);
      LinesParted(p[i], q[j]);
    }
    forall i | 0 <= i < |p| ensures Starts(p[i].Line()) { LineStarts(p[i]); }
    forall j | 0 <= j < |q| ensures Starts(q[j].Line()) { LineStarts(q[j]); }
    BracketsParted(Lines(p), Lines(q), LBRACE, RBRACE);
    if Lines(p) == Lines(q) {
      forall i | 0 <= i < |p| ensures p[i] == q[i] { assert Lines(p)[i] == Lines(q)[i]; }
    }
  }

  // ---- The text determines the value ----

  lemma {:induction false} TextDetermines(a: Json, b: Json)
    requires WellFormed(a) && WellFormed(b) && Stable(a) == Stable(b)
    ensures Same(a, b)
    decreases a, 1
  {
    hide Join, Lines, Sort, Escape;
    StableStarts(a);
    StableStarts(b);
    assert Kind(a) == Kind(b);
    match a
    case Text(chars) =>
      assert Quote(chars) + [] == Quote(b.chars) + [];
      QuoteParted(chars, b.chars, [], []);
    case Array(items) =>
      ArraysParted(a, b);
      forall i | 0 <= i < |items| ensures Same(items[i], b.items[i]) {
        StableAllAt(items, i);
        StableAllAt(b.items, i);
        TextDetermines(items[i], b.items[i]);
      }
    case Object(entries) => ObjectDetermines(a, b);
    case _ =>
  }

  lemma {:induction false} ObjectDetermines(a: Json, b: Json)
    requires WellFormed(a) && WellFormed(b) && a.Object? && b.Object? && Stable(a) == Stable(b)
    ensures Same(a, b)
    decreases a, 0
  {
    hide Stable, Sort;
    ObjectsParted(a, b);
    SortKeepsMembers(Members(a.entries));
    SortKeepsMembers(Members(b.entries));
    forall i | 0 <= i < |a.entries| ensures Matched(a.entries[i], b.entries) {
      MembersAt(a.entries, i);
      assert Members(a.entries)[i] in Sort(Members(b.entries));
      MemberOf(b.entries, Members(a.entries)[i]);
      var j :| 0 <= j < |b.entries| && Members(a.entries)[i] == Member(b.entries[j].key, Stable(b.entries[j].value));
      TextDetermines(a.entries[i].value, b.entries[j].value);
    }
  }

  // ---- The order of entries does not matter ----

  lemma {:induction false} NotLess(a: Str)
    ensures !Less(a, a)
  {
    if a != [] { NotLess(a[1..]); }
  }

  lemma {:induction false} LessTotal(a: Str, b: Str)
    ensures a == b || Less(a, b) || Less(b, a)
    ensures !(Less(a, b) && Less(b, a)) && !Less(a, a)
  {
    NotLess(a);
    if a != [] && b != [] {
      LessTotal(a[1..], b[1..]);
      if a[0] == b[0] && a[1..] == b[1..] {
        assert a == [a[0]] + a[1..] == [b[0]] + b[1..] == b;
      }
    }
  }

  lemma {:induction false} LessTransitive(a: Str, b: Str, c: Str)
    requires Less(a, b) && Less(b, c)
    ensures Less(a, c)
  {
    if a != [] && a[0] == b[0] == c[0] { LessTransitive(a[1..], b[1..], c[1..]); }
  }

  predicate Sorted(ms: seq<Member>) { forall i, j :: 0 <= i < j < |ms| ==> Less(ms[i].key, ms[j].key) }

  predicate DistinctMembers(ms: seq<Member>) { forall i, j :: 0 <= i < j < |ms| ==> ms[i].key != ms[j].key }

  lemma {:induction false} InsertSorts(m: Member, ms: seq<Member>)
    requires Sorted(ms) && forall n :: n in ms ==> n.key != m.key
    ensures Sorted(Insert(m, ms))
  {
    hide Less;
    if ms != [] {
      if Less(ms[0].key, m.key) {
        var rest := Insert(m, ms[1..]);
        InsertSorts(m, ms[1..]);
        InsertKeepsMembers(m, ms[1..]);
        forall j | 0 <= j < |rest| ensures Less(ms[0].key, rest[j].key) {
          assert rest[j] in rest;
          if rest[j] != m { assert rest[j] in ms[1..]; }
        }
      } else {
        LessTotal(ms[0].key, m.key);
        assert ms[0] in ms;
        forall j | 0 <= j < |ms| ensures Less(m.key, ms[j].key) {
          if j > 0 { LessTransitive(m.key, ms[0].key, ms[j].key); }
        }
      }
    }
  }

  lemma {:induction false} SortSorts(ms: seq<Member>)
    requires DistinctMembers(ms)
    ensures Sorted(Sort(ms))
  {
    if ms != [] {
      SortSorts(ms[1..]);
      SortKeepsMembers(ms[1..]);
      forall n | n in Sort(ms[1..]) ensures n.key != ms[0].key { assert n in ms[1..]; }
      InsertSorts(ms[0], Sort(ms[1..]));
    }
  }

  lemma {:induction false} SortedUnique(p: seq<Member>, q: seq<Member>)
    requires Sorted(p) && Sorted(q) && forall m :: m in p <==> m in q
    ensures p == q
    decreases |p|
  {
    EmptyTogether(p, q);
    if p != [] {
      SortedFirst(p, q);
      TailMembers(p);
      TailMembers(q);
      SortedUnique(p[1..], q[1..]);
      assert p == [p[0]] + p[1..] && q == [q[0]] + q[1..];
    }
  }

  lemma {:induction false} EmptyTogether(p: seq<Member>, q: seq<Member>)
    requires forall m :: m in p <==> m in q
    ensures p == [] <==> q == []
  {
    if p != [] { assert p[0] in q; }
    if q != [] { assert q[0] in p; }
  }

  lemma {:induction false} TailMembers(p: seq<Member>)
    requires Sorted(p) && p != []
    ensures forall m :: m in p[1..] <==> m in p && m != p[0]
  {
    NotTwice(p);
    assert p == [p[0]] + p[1..];
  }

  lemma {:induction false} NotTwice(p: seq<Member>)
    requires Sorted(p) && p != []
    ensures p[0] !in p[1..]
  {
    forall i | 0 < i < |p| ensures p[i] != p[0] { LessTotal(p[0].key, p[i].key); assert Less(p[0].key, p[i].key); }
  }

  lemma {:induction false} SortedFirst(p: seq<Member>, q: seq<Member>)
    requires Sorted(p) && Sorted(q) && p != [] && q != [] && forall m :: m in p <==> m in q
    ensures p[0] == q[0]
  {
    assert p[0] in q && q[0] in p;
    var i :| 0 <= i < |q| && q[i] == p[0];
    var j :| 0 <= j < |p| && p[j] == q[0];
    assert i > 0 ==> Less(q[0].key, p[0].key);
    assert j > 0 ==> Less(p[0].key, q[0].key);
    LessTotal(p[0].key, q[0].key);
  }

  function Elements(ms: seq<Member>): set<Member> { set m | m in ms }

  lemma {:induction false} CountElements(ms: seq<Member>)
    requires DistinctMembers(ms)
    ensures |Elements(ms)| == |ms|
  {
    if ms != [] {
      CountElements(ms[1..]);
      assert ms == [ms[0]] + ms[1..];
      assert Elements(ms) == {ms[0]} + Elements(ms[1..]);
      assert ms[0] !in ms[1..];
    }
  }

  /** Distinct members of the same number, one list contained in the other. */
  lemma {:induction false} SameMembers(p: seq<Member>, q: seq<Member>)
    requires DistinctMembers(p) && DistinctMembers(q) && |p| == |q| && forall m :: m in p ==> m in q
    ensures Sort(p) == Sort(q)
  {
    CountElements(p);
    CountElements(q);
    var rest := Elements(q) - Elements(p);
    assert Elements(q) == Elements(p) + rest;
    assert rest == {};
    assert forall m :: m in q ==> m in Elements(q);
    SortKeepsMembers(p);
    SortKeepsMembers(q);
    SortSorts(p);
    SortSorts(q);
    SortedUnique(Sort(p), Sort(q));
  }

  lemma {:induction false} MembersDistinct(entries: seq<Entry>)
    requires DistinctKeys(entries)
    ensures DistinctMembers(Members(entries))
  {
    var ms := Members(entries);
    forall i, j | 0 <= i < j < |ms| ensures ms[i].key != ms[j].key {
      MembersAt(entries, i);
      MembersAt(entries, j);
    }
  }

  lemma {:induction false} SameText(a: Json, b: Json)
    requires WellFormed(a) && WellFormed(b) && Same(a, b)
    ensures Stable(a) == Stable(b)
    decreases a
  {
    match a
    case Array(items) =>
      forall i | 0 <= i < |items| ensures StableAll(items)[i] == StableAll(b.items)[i] {
        StableAllAt(items, i);
        StableAllAt(b.items, i);
        SameText(items[i], b.items[i]);
      }
      assert StableAll(items) == StableAll(b.items);
    case Object(entries) =>
      var p, q := Members(entries), Members(b.entries);
      forall m | m in p ensures m in q {
        var i: nat :| i < |p| && p[i] == m;
        MembersAt(entries, i);
        assert Matched(entries[i], b.entries);
        var j :| 0 <= j < |b.entries| && b.entries[j].key == entries[i].key
                 && Same(entries[i].value, b.entries[j].value);
        SameText(entries[i].value, b.entries[j].value);
        MembersAt(b.entries, j);
        assert q[j] == m;
      }
      MembersDistinct(entries);
      MembersDistinct(b.entries);
      SameMembers(p, q);
    case _ =>
  }

  /** Canonical form: two values have the same text if and only if they are equal up to the
      order of the entries of their objects. */
  lemma {:induction false} CanonicalForm(a: Json, b: Json)
    requires WellFormed(a) && WellFormed(b)
    ensures Stable(a) == Stable(b) <==> Same(a, b)
  {
    if Stable(a) == Stable(b) { TextDetermines(a, b); }
    if Same(a, b) { SameText(a, b); }
  }

  // ---- The request hash ----

  lemma {:induction false} WithoutClaimHas(entries: seq<Entry>, e: Entry)
    ensures e in WithoutClaim(entries) <==> e in entries && e.key != CLAIM
  {
    if entries != [] {
      assert entries == [entries[0]] + entries[1..];
      WithoutClaimHas(entries[1..], e);
    }
  }

  lemma {:induction false} WithoutClaimFormed(entries: seq<Entry>)
    requires WellFormed(Object(entries))
    ensures WellFormed(Object(WithoutClaim(entries)))
  {
    if entries != [] {
      var rest := WithoutClaim(entries[1..]);
      WithoutClaimFormed(entries[1..]);
      forall i | 0 <= i < |rest| ensures rest[i].key != entries[0].key {
        WithoutClaimHas(entries[1..], rest[i]);
        assert rest[i] in entries[1..];
      }
    }
  }

  /** The same fields with the same values, claims aside. */
  ghost predicate SameButClaim(a: Json, b: Json)
    requires a.Object? && b.Object?
  {
    && (forall e :: e in a.entries && e.key != CLAIM ==> Matched(e, b.entries))
    && (forall e :: e in b.entries && e.key != CLAIM ==> HasKey(a.entries, e.key))
  }

  predicate HasKey(entries: seq<Entry>, key: Str) { exists i :: 0 <= i < |entries| && entries[i].key == key }

  function Keys(entries: seq<Entry>): set<Str> { set i | 0 <= i < |entries| :: entries[i].key }

  lemma {:induction false} CountKeys(entries: seq<Entry>)
    requires DistinctKeys(entries)
    ensures |Keys(entries)| == |entries|
  {
    if entries != [] {
      DistinctTail(entries);
      hide DistinctKeys, Keys;
      CountKeys(entries[1..]);
      KeysOfTail(entries);
    }
  }

  lemma {:induction false} DistinctTail(entries: seq<Entry>)
    requires entries != [] && DistinctKeys(entries)
    ensures DistinctKeys(entries[1..]) && entries[0].key !in Keys(entries[1..])
  {
    forall i | 0 <= i < |entries[1..]| ensures entries[1..][i].key != entries[0].key {
      assert entries[1..][i] == entries[i + 1];
    }
  }

  lemma {:induction false} KeysOfTail(entries: seq<Entry>)
    requires entries != []
    ensures Keys(entries) == {entries[0].key} + Keys(entries[1..])
  {
    forall k | k in Keys(entries) ensures k in {entries[0].key} + Keys(entries[1..]) {
      var i :| 0 <= i < |entries| && entries[i].key == k;
      if i > 0 { assert entries[1..][i - 1].key == k; }
    }
    forall k | k in Keys(entries[1..]) ensures k in Keys(entries) {
      var i :| 0 <= i < |entries[1..]| && entries[1..][i].key == k;
      assert entries[i + 1].key == k;
    }
  }

  lemma {:induction false} SameKeyCount(p: seq<Entry>, q: seq<Entry>)
    requires DistinctKeys(p) && DistinctKeys(q)
    requires (forall e :: e in p ==> HasKey(q, e.key)) && (forall e :: e in q ==> HasKey(p, e.key))
    ensures |p| == |q|
  {
    CountKeys(p);
    CountKeys(q);
    assert Keys(p) == Keys(q) by {
      forall k | k in Keys(p) ensures k in Keys(q) {
        var i :| 0 <= i < |p| && p[i].key == k;
        assert p[i] in p;
      }
      forall k | k in Keys(q) ensures k in Keys(p) {
        var i :| 0 <= i < |q| && q[i].key == k;
        assert q[i] in q;
      }
    }
  }

  /** A match for an entry survives dropping the claim, and is none of it. */
  lemma {:induction false} MatchedWithoutClaim(e: Entry, entries: seq<Entry>)
    requires e.key != CLAIM
    ensures Matched(e, WithoutClaim(entries)) <==> Matched(e, entries)
  {
    hide WithoutClaim;
    if Matched(e, entries) {
      var j :| 0 <= j < |entries| && entries[j].key == e.key && Same(e.value, entries[j].value);
      WithoutClaimHas(entries, entries[j]);
      var k :| 0 <= k < |WithoutClaim(entries)| && WithoutClaim(entries)[k] == entries[j];
    }
    if Matched(e, WithoutClaim(entries)) {
      var j :| 0 <= j < |WithoutClaim(entries)| && WithoutClaim(entries)[j].key == e.key
               && Same(e.value, WithoutClaim(entries)[j].value);
      WithoutClaimHas(entries, WithoutClaim(entries)[j]);
      var k :| 0 <= k < |entries| && entries[k] == WithoutClaim(entries)[j];
    }
  }

  lemma {:induction false} MatchedHasKey(e: Entry, entries: seq<Entry>)
    requires Matched(e, entries)
    ensures HasKey(entries, e.key)
  {
  }

  lemma {:induction false} ButClaimIsLogical(a: Json, b: Json)
    requires WellFormed(a) && WellFormed(b) && a.Object? && b.Object? && SameButClaim(a, b)
    ensures Same(Logical(a), Logical(b))
  {
    hide Stable, WithoutClaim, Matched;
    var p, q := WithoutClaim(a.entries), WithoutClaim(b.entries);
    forall e | e in p ensures Matched(e, q) && HasKey(q, e.key) {
      WithoutClaimHas(a.entries, e);
      MatchedWithoutClaim(e, b.entries);
      MatchedHasKey(e, q);
    }
    KeysOfOther(a, b);
    WithoutClaimFormed(a.entries);
    WithoutClaimFormed(b.entries);
    SameKeyCount(p, q);
    assert forall i :: 0 <= i < |p| ==> p[i] in p;
  }

  lemma {:induction false} KeysOfOther(a: Json, b: Json)
    requires a.Object? && b.Object? && SameButClaim(a, b)
    ensures forall e :: e in WithoutClaim(b.entries) ==> HasKey(WithoutClaim(a.entries), e.key)
  {
    hide WithoutClaim;
    var p, q := WithoutClaim(a.entries), WithoutClaim(b.entries);
    forall e | e in q ensures HasKey(p, e.key) {
      WithoutClaimHas(b.entries, e);
      var i :| 0 <= i < |a.entries| && a.entries[i].key == e.key;
      WithoutClaimHas(a.entries, a.entries[i]);
      var k :| 0 <= k < |p| && p[k] == a.entries[i];
    }
  }

  /** Same objects have the same keys. */
  lemma {:induction false} SameKeys(p: seq<Entry>, q: seq<Entry>, key: Str)
    requires DistinctKeys(p) && DistinctKeys(q) && Same(Object(p), Object(q)) && HasKey(q, key)
    ensures HasKey(p, key)
  {
    SameLength(p, q);
    CountKeys(p);
    CountKeys(q);
    assert key in Keys(q);
    KeysWithin(p, q);
    hide Same, DistinctKeys, Keys;
    var rest := Keys(q) - Keys(p);
    assert Keys(q) == Keys(p) + rest;
    assert rest == {};
    KeyHeld(p, key);
  }

  lemma {:induction false} SameLength(p: seq<Entry>, q: seq<Entry>)
    requires Same(Object(p), Object(q))
    ensures |p| == |q|
  {
  }

  lemma {:induction false} KeyHeld(p: seq<Entry>, key: Str)
    requires key in Keys(p)
    ensures HasKey(p, key)
  {
  }

  lemma {:induction false} KeysWithin(p: seq<Entry>, q: seq<Entry>)
    requires Same(Object(p), Object(q))
    ensures Keys(p) <= Keys(q)
  {
    forall k | k in Keys(p) ensures k in Keys(q) {
      var i :| 0 <= i < |p| && p[i].key == k;
      assert Matched(p[i], q);
      MatchedHasKey(p[i], q);
    }
  }

  lemma {:induction false} LogicalIsButClaim(a: Json, b: Json)
    requires WellFormed(a) && WellFormed(b) && a.Object? && b.Object? && Same(Logical(a), Logical(b))
    ensures SameButClaim(a, b)
  {
    var p, q := WithoutClaim(a.entries), WithoutClaim(b.entries);
    WithoutClaimFormed(a.entries);
    WithoutClaimFormed(b.entries);
    forall e | e in a.entries && e.key != CLAIM ensures Matched(e, b.entries) {
      WithoutClaimHas(a.entries, e);
      var i :| 0 <= i < |p| && p[i] == e;
      assert Matched(p[i], q);
      MatchedWithoutClaim(e, b.entries);
    }
    forall e | e in b.entries && e.key != CLAIM ensures HasKey(a.entries, e.key) {
      WithoutClaimHas(b.entries, e);
      var i :| 0 <= i < |q| && q[i] == e;
      assert HasKey(q, e.key);
      SameKeys(p, q, e.key);
      var k :| 0 <= k < |p| && p[k].key == e.key;
      WithoutClaimHas(a.entries, p[k]);
      var l :| 0 <= l < |a.entries| && a.entries[l] == p[k];
    }
  }

  /** The request hash ignores the order of entries and the top-level consent claim, and
      nothing else. */
  lemma {:induction false} RequestHashExactly(a: Json, b: Json)
    requires WellFormed(a) && WellFormed(b) && a.Object? && b.Object?
    ensures RequestHash(a) == RequestHash(b) <==> SameButClaim(a, b)
  {
    WithoutClaimFormed(a.entries);
    WithoutClaimFormed(b.entries);
    CanonicalForm(Logical(a), Logical(b));
    hide Stable, Same, SameButClaim;
    if SameButClaim(a, b) { ButClaimIsLogical(a, b); }
    if Same(Logical(a), Logical(b)) { LogicalIsButClaim(a, b); }
  }
}
