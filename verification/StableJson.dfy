/** The canonical JSON text on which idempotency conflicts are decided (stableJson and
    canonicalRelayRequestHash of video-media-relay/contracts/relayApi.ts). Strings are
    sequences of UTF-16 code units. */
module StableJson {

  type Unit = u: int | 0 <= u < 0x10000
  type Str = seq<Unit>

  const QUOTE: Unit := 34
  const COMMA: Unit := 44
  const COLON: Unit := 58
  const LBRACKET: Unit := 91
  const BACKSLASH: Unit := 92
  const RBRACKET: Unit := 93
  const LBRACE: Unit := 123
  const RBRACE: Unit := 125

  /** A finite number is given by the text that Number.prototype.toString gives it; that
      text is one to one on finite numbers once -0 is taken for 0. Object entries are in
      insertion order. */
  datatype Json =
    | Null | Bool(value: bool) | Number(text: Str) | Text(chars: Str)
    | Array(items: seq<Json>) | Object(entries: seq<Entry>)

  datatype Entry = Entry(key: Str, value: Json)

  predicate IsDigit(u: Unit) { 48 <= u <= 57 }

  /** Digits, sign, point and exponent mark. */
  predicate IsNumberUnit(u: Unit) { IsDigit(u) || u == 43 || u == 45 || u == 46 || u == 101 }

  predicate NumberText(t: Str) {
    t != [] && (IsDigit(t[0]) || t[0] == 45) && forall i :: 0 <= i < |t| ==> IsNumberUnit(t[i])
  }

  predicate DistinctKeys(entries: seq<Entry>) {
    forall i, j :: 0 <= i < j < |entries| ==> entries[i].key != entries[j].key
  }

  /** The values that exist: numbers have a number's text, a key occurs once in an object. */
  predicate WellFormed(v: Json) {
    match v
    case Number(text) => NumberText(text)
    case Array(items) => forall i :: 0 <= i < |items| ==> WellFormed(items[i])
    case Object(entries) => DistinctKeys(entries) && forall i :: 0 <= i < |entries| ==> WellFormed(entries[i].value)
    case _ => true
  }

  /** Equal up to the order of the entries of objects. */
  ghost predicate Same(a: Json, b: Json) {
    match a
    case Array(items) =>
      b.Array? && |items| == |b.items| && forall i :: 0 <= i < |items| ==> Same(items[i], b.items[i])
    case Object(entries) =>
      && b.Object? && |entries| == |b.entries|
      && (forall i :: 0 <= i < |entries| ==> Matched(entries[i], b.entries))
    case _ => a == b
  }

  /** Some entry has this key and the same value. */
  ghost predicate Matched(e: Entry, entries: seq<Entry>) {
    exists j :: 0 <= j < |entries| && entries[j].key == e.key && Same(e.value, entries[j].value)
  }

  // ---- JSON.stringify on strings ----

  predicate IsHigh(u: Unit) { 0xD800 <= u < 0xDC00 }
  predicate IsLow(u: Unit) { 0xDC00 <= u < 0xE000 }

  function HexDigit(d: int): Unit
    requires 0 <= d < 16
  {
    if d < 10 then 48 + d else 87 + d
  }

  function Hex4(u: Unit): Str {
    var tens := u / 16;
    var hundreds := tens / 16;
    [HexDigit(hundreds / 16), HexDigit(hundreds % 16), HexDigit(tens % 16), HexDigit(u % 16)]
  }

  function EscapeUnit(u: Unit): Str {
    if u == 8 then [BACKSLASH, 98]
    else if u == 9 then [BACKSLASH, 116]
    else if u == 10 then [BACKSLASH, 110]
    else if u == 12 then [BACKSLASH, 102]
    else if u == 13 then [BACKSLASH, 114]
    else if u == QUOTE then [BACKSLASH, QUOTE]
    else if u == BACKSLASH then [BACKSLASH, BACKSLASH]
    else if u < 32 || IsHigh(u) || IsLow(u) then [BACKSLASH, 117] + Hex4(u)
    else [u]
  }

  /** A surrogate pair is one character; a surrogate alone is escaped. */
  function HeadLength(s: Str): nat
    requires s != []
  {
    if IsHigh(s[0]) && |s| > 1 && IsLow(s[1]) then 2 else 1
  }

  function HeadText(s: Str): (t: Str)
    requires s != []
    ensures t != []
  {
    if HeadLength(s) == 2 then s[..2] else EscapeUnit(s[0])
  }

  function Escape(s: Str): Str {
    if s == [] then [] else HeadText(s) + Escape(s[HeadLength(s)..])
  }

  function Quote(s: Str): Str { [QUOTE] + Escape(s) + [QUOTE] }

  // ---- stableJson ----

  /** The order of sort() without a comparator. */
  predicate Less(a: Str, b: Str) {
    if b == [] then false
    else if a == [] then true
    else a[0] < b[0] || (a[0] == b[0] && Less(a[1..], b[1..]))
  }

  datatype Member = Member(key: Str, text: Str) {
    function Line(): Str { Quote(key) + [COLON] + text }
  }

  function Insert(m: Member, ms: seq<Member>): seq<Member> {
    if ms == [] then [m]
    else if Less(ms[0].key, m.key) then [ms[0]] + Insert(m, ms[1..])
    else [m] + ms
  }

  function Sort(ms: seq<Member>): seq<Member> {
    if ms == [] then [] else Insert(ms[0], Sort(ms[1..]))
  }

  function Join(ts: seq<Str>): Str {
    if ts == [] then [] else if |ts| == 1 then ts[0] else ts[0] + [COMMA] + Join(ts[1..])
  }

  function Lines(ms: seq<Member>): (ts: seq<Str>)
    ensures |ts| == |ms| && forall i :: 0 <= i < |ts| ==> ts[i] == ms[i].Line()
  {
    if ms == [] then [] else [ms[0].Line()] + Lines(ms[1..])
  }

  function Stable(v: Json): Str {
    match v
    case Null => [110, 117, 108, 108]
    case Bool(value) => if value then [116, 114, 117, 101] else [102, 97, 108, 115, 101]
    case Number(text) => text
    case Text(chars) => Quote(chars)
    case Array(items) => [LBRACKET] + Join(StableAll(items)) + [RBRACKET]
    case Object(entries) => [LBRACE] + Join(Lines(Sort(Members(entries)))) + [RBRACE]
  }

  function StableAll(items: seq<Json>): (ts: seq<Str>)
    ensures |ts| == |items|
  {
    if items == [] then [] else [Stable(items[0])] + StableAll(items[1..])
  }

  function Members(entries: seq<Entry>): (ms: seq<Member>)
    ensures |ms| == |entries|
  {
    if entries == [] then [] else [Member(entries[0].key, Stable(entries[0].value))] + Members(entries[1..])
  }

  lemma {:induction false} StableAllAt(items: seq<Json>, i: nat)
    requires i < |items|
    ensures StableAll(items)[i] == Stable(items[i])
  {
    if i > 0 { StableAllAt(items[1..], i - 1); }
  }

  lemma {:induction false} MembersAt(entries: seq<Entry>, i: nat)
    requires i < |entries|
    ensures Members(entries)[i] == Member(entries[i].key, Stable(entries[i].value))
  {
    if i > 0 { MembersAt(entries[1..], i - 1); }
  }

  // ---- The request hash ----

  /** "remote_consent_claim" */
  const CLAIM: Str := [114, 101, 109, 111, 116, 101, 95, 99, 111, 110, 115, 101, 110, 116, 95, 99, 108, 97, 105, 109]

  function WithoutClaim(entries: seq<Entry>): seq<Entry> {
    if entries == [] then []
    else if entries[0].key == CLAIM then WithoutClaim(entries[1..])
    else [entries[0]] + WithoutClaim(entries[1..])
  }

  function Logical(v: Json): Json {
    if v.Object? then Object(WithoutClaim(v.entries)) else v
  }

  /** SHA-256 is taken as one to one, so a hash is given by the text that it hashes. */
  function RequestHash(v: Json): Str { Stable(Logical(v)) }
}
