/** The hand-written JSON scanner and escaper of the two native helpers
    (native/billiardbuddy-chrome/src/mcp.rs and native/billiardbuddy-browser-use/src/main.rs).
    Text is a sequence of characters; the marks that the byte scanner looks for are ASCII
    and are never part of another character. */
module FlatScanner {

  datatype Option<T> = None | Some(value: T)

  // ---- Escaping ----

  function HexDigit(d: int): char
    requires 0 <= d < 16
  {
    if d < 10 then (48 + d) as char else (87 + d) as char
  }

  /** char::is_control: the general category Cc. */
  predicate IsControl(c: char) { c as int < 0x20 || 0x7F <= c as int <= 0x9F }

  function EscapeChar(c: char): (t: string)
    ensures t != ""
  {
    if c == '"' then "\\\""
    else if c == '\\' then "\\\\"
    else if c == '\n' then "\\n"
    else if c == '\r' then "\\r"
    else if c == '\t' then "\\t"
    else if IsControl(c) then ['\\', 'u', '0', '0', HexDigit(c as int / 16), HexDigit(c as int % 16)]
    else [c]
  }

  function Escape(s: string): string {
    if s == "" then "" else EscapeChar(s[0]) + Escape(s[1..])
  }

  // ---- Unescaping ----

  function DigitOf(c: char): Option<int> {
    if '0' <= c <= '9' then Some(c as int - 48)
    else if 'a' <= c <= 'f' then Some(c as int - 87)
    else if 'A' <= c <= 'F' then Some(c as int - 55)
    else None
  }

  function Digits(s: string): (r: Option<int>)
    ensures r.Some? ==> 0 <= r.value
  {
    if s == "" then Some(0)
    else
      var high, low := Digits(s[..|s| - 1]), DigitOf(s[|s| - 1]);
      if high.Some? && low.Some? then Some(16 * high.value + low.value) else None
  }

  /** u32::from_str_radix(_, 16): a leading plus sign is accepted, nothing but it is not. */
  function FromHex(s: string): (r: Option<int>)
    ensures r.Some? ==> 0 <= r.value
  {
    var digits := if s != "" && s[0] == '+' then s[1..] else s;
    if digits == "" then None else Digits(digits)
  }

  /** char::from_u32: a code point that is no surrogate. */
  function FromU32(n: int): Option<char>
    requires 0 <= n
  {
    if n < 0xD800 || 0xE000 <= n < 0x11_0000 then Some(n as char) else None
  }

  /** The character that an escape sequence of one letter stands for. */
  function Simple(c: char): Option<char> {
    match c
    case '"' => Some('"')
    case '\\' => Some('\\')
    case '/' => Some('/')
    case 'b' => Some(8 as char)
    case 'f' => Some(12 as char)
    case 'n' => Some('\n')
    case 'r' => Some('\r')
    case 't' => Some('\t')
    case _ => None
  }

  datatype Step = Bad | Char(c: char, length: nat)

  /** The first character of an escaped text and how much of the text it takes. */
  function FirstChar(s: string): (step: Step)
    requires s != ""
    ensures step.Char? ==> 1 <= step.length <= |s|
  {
    if s[0] != '\\' then Char(s[0], 1)
    else if |s| < 2 then Bad
    else if s[1] == 'u' then
      if |s| < 6 then Bad
      else
        var code := FromHex(s[2..6]);
        if code.None? || FromU32(code.value).None? then Bad else Char(FromU32(code.value).value, 6)
    else if Simple(s[1]).None? then Bad
    else Char(Simple(s[1]).value, 2)
  }

  function Unescape(s: string): Option<string>
    decreases |s|
  {
    if s == "" then Some("")
    else
      var first := FirstChar(s);
      if first.Bad? then None
      else
        var rest := Unescape(s[first.length..]);
        if rest.Some? then Some([first.c] + rest.value) else None
  }

  // ---- Where a raw value ends ----

  /** Inside a string: the length up to and with the closing quote. */
  function StringEnd(s: string, escaped: bool): (end: Option<nat>)
    ensures end.Some? ==> 1 <= end.value <= |s|
  {
    if s == "" then None
    else if !escaped && s[0] == '"' then Some(1)
    else
      var rest := StringEnd(s[1..], !escaped && s[0] == '\\');
      if rest.Some? then Some(rest.value + 1) else None
  }

  /** Outside the top level or before a comma or closing brace of it. */
  function ScanEnd(s: string, depth: nat, quoted: bool, escaped: bool): (end: nat)
    ensures end <= |s|
  {
    if s == "" then 0
    else if quoted then
      if escaped then 1 + ScanEnd(s[1..], depth, true, false)
      else 1 + ScanEnd(s[1..], depth, s[0] != '"', s[0] == '\\')
    else if s[0] == '"' then 1 + ScanEnd(s[1..], depth, true, escaped)
    else if s[0] == '{' || s[0] == '[' then 1 + ScanEnd(s[1..], depth + 1, false, escaped)
    else if (s[0] == '}' || s[0] == ']') && depth > 0 then 1 + ScanEnd(s[1..], depth - 1, false, escaped)
    else if (s[0] == ',' || s[0] == '}') && depth == 0 then 0
    else 1 + ScanEnd(s[1..], depth, false, escaped)
  }

  function ValueEnd(s: string): (end: Option<nat>)
    ensures end.Some? ==> end.value <= |s|
  {
    if s == "" then None
    else if s[0] == '"' then
      var rest := StringEnd(s[1..], false);
      if rest.Some? then Some(rest.value + 1) else None
    else Some(ScanEnd(s, 0, false, false))
  }

  // ---- Looking up a member ----

  /** char::is_whitespace: the property White_Space. */
  predicate IsSpace(c: char) {
    var u := c as int;
    || 9 <= u <= 13 || u == 0x20 || u == 0x85 || u == 0xA0 || u == 0x1680 || 0x2000 <= u <= 0x200A
    || u == 0x2028 || u == 0x2029 || u == 0x202F || u == 0x205F || u == 0x3000
  }

  function TrimStart(s: string): (t: string)
    ensures |t| <= |s|
  {
    if s != "" && IsSpace(s[0]) then TrimStart(s[1..]) else s
  }

  function TrimEnd(s: string): (t: string)
    ensures |t| <= |s|
  {
    if s != "" && IsSpace(s[|s| - 1]) then TrimEnd(s[..|s| - 1]) else s
  }

  function Trim(s: string): string { TrimEnd(TrimStart(s)) }

  /** Strips the quotes of a raw string and unescapes it. */
  function StringOf(raw: string): Option<string> {
    if |raw| >= 2 && raw[0] == '"' && raw[|raw| - 1] == '"' then Unescape(raw[1..|raw| - 1]) else None
  }

  /** A member of the text: its key, its raw value and what follows; or none is left, or
      the text is not understood. */
  datatype Found = Malformed | NoMore | Member(key: string, value: string, rest: string)

  function NextMember(text: string): (found: Found)
    ensures found.Member? ==> |found.rest| < |text|
  {
    var start := TrimStart(text);
    if start != "" && start[0] == '}' then NoMore
    else
      var keyed := if start != "" && start[0] == ',' then TrimStart(start[1..]) else start;
      var keyEnd := ValueEnd(keyed);
      if keyEnd.None? then Malformed
      else
        var key := StringOf(keyed[..keyEnd.value]);
        var colon := TrimStart(keyed[keyEnd.value..]);
        if key.None? || colon == "" || colon[0] != ':' then Malformed
        else
          var valued := TrimStart(colon[1..]);
          var valueEnd := ValueEnd(valued);
          if valueEnd.None? then Malformed
          else Member(key.value, Trim(valued[..valueEnd.value]), valued[valueEnd.value..])
  }

  function Lookup(text: string, key: string): Option<string>
    decreases |text|
  {
    match NextMember(text)
    case Member(k, value, rest) => if k == key then Some(value) else Lookup(rest, key)
    case _ => None
  }

  function MemberValue(input: string, key: string): Option<string> {
    var trimmed := Trim(input);
    if trimmed != "" && trimmed[0] == '{' then Lookup(trimmed[1..], key) else None
  }

  function StringMember(input: string, key: string): Option<string> {
    var raw := MemberValue(input, key);
    if raw.Some? then StringOf(raw.value) else None
  }

  // ---- The loops ----

  method JsonEscape(value: string) returns (escaped: string)
    ensures escaped == Escape(value)
  {
    escaped := "";
    for i := 0 to |value|
      invariant escaped == Escape(value[..i])
    {
      EscapeMore(value[..i], value[i]);
      assert value[..i + 1] == value[..i] + [value[i]];
      escaped := escaped + EscapeChar(value[i]);
    }
    assert value[..|value|] == value;
  }

  lemma {:induction false} EscapeMore(s: string, c: char)
    ensures Escape(s + [c]) == Escape(s) + EscapeChar(c)
  {
    if s == "" {
      assert s + [c] == [c] && [c][1..] == "";
      assert EscapeChar(c) + "" == EscapeChar(c) == "" + EscapeChar(c);
    } else {
      assert (s + [c])[1..] == s[1..] + [c];
      EscapeMore(s[1..], c);
    }
  }

  method JsonUnescape(value: string) returns (output: Option<string>)
    ensures output == Unescape(value)
  {
    var done := "";
    var i := 0;
    assert value[0..] == value;
    PrefixedNothing(Unescape(value));
    while i < |value|
      invariant 0 <= i <= |value|
      invariant Unescape(value) == Prefixed(done, Unescape(value[i..]))
      decreases |value| - i
    {
      var step := FirstChar(value[i..]);
      if step.Bad? {
        return None;
      }
      assert value[i..][step.length..] == value[i + step.length..];
      ghost var rest := Unescape(value[i + step.length..]);
      assert rest.Some? ==> done + ([step.c] + rest.value) == done + [step.c] + rest.value;
      done := done + [step.c];
      i := i + step.length;
    }
    assert value[i..] == "" && done + "" == done;
    return Some(done);
  }

  method RawJsonValueEnd(value: string) returns (end: Option<nat>)
    ensures end == ValueEnd(value)
  {
    if value == "" {
      return None;
    }
    var escaped := false;
    if value[0] == '"' {
      for index := 1 to |value|
        invariant StringEnd(value[1..], false) == Shifted(StringEnd(value[index..], escaped), index - 1)
      {
        assert value[index..][1..] == value[index + 1..];
        if !escaped && value[index] == '"' {
          return Some(index + 1);
        }
        escaped := !escaped && value[index] == '\\';
      }
      return None;
    }
    var depth, quoted := 0, false;
    for index := 0 to |value|
      invariant depth >= 0 && (escaped ==> quoted)
      invariant ScanEnd(value, 0, false, false) == index + ScanEnd(value[index..], depth, quoted, escaped)
    {
      var c := value[index];
      assert value[index..][1..] == value[index + 1..];
      if quoted {
        if escaped {
          escaped := false;
        } else if c == '\\' {
          escaped := true;
        } else if c == '"' {
          quoted := false;
        }
        continue;
      }
      if c == '"' {
        quoted := true;
      } else if c == '{' || c == '[' {
        depth := depth + 1;
      } else if (c == '}' || c == ']') && depth > 0 {
        depth := depth - 1;
      } else if (c == ',' || c == '}') && depth == 0 {
        return Some(index);
      }
    }
    return Some(|value|);
  }

  function Prefixed(done: string, rest: Option<string>): Option<string> {
    if rest.Some? then Some(done + rest.value) else None
  }

  lemma {:induction false} PrefixedNothing(rest: Option<string>)
    ensures Prefixed("", rest) == rest
  {
    if rest.Some? { assert "" + rest.value == rest.value; }
  }

  function Shifted(end: Option<nat>, skipped: nat): Option<nat>
  {
    if end.Some? then Some(end.value + skipped) else None
  }

  method JsonMemberValue(input: string, key: string) returns (value: Option<string>)
    ensures value == MemberValue(input, key)
  {
    var remainder := Trim(input);
    if remainder == "" || remainder[0] != '{' {
      return None;
    }
    remainder := remainder[1..];
    while true
      invariant Lookup(remainder, key) == MemberValue(input, key)
      decreases |remainder|
    {
      ghost var before := remainder;
      remainder := TrimStart(remainder);
      if remainder != "" && remainder[0] == '}' {
        return None;
      }
      if remainder != "" && remainder[0] == ',' {
        remainder := TrimStart(remainder[1..]);
      }
      var keyEnd := RawJsonValueEnd(remainder);
      if keyEnd.None? {
        return None;
      }
      var memberKey := StringOf(remainder[..keyEnd.value]);
      if memberKey.None? {
        return None;
      }
      remainder := TrimStart(remainder[keyEnd.value..]);
      if remainder == "" || remainder[0] != ':' {
        return None;
      }
      remainder := TrimStart(remainder[1..]);
      var valueEnd := RawJsonValueEnd(remainder);
      if valueEnd.None? {
        return None;
      }
      if memberKey.value == key {
        return Some(Trim(remainder[..valueEnd.value]));
      }
      remainder := remainder[valueEnd.value..];
      assert NextMember(before).Member? && NextMember(before).rest == remainder;
    }
  }
}
