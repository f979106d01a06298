/** The strings of section 7 of RFC 8259 on numeric codes: how each character may be written,
    and what it stands for. */
module JsonString {

  /** One character between the quotation marks: as it is, as an escape of one letter, or as
      \u with four hexadecimal digits. */
  datatype Piece = Plain(code: int) | Letter(letter: int) | Hex(digits: seq<int>)

  /** Quotation mark, reverse solidus, solidus, b, f, n, r, t. */
  const LETTERS: map<int, int> := map[34 := 34, 92 := 92, 47 := 47, 98 := 8, 102 := 12, 110 := 10, 114 := 13, 116 := 9]

  predicate IsHexDigit(c: int) { 48 <= c <= 57 || 65 <= c <= 70 || 97 <= c <= 102 }

  function DigitValue(c: int): (v: int)
    requires IsHexDigit(c)
    ensures 0 <= v < 16
  {
    if c <= 57 then c - 48 else if c <= 70 then c - 55 else c - 87
  }

  predicate Fits(p: Piece) {
    match p
    case Plain(code) => 0x20 <= code <= 0x10FFFF && code != 34 && code != 92
    case Letter(letter) => letter in LETTERS
    case Hex(digits) => |digits| == 4 && forall i :: 0 <= i < 4 ==> IsHexDigit(digits[i])
  }

  function Shown(p: Piece): (t: seq<int>)
    ensures t != []
  {
    match p
    case Plain(code) => [code]
    case Letter(letter) => [92, letter]
    case Hex(digits) => [92, 117] + digits
  }

  function Meant(p: Piece): int
    requires Fits(p)
  {
    match p
    case Plain(code) => code
    case Letter(letter) => LETTERS[letter]
    case Hex(digits) =>
      0x1000 * DigitValue(digits[0]) + 0x100 * DigitValue(digits[1])
      + 0x10 * DigitValue(digits[2]) + DigitValue(digits[3])
  }

  predicate AllFit(ps: seq<Piece>) { forall i :: 0 <= i < |ps| ==> Fits(ps[i]) }

  function Spelled(ps: seq<Piece>): seq<int> {
    if ps == [] then [] else Shown(ps[0]) + Spelled(ps[1..])
  }

  function Meaning(ps: seq<Piece>): (m: seq<int>)
    requires AllFit(ps)
    ensures |m| == |ps| && forall i :: 0 <= i < |ps| ==> m[i] == Meant(ps[i])
  {
    if ps == [] then [] else [Meant(ps[0])] + Meaning(ps[1..])
  }
}
