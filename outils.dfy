/** Small helpers shared by every variant of the retirement engine:
    an optional value, `min` / `max` as Python applies them to amounts and
    counts, and the power `x ** n` used to compound salary growth. */
module Outils {

  /** A value that may be missing (Python's `None`). */
  datatype Option<T> = None | Some(value: T)

  function Min(a: real, b: real): (r: real)
    ensures r <= a && r <= b
    ensures r == a || r == b
  {
    if a <= b then a else b
  }

  function Max(a: real, b: real): (r: real)
    ensures r >= a && r >= b
    ensures r == a || r == b
  {
    if a >= b then a else b
  }

  function MinEntier(a: int, b: int): (r: int)
    ensures r <= a && r <= b
    ensures r == a || r == b
  {
    if a <= b then a else b
  }

  function MaxEntier(a: int, b: int): (r: int)
    ensures r >= a && r >= b
    ensures r == a || r == b
  {
    if a >= b then a else b
  }

  /** `x ** n` for a natural exponent; a positive base gives a positive power. */
  function Pow(x: real, n: nat): (r: real)
    ensures x > 0.0 ==> r > 0.0
  {
    if n == 0 then 1.0 else x * Pow(x, n - 1)
  }

  /** Number of iterations of Python's `range(debut, fin)`. */
  function LongueurIntervalle(debut: int, fin: int): (n: nat)
    ensures debut < fin ==> n == fin - debut
    ensures fin <= debut ==> n == 0
  {
    if debut < fin then fin - debut else 0
  }

  // -----------------------------------------------------------------------
  // Python's `str.strip()`, and `str.lower()` on the characters that occur
  // in the inputs (ASCII and the Latin-1 letters such as `É`).
  // -----------------------------------------------------------------------

  /** The characters `str.strip()` removes: those for which `str.isspace()`
      holds, that is tab to carriage return, the four ASCII separators
      U+001C..U+001F, space, U+0085, U+00A0, U+1680, U+2000..U+200A, the
      line and paragraph separators, U+202F, U+205F and U+3000. */
  predicate EstEspace(c: char) {
    || ('\U{0009}' <= c <= '\U{000D}')
    || ('\U{001C}' <= c <= '\U{0020}')
    || c == '\U{0085}' || c == '\U{00A0}' || c == '\U{1680}'
    || ('\U{2000}' <= c <= '\U{200A}')
    || c == '\U{2028}' || c == '\U{2029}' || c == '\U{202F}' || c == '\U{205F}' || c == '\U{3000}'
  }

  function SansEspacesDebut(s: string): (r: string)
    ensures |r| <= |s| && r == s[|s| - |r|..]
    ensures r == [] || !EstEspace(r[0])
    ensures forall i :: 0 <= i < |s| - |r| ==> EstEspace(s[i])
  {
    if |s| > 0 && EstEspace(s[0]) then SansEspacesDebut(s[1..]) else s
  }

  function SansEspacesFin(s: string): (r: string)
    ensures |r| <= |s| && r == s[..|r|]
    ensures r == [] || !EstEspace(r[|r| - 1])
    ensures forall i :: |r| <= i < |s| ==> EstEspace(s[i])
  {
    if |s| > 0 && EstEspace(s[|s| - 1]) then SansEspacesFin(s[..|s| - 1]) else s
  }

  /** Number of leading whitespace characters of `s`. */
  function NbEspacesDebut(s: string): (k: nat)
    ensures k <= |s|
  {
    |s| - |SansEspacesDebut(s)|
  }

  /** `s.strip()`: the infix of `s` left once the leading and trailing
      whitespace is removed; it neither starts nor ends with whitespace. */
  function Strip(s: string): (r: string)
    ensures r == [] || (!EstEspace(r[0]) && !EstEspace(r[|r| - 1]))
    ensures NbEspacesDebut(s) + |r| <= |s|
    ensures r == s[NbEspacesDebut(s)..NbEspacesDebut(s) + |r|]
    ensures forall i :: 0 <= i < NbEspacesDebut(s) ==> EstEspace(s[i])
    ensures forall i :: NbEspacesDebut(s) + |r| <= i < |s| ==> EstEspace(s[i])
  {
    var d := SansEspacesDebut(s);
    var r := SansEspacesFin(d);
    assert d == s[NbEspacesDebut(s)..];
    r
  }

  /** Lower case of one character: ASCII capitals and the Latin-1 capitals
      `À`..`Þ` (except `×`) move 32 code points up; anything else is kept. */
  function MinusculeCar(c: char): (d: char)
    ensures 'A' <= c <= 'Z' ==> d as int == c as int + 32
    ensures '\U{00C0}' <= c <= '\U{00DE}' && c != '\U{00D7}' ==> d as int == c as int + 32
    ensures !('A' <= c <= 'Z') && !('\U{00C0}' <= c <= '\U{00DE}' && c != '\U{00D7}') ==> d == c
    ensures 'a' <= c <= 'z' ==> d == c
  {
    if 'A' <= c <= 'Z' || ('\U{00C0}' <= c <= '\U{00DE}' && c != '\U{00D7}') then
      (c as int + 32) as char
    else c
  }

  /** `s.lower()`, character by character. */
  function Minuscule(s: string): (r: string)
    ensures |r| == |s|
    ensures forall i :: 0 <= i < |s| ==> r[i] == MinusculeCar(s[i])
  {
    if s == [] then [] else [MinusculeCar(s[0])] + Minuscule(s[1..])
  }

  lemma MinusculeExemple()
    ensures Minuscule("MARIÉ") == "marié"
  {
    var r := Minuscule("MARIÉ");
    assert r[0] == MinusculeCar('M') == 'm';
    assert r[1] == MinusculeCar('A') == 'a';
    assert r[2] == MinusculeCar('R') == 'r';
    assert r[3] == MinusculeCar('I') == 'i';
    assert r[4] == MinusculeCar('É') == 'é';
  }
}
