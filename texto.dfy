/** Python's `str.strip()` (no argument), which main.py uses to reject blank product names. */
module Texto {

  /** Python's `str.isspace()` on a single character: the characters whose Unicode
      bidirectional class is WS, B or S, or whose general category is Zs. */
  predicate EspacoEmBranco(c: char) {
    var n := c as int;
    || (0x09 <= n <= 0x0D)
    || (0x1C <= n <= 0x20)
    || n == 0x85
    || n == 0xA0
    || n == 0x1680
    || (0x2000 <= n <= 0x200A)
    || n == 0x2028
    || n == 0x2029
    || n == 0x202F
    || n == 0x205F
    || n == 0x3000
  }

  /** Every character of `s` is whitespace (true of the empty string). */
  predicate SoEspacos(s: string) {
    forall i | 0 <= i < |s| :: EspacoEmBranco(s[i])
  }

  /** `s.lstrip()`: the suffix of `s` left after dropping its leading whitespace. */
  function LStrip(s: string): (r: string)
    ensures |r| <= |s| && r == s[|s| - |r|..]
    ensures forall i | 0 <= i < |s| - |r| :: EspacoEmBranco(s[i])
    ensures r != [] ==> !EspacoEmBranco(r[0])
  {
    if s != [] && EspacoEmBranco(s[0]) then LStrip(s[1..]) else s
  }

  /** `s.rstrip()`: the prefix of `s` left after dropping its trailing whitespace. */
  function RStrip(s: string): (r: string)
    ensures |r| <= |s| && r == s[..|r|]
    ensures forall i | |r| <= i < |s| :: EspacoEmBranco(s[i])
    ensures r != [] ==> !EspacoEmBranco(r[|r| - 1])
  {
    if s != [] && EspacoEmBranco(s[|s| - 1]) then RStrip(s[..|s| - 1]) else s
  }

  /** `r` is `s` with some whitespace cut from its start and some from its end. */
  ghost predicate Aparado(s: string, r: string) {
    exists i | 0 <= i <= |s| - |r| ::
      r == s[i..i + |r|] && SoEspacos(s[..i]) && SoEspacos(s[i + |r|..])
  }

  /** `s.strip()`: `s` without its leading and trailing whitespace; what is left neither
      starts nor ends with whitespace. */
  function Strip(s: string): (r: string)
    ensures |r| <= |s|
    ensures Aparado(s, r)
    ensures r != [] ==> !EspacoEmBranco(r[0]) && !EspacoEmBranco(r[|r| - 1])
  {
    var m := LStrip(s);
    var r := RStrip(m);
    CorteInicial(s);
    CorteFinal(m);
    Composicao(s, m, r);
    r
  }

  /** Cutting whitespace from the start of `s` and then from the end of what is left
      cuts whitespace from both ends of `s`. */
  lemma Composicao(s: string, m: string, r: string)
    requires |m| <= |s| && m == s[|s| - |m|..] && SoEspacos(s[..|s| - |m|])
    requires |r| <= |m| && r == m[..|r|] && SoEspacos(m[|r|..])
    ensures Aparado(s, r)
  {
    var i := |s| - |m|;
    assert s[i + |r|..] == m[|r|..];
    assert r == s[i..i + |r|];
  }

  /** What `lstrip` cuts off is whitespace only. */
  lemma CorteInicial(s: string)
    ensures SoEspacos(s[..|s| - |LStrip(s)|])
  {
  }

  /** What `rstrip` cuts off is whitespace only. */
  lemma CorteFinal(s: string)
    ensures SoEspacos(s[|RStrip(s)|..])
  {
  }

  /** `not s.strip()` holds exactly when `s` is empty or made of whitespace only. */
  lemma StripVazioSse(s: string)
    ensures Strip(s) == [] <==> SoEspacos(s)
  {
    var m := LStrip(s);
    var i := |s| - |m|;
    if m != [] {
      assert m[0] == s[i];
    }
    if !SoEspacos(s) {
      var k :| 0 <= k < |s| && !EspacoEmBranco(s[k]);
      assert m[k - i] == s[k];
    }
  }
}
