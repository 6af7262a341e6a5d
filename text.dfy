/** Text helpers shared by the error display and the UUID rendering: decimal
    rendering of naturals (with its parser) and ASCII case mapping. */
module Text {

  function DigitChar(d: nat): (c: char)
    requires d < 10
    ensures '0' <= c <= '9'
    ensures (c as int) - ('0' as int) == d
  {
    (('0' as int) + d) as char
  }

  predicate IsDigit(c: char) { '0' <= c <= '9' }

  /** Decimal rendering of a natural, as `format!("{}", n)`: no leading zeros. */
  function NatToString(n: nat): (s: string)
    ensures |s| >= 1
    ensures forall i :: 0 <= i < |s| ==> IsDigit(s[i])
    ensures |s| > 1 ==> s[0] != '0'
    decreases n
  {
    if n < 10 then [DigitChar(n)] else NatToString(n / 10) + [DigitChar(n % 10)]
  }

  /** The value of a string of decimal digits, most significant first. */
  function ParseDecimal(s: string): nat
    requires forall i :: 0 <= i < |s| ==> IsDigit(s[i])
  {
    if s == [] then 0
    else
      assert IsDigit(s[|s| - 1]);
      10 * ParseDecimal(s[..|s| - 1]) + ((s[|s| - 1] as int) - ('0' as int))
  }

  /** Rendering a natural in decimal loses nothing: parsing gives it back. */
  lemma {:induction false} ParseNatToString(n: nat)
    ensures ParseDecimal(NatToString(n)) == n
    decreases n
  {
    var s := NatToString(n);
    if n >= 10 {
      ParseNatToString(n / 10);
      assert s[..|s| - 1] == NatToString(n / 10);
    }
  }

  /** Two naturals render alike only when they are equal. */
  lemma NatToStringInjective(m: nat, n: nat)
    ensures NatToString(m) == NatToString(n) ==> m == n
  {
    if NatToString(m) == NatToString(n) {
      ParseNatToString(m);
      ParseNatToString(n);
    }
  }

  predicate IsAsciiUpper(c: char) { 'A' <= c <= 'Z' }
  predicate IsAsciiLower(c: char) { 'a' <= c <= 'z' }

  /** `char::to_ascii_lowercase`: only A-Z change. */
  function AsciiLower(c: char): (r: char)
    ensures IsAsciiUpper(c) ==> IsAsciiLower(r) && (r as int) == (c as int) + 32
    ensures !IsAsciiUpper(c) ==> r == c
    ensures !IsAsciiUpper(r)
  {
    if IsAsciiUpper(c) then ((c as int) + 32) as char else c
  }

  /** `char::to_ascii_uppercase`: only a-z change. */
  function AsciiUpper(c: char): (r: char)
    ensures IsAsciiLower(c) ==> IsAsciiUpper(r) && (r as int) + 32 == (c as int)
    ensures !IsAsciiLower(c) ==> r == c
    ensures !IsAsciiLower(r)
  {
    if IsAsciiLower(c) then ((c as int) - 32) as char else c
  }

  /** `str::to_uppercase`, for the ASCII domain names the crate uses. */
  function ToUpper(s: string): (r: string)
    ensures |r| == |s|
    ensures forall i :: 0 <= i < |s| ==> r[i] == AsciiUpper(s[i])
  {
    if s == [] then [] else ToUpper(s[..|s| - 1]) + [AsciiUpper(s[|s| - 1])]
  }

  /** `t` occurs in `s` at offset `k`. */
  predicate OccursAt(t: string, s: string, k: nat)
  {
    k + |t| <= |s| && s[k..k + |t|] == t
  }

  /** Where each of six concatenated pieces sits. */
  lemma SixPieces(p: string, q: string, r: string, s: string, t: string, u: string)
    ensures var d := p + q + r + s + t + u;
      var i, j, k, l := |p|, |p| + |q|, |p| + |q| + |r|, |p| + |q| + |r| + |s|;
      && d[..i] == p
      && d[i..j] == q
      && d[j..k] == r
      && d[k..l] == s
      && d[l..l + |t|] == t
      && d[l + |t|..] == u
  {
    var d := p + q + r + s + t + u;
    var i, j, k, l := |p|, |p| + |q|, |p| + |q| + |r|, |p| + |q| + |r| + |s|;
    Split(p + q + r + s + t, u);
    Split(p + q + r + s, t);
    Split(p + q + r, s);
    Split(p + q, r);
    Split(p, q);
    assert d[..l + |t|] == p + q + r + s + t;
    assert d[l..l + |t|] == d[..l + |t|][l..];
    assert d[..l] == d[..l + |t|][..l];
    assert d[k..l] == d[..l][k..];
    assert d[..k] == d[..l][..k];
    assert d[j..k] == d[..k][j..];
    assert d[..j] == d[..k][..j];
    assert d[i..j] == d[..j][i..];
    assert d[..i] == d[..j][..i];
  }

  /** `a + b` splits back into `a` and `b`. */
  lemma Split(a: string, b: string)
    ensures (a + b)[..|a|] == a && (a + b)[|a|..] == b
  {
  }

  /** `t` occurs in `a + t + b` right after `a`. */
  lemma OccursBetween(a: string, t: string, b: string)
    ensures OccursAt(t, a + t + b, |a|)
  {
    assert (a + t + b)[|a|..|a| + |t|] == t;
  }
}
