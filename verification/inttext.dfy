/** `int.TryParse(string)`, modelled under the invariant number format
    (the source reads its signs from the current culture): optional white
    space, an optional sign, decimal digits, optional white space, and then
    only NUL characters; the value must fit in a 32-bit `int`. */
module IntText {
  import opened Base

  predicate IsDigit(c: char) {
    '0' <= c <= '9'
  }

  /** The white space `NumberStyles.Integer` allows around a number:
      U+0009 to U+000D and U+0020. */
  predicate IsWhite(c: char) {
    c == ' ' || '\t' <= c <= '\r'
  }

  predicate AllDigits(s: string) {
    forall i :: 0 <= i < |s| ==> IsDigit(s[i])
  }

  function DigitValue(c: char): nat
    requires IsDigit(c)
  {
    c as int - '0' as int
  }

  function DigitChar(d: nat): (c: char)
    requires d < 10
    ensures IsDigit(c) && DigitValue(c) == d
  {
    ('0' as int + d) as char
  }

  /** The value of a run of decimal digits, most significant first. */
  function DigitsValue(s: string): nat
    requires AllDigits(s)
    decreases |s|
  {
    if |s| == 0 then 0 else 10 * DigitsValue(s[..|s| - 1]) + DigitValue(s[|s| - 1])
  }

  /** The length of the longest prefix of `s` whose characters all satisfy `p`. */
  function PrefixLength(s: string, p: char -> bool): (n: nat)
    ensures n <= |s|
    ensures forall i :: 0 <= i < n ==> p(s[i])
    ensures n < |s| ==> !p(s[n])
    decreases |s|
  {
    if |s| == 0 || !p(s[0]) then 0 else 1 + PrefixLength(s[1..], p)
  }

  /** `int.TryParse`: the parsed value, or `None` when the text is not an
      integer or does not fit in 32 bits. */
  function TryParseInt32(s: string): (r: Option<int>)
    ensures r.Some? ==> InInt32(r.value)
    ensures r.Some? ==> exists k :: 0 <= k < |s| && IsDigit(s[k])
  {
    var t := s[PrefixLength(s, IsWhite)..];
    var signed := |t| > 0 && (t[0] == '-' || t[0] == '+');
    var negative := signed && t[0] == '-';
    var u := if signed then t[1..] else t;
    var digits := PrefixLength(u, IsDigit);
    var rest := u[digits..];
    var tail := rest[PrefixLength(rest, IsWhite)..];
    if digits == 0 || exists k :: 0 <= k < |tail| && tail[k] != '\0' then None
    else
      var magnitude: int := DigitsValue(u[..digits]);
      var v: int := if negative then -magnitude else magnitude;
      assert IsDigit(u[0]);
      if InInt32(v) then Some(v) else None
  }

  /** The decimal digits of `n`, without leading zeros. */
  function NatToDigits(n: nat): (s: string)
    ensures 0 < |s| && AllDigits(s)
    ensures DigitsValue(s) == n
    decreases n
  {
    if n < 10 then [DigitChar(n)]
    else
      var init := NatToDigits(n / 10);
      var s := init + [DigitChar(n % 10)];
      assert s[..|s| - 1] == init;
      s
  }

  /** `Int32.ToString()` under the invariant culture. */
  function FormatInt32(i: int): (s: string)
    ensures 0 < |s|
  {
    if i < 0 then "-" + NatToDigits(-i) else NatToDigits(i)
  }

  lemma PrefixLengthOfAll(s: string, p: char -> bool)
    requires forall i :: 0 <= i < |s| ==> p(s[i])
    ensures PrefixLength(s, p) == |s|
  {
  }

  /** Every 32-bit integer, written in decimal, is read back by `TryParseInt32`. */
  lemma {:induction false} ParseFormatRoundTrip(i: int)
    requires InInt32(i)
    ensures TryParseInt32(FormatInt32(i)) == Some(i)
  {
    var s := FormatInt32(i);
    var ds := if i < 0 then NatToDigits(-i) else NatToDigits(i);
    assert !IsWhite(s[0]);
    assert PrefixLength(s, IsWhite) == 0;
    var t := s[PrefixLength(s, IsWhite)..];
    assert t == s;
    var signed := |t| > 0 && (t[0] == '-' || t[0] == '+');
    assert signed <==> i < 0;
    var u := if signed then t[1..] else t;
    assert u == ds;
    PrefixLengthOfAll(u, IsDigit);
    assert u[..PrefixLength(u, IsDigit)] == ds;
    assert u[PrefixLength(u, IsDigit)..] == [];
  }
}
