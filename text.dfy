/**
 * The string operations the application relies on: JavaScript's
 * `toLowerCase` and `includes`, Python's `startswith` and `split(' ', 1)`,
 * decimal rendering of an integer inside a template literal, and
 * JavaScript's `Number` applied to a decimal string.
 */
module Text {
  import opened Wrappers

  /** Truthiness of a string that may be missing, the same in JavaScript and Python: present and non-empty. */
  predicate Truthy(s: Option<string>) {
    s.Some? && s.value != ""
  }

  /** An upper-case letter that `toLowerCase` maps: ASCII A-Z and the Latin-1 capitals U+00C0..U+00DE except U+00D7. */
  predicate IsUpper(c: char) {
    ('A' <= c <= 'Z') || (0xC0 <= c as int <= 0xDE && c as int != 0xD7)
  }

  function LowerChar(c: char): (d: char)
    ensures !IsUpper(d)
    ensures IsUpper(c) ==> d as int == c as int + 32
    ensures !IsUpper(c) ==> d == c
  {
    if IsUpper(c) then (c as int + 32) as char else c
  }

  /** `String.prototype.toLowerCase`, character by character. */
  function Lower(s: string): (r: string)
    ensures |r| == |s|
    ensures forall i :: 0 <= i < |s| ==> r[i] == LowerChar(s[i])
  {
    if s == [] then [] else [LowerChar(s[0])] + Lower(s[1..])
  }

  lemma {:induction false} LowerIdempotent(s: string)
    ensures Lower(Lower(s)) == Lower(s)
  {
    var l := Lower(s);
    assert forall i :: 0 <= i < |l| ==> Lower(l)[i] == l[i];
  }

  /** `t` occurs in `s` starting at index `i`. */
  predicate InfixAt(s: string, t: string, i: int) {
    0 <= i && i + |t| <= |s| && s[i..i + |t|] == t
  }

  /** `String.prototype.includes`: `t` occurs somewhere in `s`. */
  predicate Contains(s: string, t: string)
    decreases |s|
  {
    |t| <= |s| && (s[..|t|] == t || (|s| > 0 && Contains(s[1..], t)))
  }

  /** An occurrence in the tail is an occurrence in the whole string, one index later. */
  lemma InfixAtTail(s: string, t: string, i: int)
    requires |s| > 0 && 0 <= i
    ensures InfixAt(s[1..], t, i) <==> InfixAt(s, t, i + 1)
  {
    if i + |t| <= |s| - 1 {
      var a, b := s[1..][i..i + |t|], s[i + 1..i + 1 + |t|];
      assert forall k :: 0 <= k < |t| ==> a[k] == b[k];
    }
  }

  lemma {:induction false} ContainsIff(s: string, t: string)
    ensures Contains(s, t) <==> exists i :: InfixAt(s, t, i)
    decreases |s|
  {
    if |t| <= |s| && s[..|t|] != t && |s| > 0 {
      ContainsIff(s[1..], t);
      if Contains(s[1..], t) {
        var i :| InfixAt(s[1..], t, i);
        InfixAtTail(s, t, i);
      }
      if i :| InfixAt(s, t, i) {
        assert i != 0;
        InfixAtTail(s, t, i - 1);
      }
    } else if |t| <= |s| && s[..|t|] == t {
      assert InfixAt(s, t, 0);
    }
  }

  /** A string that includes a non-empty `t` holds the first character of `t`. */
  lemma ContainsFirstChar(s: string, t: string)
    requires |t| > 0 && Contains(s, t)
    ensures t[0] in s
  {
    ContainsIff(s, t);
    var i :| InfixAt(s, t, i);
    assert s[i] == s[i..i + |t|][0];
  }

  /** Every string includes the empty string. */
  lemma ContainsEmpty(s: string)
    ensures Contains(s, "")
  {
  }

  /** Python's `str.startswith`. */
  predicate StartsWith(s: string, prefix: string) {
    |prefix| <= |s| && s[..|prefix|] == prefix
  }

  /** Python's `s.split(sep, 1)[1]`: the text after the first `sep`, or None when `s` has none (the index raises). */
  function AfterFirst(s: string, sep: char): (r: Option<string>)
    ensures r.None? <==> sep !in s
    ensures r.Some? ==> exists k :: 0 <= k < |s| && s[k] == sep && sep !in s[..k] && r.value == s[k + 1..]
  {
    if s == [] then None
    else if s[0] == sep then Some(s[1..])
    else
      var rest := AfterFirst(s[1..], sep);
      if rest.Some? then
        ghost var k :| 0 <= k < |s[1..]| && s[1..][k] == sep && sep !in s[1..][..k] && rest.value == s[1..][k + 1..];
        assert s[..k + 1] == [s[0]] + s[1..][..k];
        assert s[k + 2..] == s[1..][k + 1..];
        rest
      else
        assert s == [s[0]] + s[1..];
        rest
  }

  /** Splitting once at a separator that does not occur in the prefix gives the rest. */
  lemma AfterFirstOfPrefix(p: string, sep: char, rest: string)
    requires |p| > 0 && p[|p| - 1] == sep && sep !in p[..|p| - 1]
    ensures AfterFirst(p + rest, sep) == Some(rest)
  {
    var s := p + rest;
    var k := |p| - 1;
    assert s[k] == sep && s[..k] == p[..k] && s[k + 1..] == rest;
    var r := AfterFirst(s, sep);
    var k' :| 0 <= k' < |s| && s[k'] == sep && sep !in s[..k'] && r.value == s[k' + 1..];
  }

  predicate IsDigit(c: char) {
    '0' <= c <= '9'
  }

  predicate AllDigits(s: string) {
    forall i :: 0 <= i < |s| ==> IsDigit(s[i])
  }

  function DigitChar(d: nat): char
    requires d < 10
  {
    ('0' as int + d) as char
  }

  /** Decimal rendering of a natural number, as `${n}` produces it. */
  function ShowNat(n: nat): (s: string)
    ensures |s| >= 1 && AllDigits(s)
    ensures n >= 10 ==> s[0] != '0'
    decreases n
  {
    if n < 10 then [DigitChar(n)] else ShowNat(n / 10) + [DigitChar(n % 10)]
  }

  /** The value of a string of decimal digits, most significant first. */
  function DigitsValue(s: string): nat
    requires AllDigits(s)
  {
    if s == [] then 0 else DigitsValue(s[..|s| - 1]) * 10 + (s[|s| - 1] as int - '0' as int)
  }

  /**
   * JavaScript's `Number(s)` restricted to decimal-digit strings: the empty
   * string is 0, an all-digit string is its value, anything else is NaN (None).
   */
  function ParseDecimal(s: string): (r: Option<nat>)
    ensures r.Some? <==> AllDigits(s)
    ensures s == "" ==> r == Some(0)
  {
    if AllDigits(s) then Some(DigitsValue(s)) else None
  }

  lemma {:induction false} ParseShowRoundTrip(n: nat)
    ensures ParseDecimal(ShowNat(n)) == Some(n)
    decreases n
  {
    var s := ShowNat(n);
    if n < 10 {
      assert s[..0] == [];
      assert DigitsValue(s) == s[0] as int - '0' as int == n;
    } else {
      ParseShowRoundTrip(n / 10);
      assert s[..|s| - 1] == ShowNat(n / 10);
      assert s[|s| - 1] as int - '0' as int == n % 10;
      assert DigitsValue(s) == DigitsValue(ShowNat(n / 10)) * 10 + n % 10;
    }
  }
}
