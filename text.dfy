/** Decimal rendering and parsing of natural numbers, and comma-separated lists of them
    (JavaScript's `n.toString()`, template-literal interpolation of a number, and `Array.join(',')`). */
module Text {
  import opened Wrappers

  predicate IsDigit(c: char) {
    '0' <= c <= '9'
  }

  function DigitChar(d: nat): (c: char)
    requires d < 10
    ensures IsDigit(c) && (c as int) - ('0' as int) == d
  {
    (('0' as int) + d) as char
  }

  /** The decimal digits of `n`, without leading zeros. */
  function NatToString(n: nat): (s: string)
    ensures |s| >= 1
    ensures forall i :: 0 <= i < |s| ==> IsDigit(s[i])
    ensures s[0] == '0' ==> n == 0
    decreases n
  {
    if n < 10 then [DigitChar(n)] else NatToString(n / 10) + [DigitChar(n % 10)]
  }

  predicate AllDigits(s: string) {
    forall i :: 0 <= i < |s| ==> IsDigit(s[i])
  }

  /** The value of a string of digits, read most significant digit first. */
  function DigitsValue(s: string): nat
    requires AllDigits(s)
  {
    if s == [] then 0 else DigitsValue(s[..|s| - 1]) * 10 + ((s[|s| - 1] as int) - ('0' as int))
  }

  /** Reads a non-empty string of digits back as a number; anything else is rejected. */
  function ParseNat(s: string): (r: Option<nat>)
    ensures r.Some? <==> s != [] && AllDigits(s)
  {
    if s != [] && AllDigits(s) then Some(DigitsValue(s)) else None
  }

  lemma {:induction false} ParseNatToString(n: nat)
    ensures ParseNat(NatToString(n)) == Some(n)
  {
    var s := NatToString(n);
    if n < 10 {
      assert s[..|s| - 1] == [];
      assert DigitsValue(s) == n;
    } else {
      ParseNatToString(n / 10);
      assert s[..|s| - 1] == NatToString(n / 10);
    }
  }

  /** Distinct numbers print differently. */
  lemma NatToStringInjective(a: nat, b: nat)
    requires NatToString(a) == NatToString(b)
    ensures a == b
  {
    ParseNatToString(a);
    ParseNatToString(b);
  }

  /** `ns.join(',')` for numbers. */
  function JoinNats(ns: seq<nat>): (s: string)
    ensures ns == [] <==> s == []
  {
    if ns == [] then ""
    else if |ns| == 1 then NatToString(ns[0])
    else NatToString(ns[0]) + "," + JoinNats(ns[1..])
  }

  /** Index of the first comma of `s`, or `|s|` when there is none. */
  function CommaIndex(s: string): (i: nat)
    ensures i <= |s|
    ensures forall j :: 0 <= j < i ==> s[j] != ','
    ensures i < |s| ==> s[i] == ','
  {
    if s == [] || s[0] == ',' then 0 else 1 + CommaIndex(s[1..])
  }

  /** `s.split(',')`. */
  function SplitOnComma(s: string): (parts: seq<string>)
    ensures |parts| >= 1
    decreases |s|
  {
    var i := CommaIndex(s);
    if i == |s| then [s] else [s[..i]] + SplitOnComma(s[i + 1..])
  }

  /** Reads a comma-separated list of numbers; fails if any part is not a number. */
  function ParseNatList(s: string): Option<seq<nat>>
  {
    ParseParts(SplitOnComma(s))
  }

  function ParseParts(parts: seq<string>): Option<seq<nat>>
  {
    if parts == [] then Some([])
    else
      var first, rest := ParseNat(parts[0]), ParseParts(parts[1..]);
      if first.Some? && rest.Some? then Some([first.value] + rest.value) else None
  }

  lemma SplitAfterDigits(a: string, b: string)
    requires AllDigits(a)
    ensures SplitOnComma(a + "," + b) == [a] + SplitOnComma(b)
  {
    var s := a + "," + b;
    CommaIndexOfDigits(a, b);
    assert s[..|a|] == a;
    assert s[|a| + 1..] == b;
  }

  lemma CommaIndexOfDigits(a: string, b: string)
    requires AllDigits(a)
    ensures CommaIndex(a + "," + b) == |a|
  {
    var s := a + "," + b;
    assert s[|a|] == ',';
    assert forall j :: 0 <= j < |a| ==> s[j] == a[j];
  }

  /** Joining numbers with commas and splitting again gives back the numbers. */
  lemma {:induction false} ParseJoinNats(ns: seq<nat>)
    requires ns != []
    ensures ParseNatList(JoinNats(ns)) == Some(ns)
  {
    var head := NatToString(ns[0]);
    ParseNatToString(ns[0]);
    if |ns| == 1 {
      CommaIndexOfDigitsAlone(head);
      assert SplitOnComma(head) == [head];
      assert [head][1..] == [];
      assert ParseParts([head][1..]) == Some([]);
      assert [ns[0]] + [] == ns;
    } else {
      var tail := JoinNats(ns[1..]);
      ParseJoinNats(ns[1..]);
      SplitAfterDigits(head, tail);
      assert JoinNats(ns) == head + "," + tail;
      var parts := [head] + SplitOnComma(tail);
      assert parts[0] == head && parts[1..] == SplitOnComma(tail);
      assert ParseParts(parts) == Some([ns[0]] + ns[1..]);
      assert ns == [ns[0]] + ns[1..];
    }
  }

  lemma CommaIndexOfDigitsAlone(a: string)
    requires AllDigits(a)
    ensures CommaIndex(a) == |a|
  {
  }

  predicate StartsWith(s: string, prefix: string) {
    |prefix| <= |s| && s[..|prefix|] == prefix
  }

  predicate EndsWith(s: string, suffix: string) {
    |suffix| <= |s| && s[|s| - |suffix|..] == suffix
  }
}
