/** The small pieces of `java.lang.String` behaviour the library relies on:
    case mapping (`toLowerCase`, `toUpperCase`), substring containment
    (`contains`, which the tests use), joining with a separator, and the
    decimal rendering of an `int` (`%d` in `String.format`). Case mapping
    covers the ASCII letters only. `EqualsIgnoreCase` is the reference
    definition of case-insensitive equality that the lemmas about the
    library's lower- and upper-casing are stated against. */
module Strings {
  import opened Wrappers

  // ----- case mapping -------------------------------------------------------

  predicate IsUpper(c: char) { 'A' <= c <= 'Z' }

  predicate IsLower(c: char) { 'a' <= c <= 'z' }

  function LowerChar(c: char): char {
    if IsUpper(c) then (c as int + 32) as char else c
  }

  function UpperChar(c: char): char {
    if IsLower(c) then (c as int - 32) as char else c
  }

  /** Two characters that `equalsIgnoreCase` treats as the same letter,
      stated on code points rather than through either mapping. */
  predicate SameLetter(a: char, b: char) {
    || a == b
    || (IsUpper(a) && b as int == a as int + 32)
    || (IsUpper(b) && a as int == b as int + 32)
  }

  predicate EqualsIgnoreCase(s: string, t: string) {
    |s| == |t| && forall i :: 0 <= i < |s| ==> SameLetter(s[i], t[i])
  }

  function ToLower(s: string): (r: string)
    ensures |r| == |s|
    ensures forall i :: 0 <= i < |r| ==> !IsUpper(r[i]) && SameLetter(r[i], s[i])
  {
    seq(|s|, i requires 0 <= i < |s| => LowerChar(s[i]))
  }

  function ToUpper(s: string): (r: string)
    ensures |r| == |s|
    ensures forall i :: 0 <= i < |r| ==> !IsLower(r[i]) && SameLetter(r[i], s[i])
  {
    seq(|s|, i requires 0 <= i < |s| => UpperChar(s[i]))
  }

  lemma LowerCharSame(a: char, b: char)
    ensures LowerChar(a) == LowerChar(b) <==> SameLetter(a, b)
  {
  }

  lemma UpperCharSame(a: char, b: char)
    ensures UpperChar(a) == UpperChar(b) <==> SameLetter(a, b)
  {
  }

  /** Lower-casing identifies exactly the strings that are equal ignoring
      case: this is what makes a lower-cased comparison case-insensitive. */
  lemma ToLowerSameIff(s: string, t: string)
    ensures ToLower(s) == ToLower(t) <==> EqualsIgnoreCase(s, t)
  {
    if ToLower(s) == ToLower(t) {
      forall i | 0 <= i < |s|
        ensures SameLetter(s[i], t[i])
      {
        assert ToLower(s)[i] == ToLower(t)[i];
        LowerCharSame(s[i], t[i]);
      }
    }
    if EqualsIgnoreCase(s, t) {
      forall i | 0 <= i < |s|
        ensures ToLower(s)[i] == ToLower(t)[i]
      {
        LowerCharSame(s[i], t[i]);
      }
    }
  }

  /** The same for upper-casing. */
  lemma ToUpperSameIff(s: string, t: string)
    ensures ToUpper(s) == ToUpper(t) <==> EqualsIgnoreCase(s, t)
  {
    if ToUpper(s) == ToUpper(t) {
      forall i | 0 <= i < |s|
        ensures SameLetter(s[i], t[i])
      {
        assert ToUpper(s)[i] == ToUpper(t)[i];
        UpperCharSame(s[i], t[i]);
      }
    }
    if EqualsIgnoreCase(s, t) {
      forall i | 0 <= i < |s|
        ensures ToUpper(s)[i] == ToUpper(t)[i]
      {
        UpperCharSame(s[i], t[i]);
      }
    }
  }

  // ----- containment --------------------------------------------------------

  /** `s.contains(t)`: t occurs somewhere in s as a contiguous piece. */
  predicate Contains(s: string, t: string)
    decreases |s|
  {
    t <= s || (|s| > 0 && Contains(s[1..], t))
  }

  lemma {:induction false} ContainsInfix(a: string, t: string, b: string)
    ensures Contains(a + t + b, t)
    decreases |a|
  {
    if |a| == 0 {
      assert a + t + b == t + b;
    } else {
      assert (a + t + b)[1..] == a[1..] + t + b;
      ContainsInfix(a[1..], t, b);
    }
  }

  lemma {:induction false} ContainsExtend(s: string, t: string, u: string)
    requires Contains(s, t)
    ensures Contains(s + u, t)
    decreases |s|
  {
    if t <= s {
      assert t <= s + u;
    } else {
      assert (s + u)[1..] == s[1..] + u;
      ContainsExtend(s[1..], t, u);
    }
  }

  lemma {:induction false} ContainsPrepend(a: string, s: string, t: string)
    requires Contains(s, t)
    ensures Contains(a + s, t)
    decreases |a|
  {
    if |a| > 0 {
      assert (a + s)[1..] == a[1..] + s;
      ContainsPrepend(a[1..], s, t);
    } else {
      assert a + s == s;
    }
  }

  // ----- joining ------------------------------------------------------------

  /** The items with `sep` between consecutive ones, built from the left as
      a loop with a "first" flag builds it. */
  function Join(items: seq<string>, sep: string): string
    decreases |items|
  {
    if |items| == 0 then ""
    else if |items| == 1 then items[0]
    else Join(items[..|items| - 1], sep) + sep + items[|items| - 1]
  }

  lemma Join4(a: string, b: string, c: string, d: string, sep: string)
    ensures Join([a, b, c, d], sep) == a + sep + b + sep + c + sep + d
  {
    assert [a, b, c, d][..3] == [a, b, c];
    assert [a, b, c][..2] == [a, b];
    assert [a, b][..1] == [a];
    assert Join([a, b], sep) == a + sep + b;
    assert Join([a, b, c], sep) == a + sep + b + sep + c;
  }

  /** Every item survives verbatim in the joined string. */
  lemma {:induction false} JoinContains(items: seq<string>, sep: string, k: nat)
    requires k < |items|
    ensures Contains(Join(items, sep), items[k])
    decreases |items|
  {
    var n := |items|;
    if n == 1 {
      ContainsInfix("", items[0], "");
      assert "" + items[0] + "" == items[0];
    } else if k == n - 1 {
      var front := Join(items[..n - 1], sep) + sep;
      ContainsInfix(front, items[k], "");
      assert front + items[k] + "" == Join(items, sep);
    } else {
      var prefix := items[..n - 1];
      JoinContains(prefix, sep, k);
      ContainsExtend(Join(prefix, sep), items[k], sep + items[n - 1]);
      assert Join(prefix, sep) + (sep + items[n - 1]) == Join(items, sep);
    }
  }

  // ----- decimal rendering of integers --------------------------------------

  predicate IsDigit(c: char) { '0' <= c <= '9' }

  predicate AllDigits(s: string) {
    forall i :: 0 <= i < |s| ==> IsDigit(s[i])
  }

  function Digit(d: nat): char
    requires d < 10
  {
    ('0' as int + d) as char
  }

  function DigitValue(c: char): nat
    requires IsDigit(c)
  {
    c as int - '0' as int
  }

  function NatToString(n: nat): (r: string)
    ensures |r| > 0 && AllDigits(r)
    decreases n
  {
    if n < 10 then [Digit(n)] else NatToString(n / 10) + [Digit(n % 10)]
  }

  /** `%d` of an int: an optional minus sign, then the decimal digits. */
  function IntToString(i: int): (r: string)
  {
    if i < 0 then "-" + NatToString(-i) else NatToString(i)
  }

  /** Reads a digit string most significant digit first. */
  function ParseDigits(s: string): nat
    requires AllDigits(s)
    decreases |s|
  {
    if |s| == 0 then 0 else ParseDigits(s[..|s| - 1]) * 10 + DigitValue(s[|s| - 1])
  }

  function ParseInt(s: string): Option<int> {
    if |s| > 1 && s[0] == '-' && AllDigits(s[1..]) then Some(0 - ParseDigits(s[1..]) as int)
    else if |s| > 0 && AllDigits(s) then Some(ParseDigits(s))
    else None
  }

  lemma {:induction false} NatToStringRoundTrip(n: nat)
    ensures ParseDigits(NatToString(n)) == n
    decreases n
  {
    if n >= 10 {
      var s := NatToString(n);
      var front := NatToString(n / 10);
      assert s[..|s| - 1] == front;
      NatToStringRoundTrip(n / 10);
    }
  }

  /** The decimal rendering loses nothing: reading it back gives the number. */
  lemma IntToStringRoundTrip(i: int)
    ensures ParseInt(IntToString(i)) == Some(i)
  {
    if i < 0 {
      var s := IntToString(i);
      assert s[1..] == NatToString(-i);
      NatToStringRoundTrip(-i);
    } else {
      NatToStringRoundTrip(i);
    }
  }
}
