/**
 * The few `java.lang.String` operations the harness relies on, on `seq<char>`:
 * `startsWith` (Dafny's prefix operator `<=`), `contains`, `replace` of a literal
 * with the empty string, `toUpperCase` and the decimal rendering of an integer.
 */
module Text {
  import opened Wrappers

  /** `s.contains(sub)`: some position of `s` starts with `sub`. */
  predicate Contains(s: string, sub: string)
  {
    exists i :: 0 <= i <= |s| - |sub| && sub <= s[i..]
  }

  /** Where `pat` does not start at the head, `s` contains it iff its tail does. */
  lemma ContainsPastHead(s: string, pat: string)
    requires |s| >= |pat| > 0 && !(pat <= s)
    ensures Contains(s, pat) <==> Contains(s[1..], pat)
  {
    if Contains(s[1..], pat) {
      var i :| 0 <= i <= |s[1..]| - |pat| && pat <= s[1..][i..];
      assert s[1..][i..] == s[i + 1..];
    }
    if Contains(s, pat) {
      var i :| 0 <= i <= |s| - |pat| && pat <= s[i..];
      assert i != 0 by { assert s[0..] == s; }
      assert s[1..][i - 1..] == s[i..];
    }
  }

  /**
   * `s.replace(pat, "")`: scans left to right and drops every occurrence of `pat`
   * that does not overlap one already dropped.
   */
  function RemoveAll(s: string, pat: string): (r: string)
    requires |pat| > 0
    ensures |r| <= |s|
    ensures |s| < |pat| ==> r == s
    decreases |s|
  {
    if |s| < |pat| then s
    else if pat <= s then RemoveAll(s[|pat|..], pat)
    else [s[0]] + RemoveAll(s[1..], pat)
  }

  /** A string in which `pat` does not occur is left as it is. */
  lemma {:induction false} RemoveAllWithoutPattern(s: string, pat: string)
    requires |pat| > 0 && !Contains(s, pat)
    ensures RemoveAll(s, pat) == s
    decreases |s|
  {
    if |s| >= |pat| {
      assert !(pat <= s) by { assert s[0..] == s; }
      ContainsPastHead(s, pat);
      RemoveAllWithoutPattern(s[1..], pat);
    }
  }

  /** A string in which `pat` occurs loses at least one whole occurrence. */
  lemma {:induction false} RemoveAllShrinks(s: string, pat: string)
    requires |pat| > 0 && Contains(s, pat)
    ensures |RemoveAll(s, pat)| <= |s| - |pat|
    decreases |s|
  {
    if !(pat <= s) {
      ContainsPastHead(s, pat);
      RemoveAllShrinks(s[1..], pat);
    }
  }

  /** No occurrence of `pat` starts before position `n` of `s`, checked left to right. */
  predicate NoMatchBefore(s: string, pat: string, n: nat)
    requires n <= |s|
    decreases n
  {
    n == 0 || (!(pat <= s) && NoMatchBefore(s[1..], pat, n - 1))
  }

  /** A prefix in which no occurrence of `pat` starts passes through `RemoveAll` untouched. */
  lemma {:induction false} RemoveAllSkipsPrefix(x: string, y: string, pat: string)
    requires |pat| > 0 && NoMatchBefore(x + y, pat, |x|)
    ensures RemoveAll(x + y, pat) == x + RemoveAll(y, pat)
  {
    if x == [] {
      assert x + y == y;
    } else {
      assert (x + y)[1..] == x[1..] + y;
      RemoveAllSkipsPrefix(x[1..], y, pat);
      RemoveAllPastHead(x, y, pat);
    }
  }

  /** One character of a match-free prefix is kept, given the rest of the prefix is. */
  lemma RemoveAllPastHead(x: string, y: string, pat: string)
    requires |pat| > 0 && x != [] && !(pat <= x + y)
    requires RemoveAll(x[1..] + y, pat) == x[1..] + RemoveAll(y, pat)
    ensures RemoveAll(x + y, pat) == x + RemoveAll(y, pat)
  {
    var s := x + y;
    if |s| < |pat| {
      assert RemoveAll(y, pat) == y;
    } else {
      var rest := RemoveAll(y, pat);
      calc {
        RemoveAll(s, pat);
        { RemoveAllKeepsHead(s, pat); }
        [s[0]] + RemoveAll(s[1..], pat);
        { assert s[0] == x[0] && s[1..] == x[1..] + y; }
        [x[0]] + (x[1..] + rest);
        { assert x == [x[0]] + x[1..]; }
        x + rest;
      }
    }
  }

  /** Where `pat` does not start at the head, the head is kept and the scan goes on. */
  lemma RemoveAllKeepsHead(s: string, pat: string)
    requires |s| >= |pat| > 0 && !(pat <= s)
    ensures RemoveAll(s, pat) == [s[0]] + RemoveAll(s[1..], pat)
  {
  }

  /**
   * One step of the left-to-right scan: the first occurrence of `pat` is dropped and
   * the scan goes on after it.
   */
  lemma RemoveAllStep(x: string, pat: string, y: string)
    requires |pat| > 0 && NoMatchBefore(x + pat + y, pat, |x|)
    ensures RemoveAll(x + pat + y, pat) == x + RemoveAll(y, pat)
  {
    assert x + pat + y == x + (pat + y);
    RemoveAllSkipsPrefix(x, pat + y, pat);
    RemoveAllDropsHead(pat, y);
  }

  /** An occurrence of `pat` at the head is dropped. */
  lemma RemoveAllDropsHead(pat: string, y: string)
    requires |pat| > 0
    ensures RemoveAll(pat + y, pat) == RemoveAll(y, pat)
  {
    assert (pat + y)[0..] == pat + y;
    assert (pat + y)[|pat|..] == y;
  }

  /** Appending `pat` to a string in which no occurrence of `pat` starts is undone by `RemoveAll`. */
  lemma RemoveAllOfAppended(x: string, pat: string)
    requires |pat| > 0 && NoMatchBefore(x + pat, pat, |x|)
    ensures RemoveAll(x + pat, pat) == x
  {
    assert x + pat + [] == x + pat;
    RemoveAllStep(x, pat, []);
  }

  /** `c.toUpperCase()` for the ASCII letters; every other character is kept. */
  function UpperChar(c: char): char
  {
    if 'a' <= c <= 'z' then (c as int - 'a' as int + 'A' as int) as char else c
  }

  predicate IsLowerAscii(c: char)
  {
    'a' <= c <= 'z'
  }

  /** `s.toUpperCase()`, restricted to ASCII letters. */
  function ToUpper(s: string): (r: string)
    ensures |r| == |s|
    ensures forall i :: 0 <= i < |r| ==> !IsLowerAscii(r[i])
    ensures forall i :: 0 <= i < |s| && !IsLowerAscii(s[i]) ==> r[i] == s[i]
    ensures forall i :: 0 <= i < |s| && IsLowerAscii(s[i]) ==> r[i] as int == s[i] as int - 32
  {
    seq(|s|, i requires 0 <= i < |s| => UpperChar(s[i]))
  }

  /** Upper-casing twice is upper-casing once. */
  lemma ToUpperIdempotent(s: string)
    ensures ToUpper(ToUpper(s)) == ToUpper(s)
  {
  }

  predicate IsDigit(c: char)
  {
    '0' <= c <= '9'
  }

  predicate AllDigits(s: string)
  {
    forall i :: 0 <= i < |s| ==> IsDigit(s[i])
  }

  function DigitChar(d: int): (c: char)
    requires 0 <= d < 10
    ensures IsDigit(c)
  {
    ('0' as int + d) as char
  }

  /** The decimal digits of `n`, most significant first, with no leading zero. */
  function Digits(n: nat): (s: string)
    ensures |s| > 0 && AllDigits(s)
    ensures |s| > 1 ==> s[0] != '0'
    ensures s[0] == '0' <==> n == 0
    decreases n
  {
    if n < 10 then [DigitChar(n)] else Digits(n / 10) + [DigitChar(n % 10)]
  }

  /** The number a string of decimal digits denotes: the reference reading of `Digits`. */
  function DigitsValue(s: string): nat
    requires AllDigits(s)
  {
    if s == [] then 0 else DigitsValue(s[..|s| - 1]) * 10 + (s[|s| - 1] as int - '0' as int)
  }

  lemma {:induction false} DigitsRoundTrip(n: nat)
    ensures DigitsValue(Digits(n)) == n
  {
    if n >= 10 {
      var s := Digits(n);
      assert s[..|s| - 1] == Digits(n / 10);
      DigitsRoundTrip(n / 10);
    }
  }

  /** How Java renders an integer in a string concatenation. */
  function DecimalString(n: int): (r: string)
    ensures ParseDecimal(r) == Some(n)
    ensures |r| > 0 && (r[0] == '-' <==> n < 0)
    ensures r[0] != '-' && |r| > 1 ==> r[0] != '0'
    ensures r[0] == '-' ==> |r| > 1 && r[1] != '0'
  {
    if n < 0 then
      DigitsRoundTrip(-n);
      assert ("-" + Digits(-n))[1..] == Digits(-n);
      "-" + Digits(-n)
    else
      DigitsRoundTrip(n);
      Digits(n)
  }

  /** Reads back an optionally negative decimal numeral. */
  function ParseDecimal(s: string): Option<int>
  {
    if |s| > 1 && s[0] == '-' && AllDigits(s[1..]) then Some(-(DigitsValue(s[1..]) as int))
    else if |s| > 0 && AllDigits(s) then Some(DigitsValue(s))
    else None
  }
}
