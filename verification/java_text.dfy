/**
 * The few `java.lang.String` and `Integer` operations the client relies on:
 * `trim()`, `isEmpty()`, `equalsIgnoreCase`, `endsWith`, string concatenation
 * of a possibly-null reference and `Integer.toString`.
 */
module JavaText {
  import opened Wrappers

  /** `trim()` removes every character whose code is at most U+0020. */
  predicate IsTrimmed(c: char) {
    c <= ' '
  }

  function TrimStart(s: string): string
  {
    if s != [] && IsTrimmed(s[0]) then TrimStart(s[1..]) else s
  }

  function TrimEnd(s: string): string
  {
    if s != [] && IsTrimmed(s[|s| - 1]) then TrimEnd(s[..|s| - 1]) else s
  }

  /** `s.trim()`. */
  function Trim(s: string): (r: string)
  {
    TrimEnd(TrimStart(s))
  }

  /** Trimming the start keeps a suffix that does not start with a trimmed character, and cuts only trimmed ones. */
  lemma {:induction false} TrimStartFacts(s: string)
    ensures var r := TrimStart(s);
      |r| <= |s| && r == s[|s| - |r|..]
      && (r == [] || !IsTrimmed(r[0]))
      && forall i :: 0 <= i < |s| - |r| ==> IsTrimmed(s[i])
  {
    if s != [] && IsTrimmed(s[0]) {
      var r := TrimStart(s[1..]);
      TrimStartFacts(s[1..]);
      assert TrimStart(s) == r;
      assert s[1..][|s| - 1 - |r|..] == s[|s| - |r|..];
      forall i | 0 <= i < |s| - |r|
        ensures IsTrimmed(s[i])
      {
        if i > 0 {
          assert s[i] == s[1..][i - 1];
        }
      }
    }
  }

  /** Trimming the end keeps a prefix that does not end with a trimmed character, and cuts only trimmed ones. */
  lemma {:induction false} TrimEndFacts(s: string)
    ensures var r := TrimEnd(s);
      |r| <= |s| && r == s[..|r|]
      && (r == [] || !IsTrimmed(r[|r| - 1]))
      && forall i :: |r| <= i < |s| ==> IsTrimmed(s[i])
  {
    if s != [] && IsTrimmed(s[|s| - 1]) {
      var p := s[..|s| - 1];
      var r := TrimEnd(p);
      TrimEndFacts(p);
      assert TrimEnd(s) == r;
      assert p[..|r|] == s[..|r|];
      forall i | |r| <= i < |s|
        ensures IsTrimmed(s[i])
      {
        if i < |s| - 1 {
          assert s[i] == p[i];
        }
      }
    }
  }

  /**
   * What `trim()` returns is the slice of `s` that neither starts nor ends
   * with a character at most U+0020; everything cut away is such a character.
   */
  lemma TrimIsSlice(s: string)
    ensures exists a, b ::
              (0 <= a <= b <= |s| && Trim(s) == s[a..b]
               && (forall i :: 0 <= i < a ==> IsTrimmed(s[i]))
               && (forall i :: b <= i < |s| ==> IsTrimmed(s[i])))
    ensures var r := Trim(s); r == [] || (!IsTrimmed(r[0]) && !IsTrimmed(r[|r| - 1]))
  {
    var t := TrimStart(s);
    TrimStartFacts(s);
    var r := TrimEnd(t);
    TrimEndFacts(t);
    assert r == s[|s| - |t|..|s| - |t| + |r|];
  }

  /** `s.trim().isEmpty()`. */
  predicate IsBlank(s: string) {
    Trim(s) == []
  }

  /** A string is blank exactly when every one of its characters is at most U+0020. */
  lemma {:induction false} BlankIffAllTrimmed(s: string)
    ensures IsBlank(s) <==> forall i :: 0 <= i < |s| ==> IsTrimmed(s[i])
  {
    if forall i :: 0 <= i < |s| ==> IsTrimmed(s[i]) {
      AllTrimmedStart(s);
    } else {
      var k :| 0 <= k < |s| && !IsTrimmed(s[k]);
      KeptByTrim(s, k);
    }
  }

  /** A character above U+0020 survives `trim()`. */
  lemma KeptByTrim(s: string, k: nat)
    requires k < |s| && !IsTrimmed(s[k])
    ensures Trim(s) != []
  {
    var t := TrimStart(s);
    TrimStartFacts(s);
    TrimEndFacts(t);
    var cut := |s| - |t|;
    assert cut <= k;
    assert t[k - cut] == s[k];
    var r := TrimEnd(t);
    assert k - cut < |r|;
  }

  lemma {:induction false} AllTrimmedStart(s: string)
    requires forall i :: 0 <= i < |s| ==> IsTrimmed(s[i])
    ensures TrimStart(s) == []
  {
    if s != [] {
      AllTrimmedStart(s[1..]);
    }
  }

  /** `Character.toLowerCase` restricted to ASCII letters. */
  function AsciiLower(c: char): (r: char)
    ensures 'A' <= c <= 'Z' ==> r != c && 'a' <= r <= 'z'
    ensures !('A' <= c <= 'Z') ==> r == c
  {
    if 'A' <= c <= 'Z' then (c as int + 32) as char else c
  }

  function LowerAscii(s: string): (r: string)
    ensures |r| == |s|
    ensures forall i :: 0 <= i < |s| ==> r[i] == AsciiLower(s[i])
  {
    seq(|s|, i requires 0 <= i < |s| => AsciiLower(s[i]))
  }

  /**
   * `a.equalsIgnoreCase(b)` with `a` a literal: false on `null`, otherwise
   * the same length and the same characters once ASCII letters are folded.
   */
  predicate EqualsIgnoreCase(a: string, b: Option<string>) {
    b.Some? && LowerAscii(a) == LowerAscii(b.value)
  }

  /** `Character.toUpperCase` restricted to ASCII letters. */
  function AsciiUpper(c: char): (r: char)
    ensures 'a' <= c <= 'z' ==> 'A' <= r <= 'Z' && AsciiLower(r) == c
    ensures !('a' <= c <= 'z') ==> r == c
  {
    if 'a' <= c <= 'z' then (c as int - 32) as char else c
  }

  /**
   * Against a literal with no upper-case letter, `equalsIgnoreCase` accepts
   * exactly the strings of the same length that spell it out letter by
   * letter, each letter in either case.
   */
  lemma EqualsIgnoreCaseLetters(a: string, s: string)
    requires forall i :: 0 <= i < |a| ==> !('A' <= a[i] <= 'Z')
    ensures EqualsIgnoreCase(a, Some(s)) <==>
      |s| == |a| && forall i :: 0 <= i < |s| ==> s[i] == a[i] || s[i] == AsciiUpper(a[i])
  {
    assert LowerAscii(a) == a;
    if EqualsIgnoreCase(a, Some(s)) {
      forall i | 0 <= i < |s|
        ensures s[i] == a[i] || s[i] == AsciiUpper(a[i])
      {
        assert AsciiLower(s[i]) == LowerAscii(s)[i] == a[i];
      }
    }
    if |s| == |a| && forall i :: 0 <= i < |s| ==> s[i] == a[i] || s[i] == AsciiUpper(a[i]) {
      forall i | 0 <= i < |s|
        ensures LowerAscii(s)[i] == a[i]
      {
        assert LowerAscii(s)[i] == AsciiLower(s[i]);
      }
      assert LowerAscii(s) == a;
    }
  }

  /** `s.endsWith(suffix)`. */
  predicate EndsWith(s: string, suffix: string) {
    |suffix| <= |s| && s[|s| - |suffix|..] == suffix
  }

  /** `"" + x` for a reference `x`: a `null` reference is written `null`. */
  function NullText(x: Option<string>): (r: string)
    ensures x.Some? ==> r == x.value
    ensures x.None? ==> r == "null"
  {
    match x
    case Some(s) => s
    case None => "null"
  }

  /** A text built as `head + middle + tail` starts with `head`, ends with `tail`, and has `middle` in between. */
  lemma Framed(head: string, middle: string, tail: string)
    ensures var t := head + middle + tail;
      |head| <= |t| && t[..|head|] == head && EndsWith(t, tail)
      && t[|head|..|head| + |middle|] == middle
  {
    var t := head + middle + tail;
    assert t[..|head|] == head;
    assert t[|t| - |tail|..] == tail;
    assert t[|head|..|head| + |middle|] == middle;
  }

  /** `String.valueOf(boolean)`. */
  function BoolText(b: bool): (r: string)
    ensures r == "true" || r == "false"
    ensures b <==> r == "true"
  {
    if b then "true" else "false"
  }

  predicate IsDigit(c: char) {
    '0' <= c <= '9'
  }

  function Digit(d: nat): (c: char)
    requires d < 10
    ensures IsDigit(c)
  {
    ('0' as int + d) as char
  }

  function DigitValue(c: char): nat
    requires IsDigit(c)
  {
    c as int - '0' as int
  }

  /** Decimal digits of a natural number, most significant first, no leading zero. */
  function NatText(n: nat): (r: string)
    ensures r != []
    ensures forall i :: 0 <= i < |r| ==> IsDigit(r[i])
    ensures |r| > 1 ==> r[0] != '0'
  {
    if n < 10 then [Digit(n)] else NatText(n / 10) + [Digit(n % 10)]
  }

  /** `Integer.toString(n)`: a minus sign for negative numbers, then the digits. */
  function DecimalText(n: int): (r: string)
    ensures r != []
    ensures n < 0 <==> r[0] == '-'
  {
    if n < 0 then "-" + NatText(-n) else NatText(n)
  }

  function ParseNat(s: string): nat
    requires forall i :: 0 <= i < |s| ==> IsDigit(s[i])
  {
    if s == [] then 0 else ParseNat(s[..|s| - 1]) * 10 + DigitValue(s[|s| - 1])
  }

  /** Reading decimal text back: the partner of `DecimalText`. */
  function ParseDecimal(s: string): int
    requires s != []
    requires s[0] == '-' ==> |s| > 1
    requires forall i :: 0 <= i < |s| ==> IsDigit(s[i]) || (i == 0 && s[i] == '-')
  {
    if s[0] == '-' then 0 - ParseNat(s[1..]) as int else ParseNat(s)
  }

  lemma {:induction false} ParseNatText(n: nat)
    ensures ParseNat(NatText(n)) == n
  {
    if n >= 10 {
      var t := NatText(n);
      assert t[..|t| - 1] == NatText(n / 10);
      ParseNatText(n / 10);
    }
  }

  /** `Integer.toString` loses nothing: its text reads back as the same number. */
  lemma DecimalRoundTrip(n: int)
    ensures var t := DecimalText(n);
      (t[0] == '-' ==> |t| > 1)
      && (forall i :: 0 <= i < |t| ==> IsDigit(t[i]) || (i == 0 && t[i] == '-'))
      && ParseDecimal(t) == n
  {
    if n < 0 {
      ParseNatText(-n);
      assert DecimalText(n)[1..] == NatText(-n);
    } else {
      ParseNatText(n);
    }
  }

  /** Hence two different numbers never print alike. */
  lemma DecimalTextInjective(m: int, n: int)
    requires DecimalText(m) == DecimalText(n)
    ensures m == n
  {
    DecimalRoundTrip(m);
    DecimalRoundTrip(n);
  }
}
