/**
 * The pieces of PHP's runtime semantics that the command layer relies on:
 * truthiness and empty() of strings, trim(), explode() / implode() and the
 * (int) cast of a string.
 */
module Php {
  import opened Wrappers

  /** empty() on a string: true for "" and also for "0". */
  predicate IsEmpty(s: string) {
    s == "" || s == "0"
  }

  /** Truthiness of a command-line option value; an absent option (null) is falsy. */
  predicate Truthy(o: Option<string>) {
    o.Some? && !IsEmpty(o.value)
  }

  // ---------------------------------------------------------------------------
  // trim()

  /** The characters trim() strips by default: space, \t, \n, \r, NUL and vertical tab. */
  predicate IsTrimmable(c: char) {
    c == ' ' || c == '\t' || c == '\n' || c == '\r' || c == '\0' || c == '\U{000B}'
  }

  /** ltrim(): the input less its leading run of strippable characters. */
  function TrimStart(s: string): (r: string)
    ensures |r| <= |s| && r == s[|s| - |r|..]
    ensures r != [] ==> !IsTrimmable(r[0])
    ensures forall i :: 0 <= i < |s| - |r| ==> IsTrimmable(s[i])
  {
    if s != [] && IsTrimmable(s[0]) then
      var r := TrimStart(s[1..]);
      assert forall i :: 1 <= i < |s| - |r| ==> s[i] == s[1..][i - 1];
      r
    else s
  }

  /** rtrim(): the input less its trailing run of strippable characters. */
  function TrimEnd(s: string): (r: string)
    ensures |r| <= |s| && r == s[..|r|]
    ensures r != [] ==> !IsTrimmable(r[|r| - 1])
    ensures forall i :: |r| <= i < |s| ==> IsTrimmable(s[i])
  {
    if s != [] && IsTrimmable(s[|s| - 1]) then
      var r := TrimEnd(s[..|s| - 1]);
      assert forall i :: |r| <= i < |s| - 1 ==> s[i] == s[..|s| - 1][i];
      r
    else s
  }

  lemma {:induction false} TrimStartKeeps(s: string, c: char)
    requires c in s && !IsTrimmable(c)
    ensures c in TrimStart(s)
  {
    if IsTrimmable(s[0]) {
      assert c in s[1..];
      TrimStartKeeps(s[1..], c);
    }
  }

  lemma {:induction false} TrimEndKeeps(s: string, c: char)
    requires c in s && !IsTrimmable(c)
    ensures c in TrimEnd(s)
  {
    if IsTrimmable(s[|s| - 1]) {
      assert s == s[..|s| - 1] + [s[|s| - 1]];
      assert c in s[..|s| - 1];
      TrimEndKeeps(s[..|s| - 1], c);
    }
  }

  lemma TrimBothEnds(s: string)
    ensures var r := TrimEnd(TrimStart(s));
      r != [] ==> !IsTrimmable(r[0]) && !IsTrimmable(r[|r| - 1])
  {
    var t := TrimStart(s);
    var r := TrimEnd(t);
    if r != [] {
      assert r == t[..|r|];
      assert r[0] == t[0];
    }
  }

  lemma TrimIntroducesNothing(s: string)
    ensures forall c :: c in TrimEnd(TrimStart(s)) ==> c in s
  {
    var t := TrimStart(s);
    var r := TrimEnd(t);
    forall c | c in r ensures c in s {
      assert c in t by { assert r == t[..|r|]; }
      assert t == s[|s| - |t|..];
    }
  }

  lemma TrimKeepsOthers(s: string)
    ensures forall c :: c in s && !IsTrimmable(c) ==> c in TrimEnd(TrimStart(s))
  {
    forall c | c in s && !IsTrimmable(c) ensures c in TrimEnd(TrimStart(s)) {
      TrimStartKeeps(s, c);
      TrimEndKeeps(TrimStart(s), c);
    }
  }

  /** `r` is the stretch of `s` from `k` on, with only strippable characters around it. */
  predicate StrippedAt(s: string, r: string, k: nat)
  {
    k + |r| <= |s| && r == s[k..k + |r|]
    && (forall i :: 0 <= i < k ==> IsTrimmable(s[i]))
    && (forall i :: k + |r| <= i < |s| ==> IsTrimmable(s[i]))
  }

  /**
   * Stripping a strippable run from the front of `s` (giving `t`) and then
   * one from the back of `t` (giving `r`) leaves `r` as a stretch of `s`.
   */
  lemma StrippedBothWays(s: string, t: string, r: string)
    requires |t| <= |s| && t == s[|s| - |t|..]
    requires forall i :: 0 <= i < |s| - |t| ==> IsTrimmable(s[i])
    requires |r| <= |t| && r == t[..|r|]
    requires forall i :: |r| <= i < |t| ==> IsTrimmable(t[i])
    ensures StrippedAt(s, r, |s| - |t|)
  {
    var k := |s| - |t|;
    assert r == s[k..k + |r|] by {
      assert forall j :: 0 <= j < |r| ==> r[j] == s[k + j];
    }
    forall i | k + |r| <= i < |s| ensures IsTrimmable(s[i]) {
      assert s[i] == t[i - k];
    }
  }

  /** What trim() keeps is one stretch of the input, with only strippable characters around it. */
  lemma TrimInfix(s: string)
    ensures StrippedAt(s, TrimEnd(TrimStart(s)), |s| - |TrimStart(s)|)
  {
    StrippedBothWays(s, TrimStart(s), TrimEnd(TrimStart(s)));
  }

  /**
   * trim(): the result is the input less a leading and a trailing run of
   * strippable characters (the leading run being the one ltrim() drops); it
   * has no strippable character at either end, keeps every other character
   * of the input and introduces none.
   */
  function Trim(s: string): (r: string)
    ensures StrippedAt(s, r, |s| - |TrimStart(s)|)
    ensures r != [] ==> !IsTrimmable(r[0]) && !IsTrimmable(r[|r| - 1])
    ensures forall c :: c in r ==> c in s
    ensures forall c :: c in s && !IsTrimmable(c) ==> c in r
  {
    TrimInfix(s);
    TrimBothEnds(s);
    TrimIntroducesNothing(s);
    TrimKeepsOthers(s);
    TrimEnd(TrimStart(s))
  }

  // ---------------------------------------------------------------------------
  // explode() and implode()

  function Count(c: char, s: string): nat {
    if s == [] then 0 else (if s[0] == c then 1 else 0) + Count(c, s[1..])
  }

  /**
   * explode() with a one-character delimiter: the pieces between the
   * delimiters, one more than there are delimiters, none containing one.
   */
  function Explode(sep: char, s: string): (r: seq<string>)
    ensures |r| == Count(sep, s) + 1
    ensures forall p :: p in r ==> sep !in p
    ensures forall p, c :: p in r && c in p ==> c in s
  {
    if s == [] then [""]
    else
      var rest := Explode(sep, s[1..]);
      if s[0] == sep then [""] + rest
      else
        assert forall p :: p in rest[1..] ==> p in rest;
        [[s[0]] + rest[0]] + rest[1..]
  }

  /** implode(): the pieces joined with `glue` between neighbours. */
  function Implode(glue: string, xs: seq<string>): string {
    if xs == [] then ""
    else if |xs| == 1 then xs[0]
    else xs[0] + glue + Implode(glue, xs[1..])
  }

  /** Joining the pieces of explode() with the delimiter gives back the input. */
  lemma {:induction false} ImplodeExplode(sep: char, s: string)
    ensures Implode([sep], Explode(sep, s)) == s
  {
    if s != [] {
      var rest := Explode(sep, s[1..]);
      ImplodeExplode(sep, s[1..]);
      if s[0] == sep {
        assert Explode(sep, s) == [""] + rest;
        assert s == [sep] + s[1..];
      } else {
        var xs := Explode(sep, s);
        if |rest| == 1 {
          assert xs == [[s[0]] + rest[0]];
          assert Implode([sep], rest) == rest[0];
          assert s == [s[0]] + s[1..];
        } else {
          assert xs[1..] == rest[1..];
          assert Implode([sep], rest) == rest[0] + [sep] + Implode([sep], rest[1..]);
          assert s == [s[0]] + s[1..];
        }
      }
    }
  }

  lemma {:induction false} ExplodeNoDelimiter(sep: char, p: string)
    requires sep !in p
    ensures Explode(sep, p) == [p]
  {
    if p != [] {
      ExplodeNoDelimiter(sep, p[1..]);
      assert [p[0]] + p[1..] == p;
    }
  }

  lemma {:induction false} ExplodeFirstPiece(sep: char, p: string, t: string)
    requires sep !in p
    ensures Explode(sep, p + [sep] + t) == [p] + Explode(sep, t)
  {
    if p == [] {
      assert p + [sep] + t == [sep] + t;
      assert ([sep] + t)[1..] == t;
    } else {
      ExplodeFirstPiece(sep, p[1..], t);
      assert (p + [sep] + t)[1..] == p[1..] + [sep] + t;
      assert [p[0]] + p[1..] == p;
    }
  }

  /** explode() recovers the pieces that implode() joined, when no piece holds the delimiter. */
  lemma {:induction false} ExplodeImplode(sep: char, xs: seq<string>)
    requires |xs| >= 1
    requires forall p :: p in xs ==> sep !in p
    ensures Explode(sep, Implode([sep], xs)) == xs
  {
    if |xs| == 1 {
      ExplodeNoDelimiter(sep, xs[0]);
    } else {
      assert forall p :: p in xs[1..] ==> p in xs;
      ExplodeImplode(sep, xs[1..]);
      ExplodeFirstPiece(sep, xs[0], Implode([sep], xs[1..]));
      assert [xs[0]] + xs[1..] == xs;
    }
  }

  /** Where the piece `xs[i]` starts inside `Implode(glue, xs)`. */
  function Offset(glue: string, xs: seq<string>, i: nat): nat
    requires i < |xs|
  {
    if i == 0 then 0 else |xs[0]| + |glue| + Offset(glue, xs[1..], i - 1)
  }

  /** Every piece appears verbatim in the joined string, at its offset. */
  lemma {:induction false} ImplodeAt(glue: string, xs: seq<string>, i: nat)
    requires i < |xs|
    ensures Offset(glue, xs, i) + |xs[i]| <= |Implode(glue, xs)|
    ensures Implode(glue, xs)[Offset(glue, xs, i)..Offset(glue, xs, i) + |xs[i]|] == xs[i]
  {
    if |xs| == 1 {
    } else if i == 0 {
      assert Implode(glue, xs) == xs[0] + (glue + Implode(glue, xs[1..]));
    } else {
      ImplodeAt(glue, xs[1..], i - 1);
      var pre := xs[0] + glue;
      var rest := Implode(glue, xs[1..]);
      var k := Offset(glue, xs[1..], i - 1);
      assert Implode(glue, xs) == pre + rest;
      assert (pre + rest)[|pre| + k..|pre| + k + |xs[i]|] == rest[k..k + |xs[i]|];
    }
  }

  // ---------------------------------------------------------------------------
  // The (int) cast of a string

  const IntMin: int := -0x8000_0000_0000_0000
  const IntMax: int := 0x7FFF_FFFF_FFFF_FFFF

  /** The white space a numeric string may start with: space, \t, \n, \r, vertical tab, form feed. */
  predicate IsNumericSpace(c: char) {
    c == ' ' || c == '\t' || c == '\n' || c == '\r' || c == '\U{000B}' || c == '\U{000C}'
  }

  predicate IsDigit(c: char) {
    '0' <= c <= '9'
  }

  predicate AllDigits(s: string) {
    forall i :: 0 <= i < |s| ==> IsDigit(s[i])
  }

  function SkipNumericSpace(s: string): (r: string)
    ensures |r| <= |s| && r == s[|s| - |r|..]
    ensures r != [] ==> !IsNumericSpace(r[0])
  {
    if s != [] && IsNumericSpace(s[0]) then SkipNumericSpace(s[1..]) else s
  }

  /** The longest run of decimal digits at the start of `s`. */
  function LeadingDigits(s: string): (r: string)
    ensures |r| <= |s| && r == s[..|r|]
    ensures AllDigits(r)
    ensures |r| < |s| ==> !IsDigit(s[|r|])
  {
    if s != [] && IsDigit(s[0]) then [s[0]] + LeadingDigits(s[1..]) else ""
  }

  function DigitsValue(ds: string): nat
    requires AllDigits(ds)
  {
    if ds == [] then 0 else 10 * DigitsValue(ds[..|ds| - 1]) + (ds[|ds| - 1] as int - '0' as int)
  }

  /** Values beyond the platform's 64-bit integer range saturate at its bounds. */
  function Saturate(n: int): (r: int)
    ensures IntMin <= r <= IntMax
    ensures IntMin <= n <= IntMax ==> r == n
    ensures n > IntMax ==> r == IntMax
    ensures n < IntMin ==> r == IntMin
  {
    if n < IntMin then IntMin else if n > IntMax then IntMax else n
  }

  /**
   * (int) of a string: leading numeric white space is skipped, an optional
   * sign is read, then the longest run of decimal digits; anything after it
   * is ignored, and a string that does not start that way is 0.
   */
  function IntCast(s: string): (r: int)
    ensures IntMin <= r <= IntMax
  {
    var t := SkipNumericSpace(s);
    if t != [] && t[0] == '-' then Saturate(-(DigitsValue(LeadingDigits(t[1..])) as int))
    else if t != [] && t[0] == '+' then Saturate(DigitsValue(LeadingDigits(t[1..])))
    else Saturate(DigitsValue(LeadingDigits(t)))
  }

  function DigitChar(d: nat): char
    requires d < 10
  {
    ('0' as int + d) as char
  }

  /** The decimal notation of a natural number, without leading zeros. */
  function Digits(n: nat): (r: string)
    ensures r != [] && AllDigits(r)
    ensures |r| > 1 ==> r[0] != '0'
  {
    if n < 10 then [DigitChar(n)] else Digits(n / 10) + [DigitChar(n % 10)]
  }

  /** The decimal notation of an integer, as a user writes it on the command line. */
  function Decimal(n: int): string {
    if n < 0 then "-" + Digits(-n) else Digits(n)
  }

  lemma {:induction false} DigitsValueOfDigits(n: nat)
    ensures DigitsValue(Digits(n)) == n
  {
    if n >= 10 {
      DigitsValueOfDigits(n / 10);
      var ds := Digits(n);
      assert ds[..|ds| - 1] == Digits(n / 10);
    }
  }

  lemma {:induction false} LeadingDigitsOfAllDigits(s: string)
    requires AllDigits(s)
    ensures LeadingDigits(s) == s
  {
    if s != [] {
      LeadingDigitsOfAllDigits(s[1..]);
      assert [s[0]] + s[1..] == s;
    }
  }

  /** A string of digits alone casts to its value, saturated. */
  lemma IntCastOfDigits(ds: string)
    requires ds != [] && AllDigits(ds)
    ensures IntCast(ds) == Saturate(DigitsValue(ds))
  {
    assert IsDigit(ds[0]) && !IsNumericSpace(ds[0]);
    assert SkipNumericSpace(ds) == ds;
    LeadingDigitsOfAllDigits(ds);
  }

  lemma {:induction false} ZerosValue(ds: string)
    requires forall i :: 0 <= i < |ds| ==> ds[i] == '0'
    ensures AllDigits(ds) && DigitsValue(ds) == 0
  {
    if ds != [] {
      ZerosValue(ds[..|ds| - 1]);
    }
  }

  /** The (int) cast reads back every 64-bit integer from its decimal notation. */
  lemma IntCastDecimal(n: int)
    requires IntMin <= n <= IntMax
    ensures IntCast(Decimal(n)) == n
  {
    var m: nat := if n < 0 then -n else n;
    var ds := Digits(m);
    DigitsValueOfDigits(m);
    LeadingDigitsOfAllDigits(ds);
    var s := Decimal(n);
    if n < 0 {
      assert s == "-" + ds;
      assert s[0] == '-' && !IsNumericSpace(s[0]);
      assert SkipNumericSpace(s) == s;
      assert s[1..] == ds;
    } else {
      assert s == ds;
      assert IsDigit(s[0]) && !IsNumericSpace(s[0]);
      assert SkipNumericSpace(s) == s;
    }
  }

  /** A number given as an option is truthy exactly when it is not zero. */
  lemma DecimalTruthy(n: int)
    ensures Truthy(Some(Decimal(n))) <==> n != 0
  {
    if 0 < n < 10 {
      assert Digits(n) == [DigitChar(n)];
    } else if n >= 10 {
      assert |Digits(n)| > 1;
    }
  }
}
