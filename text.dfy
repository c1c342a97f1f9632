/** String operations the CLI takes from Python's `str`: stripping trailing
    characters, splitting at the last or at every separator, and decimal
    formatting of integers (as an f-string prints them). */
module Text {

  datatype Option<T> = None | Some(value: T)

  predicate StartsWith(s: string, prefix: string)
  {
    |prefix| <= |s| && s[..|prefix|] == prefix
  }

  predicate EndsWith(s: string, suffix: string)
  {
    |suffix| <= |s| && s[|s| - |suffix|..] == suffix
  }

  lemma ConcatEnds(a: string, b: string)
    ensures StartsWith(a + b, a) && EndsWith(a + b, b)
  {
    assert (a + b)[..|a|] == a;
    assert (a + b)[|a|..] == b;
  }

  // ---------------------------------------------------------------------------
  // s.rstrip(c) for a single character c
  // ---------------------------------------------------------------------------

  /** `s.rstrip(c)`: `s` with every trailing `c` removed. */
  function RStrip(s: string, c: char): (r: string)
    ensures StartsWith(s, r)
    ensures forall i :: |r| <= i < |s| ==> s[i] == c
    ensures r == [] || r[|r| - 1] != c
  {
    if s == [] || s[|s| - 1] != c then s else RStrip(s[..|s| - 1], c)
  }

  /** The three properties of RStrip pin its result down: any prefix of `s`
      that leaves only `c`s behind and does not itself end in `c` is it. */
  lemma RStripUnique(s: string, c: char, t: string)
    requires StartsWith(s, t)
    requires forall i :: |t| <= i < |s| ==> s[i] == c
    requires t == [] || t[|t| - 1] != c
    ensures t == RStrip(s, c)
  {
    var r := RStrip(s, c);
    assert |t| == |r|;
    assert t == s[..|t|] == r;
  }

  lemma RStripNoSeparator(s: string, c: char)
    requires c !in s
    ensures RStrip(s, c) == s
  {
  }

  // ---------------------------------------------------------------------------
  // s.rsplit(c, 1)[-1]
  // ---------------------------------------------------------------------------

  /** `s.rsplit(c, 1)[-1]`: the text after the last `c`, or all of `s` when
      it has no `c`. */
  function AfterLast(s: string, c: char): (r: string)
    ensures EndsWith(s, r)
    ensures c !in r
    ensures |r| == |s| || s[|s| - |r| - 1] == c
  {
    if s == [] then []
    else if s[|s| - 1] == c then []
    else
      var r := AfterLast(s[..|s| - 1], c);
      EndsWithExtend(s, r);
      r + [s[|s| - 1]]
  }

  /** A suffix of `s` minus its last character, extended by that character,
      is a suffix of `s`. */
  lemma EndsWithExtend(s: string, r: string)
    requires s != [] && EndsWith(s[..|s| - 1], r)
    ensures EndsWith(s, r + [s[|s| - 1]])
  {
    var front := s[..|s| - 1];
    assert s == front + [s[|s| - 1]];
    assert s[|s| - |r| - 1..] == front[|front| - |r|..] + [s[|s| - 1]];
  }

  /** The result of AfterLast is determined by its three properties. */
  lemma AfterLastUnique(s: string, c: char, t: string)
    requires EndsWith(s, t)
    requires c !in t
    requires |t| == |s| || s[|s| - |t| - 1] == c
    ensures t == AfterLast(s, c)
  {
    var r := AfterLast(s, c);
    assert |t| == |r|;
    assert t == s[|s| - |t|..] == r;
  }

  lemma AfterLastNoSeparator(s: string, c: char)
    requires c !in s
    ensures AfterLast(s, c) == s
  {
    assert |AfterLast(s, c)| == |s|;
  }

  /** The last `/`-separated segment of `s` once trailing `/` are stripped:
      `s.rstrip("/").rsplit("/", 1)[-1]`. Read as a POSIX path, `s` also has
      this as its `Path(s).name` (a final `.` aside); Windows paths, which
      pathlib also splits at `\` and strips of a drive prefix, are not
      modelled. */
  function LastSegment(s: string): (seg: string)
    ensures '/' !in seg
    ensures EndsWith(RStrip(s, '/'), seg)
  {
    AfterLast(RStrip(s, '/'), '/')
  }

  // ---------------------------------------------------------------------------
  // s.split(c), as used to read a text line by line
  // ---------------------------------------------------------------------------

  /** `s.split(c)`: the pieces of `s` between the occurrences of `c`. Like
      Python it never returns an empty list: `"".split(c) == [""]`. */
  function Split(s: string, c: char): (parts: seq<string>)
    ensures |parts| >= 1
  {
    if s == [] then [""]
    else
      var rest := Split(s[1..], c);
      if s[0] == c then [""] + rest
      else [[s[0]] + rest[0]] + rest[1..]
  }

  lemma {:induction false} SplitNoSeparator(s: string, c: char)
    requires c !in s
    ensures Split(s, c) == [s]
  {
    if s != [] {
      SplitNoSeparator(s[1..], c);
      assert s == [s[0]] + s[1..];
    }
  }

  /** Python's `(a + c + b).split(c) == a.split(c) + b.split(c)`. */
  lemma {:induction false} SplitAround(a: string, b: string, c: char)
    ensures Split(a + [c] + b, c) == Split(a, c) + Split(b, c)
  {
    if a == [] {
      assert (a + [c] + b)[1..] == b;
    } else {
      assert (a + [c] + b)[1..] == a[1..] + [c] + b;
      SplitAround(a[1..], b, c);
    }
  }

  /** A line of a text, as `line in text.split("\n")`. */
  predicate HasLine(text: string, line: string)
  {
    line in Split(text, '\n')
  }

  // ---------------------------------------------------------------------------
  // str(n) for an int n, and reading it back
  // ---------------------------------------------------------------------------

  predicate IsDigit(ch: char)
  {
    '0' <= ch <= '9'
  }

  predicate AllDigits(s: string)
  {
    forall i :: 0 <= i < |s| ==> IsDigit(s[i])
  }

  function DigitChar(d: nat): (ch: char)
    requires d < 10
    ensures IsDigit(ch) && ch as int - '0' as int == d
  {
    ('0' as int + d) as char
  }

  /** Decimal digits of `n`, most significant first, no leading zero. */
  function NatToDecimal(n: nat): (s: string)
    ensures |s| >= 1 && AllDigits(s)
    ensures s[0] == '0' ==> n == 0
  {
    if n < 10 then [DigitChar(n)] else NatToDecimal(n / 10) + [DigitChar(n % 10)]
  }

  /** The number an all-digit string denotes. */
  function DecimalValue(s: string): nat
    requires AllDigits(s)
  {
    if s == [] then 0
    else DecimalValue(s[..|s| - 1]) * 10 + (s[|s| - 1] as int - '0' as int)
  }

  lemma {:induction false} DecimalValueOfNat(n: nat)
    ensures DecimalValue(NatToDecimal(n)) == n
  {
    if n >= 10 {
      var s := NatToDecimal(n);
      assert s[..|s| - 1] == NatToDecimal(n / 10);
      DecimalValueOfNat(n / 10);
    }
  }

  /** `str(n)`: an optional minus sign, then the digits of `|n|`. */
  function IntToDecimal(n: int): (s: string)
    ensures n >= 0 ==> AllDigits(s) && |s| >= 1
    ensures n < 0 ==> |s| >= 2 && s[0] == '-' && AllDigits(s[1..])
  {
    if n < 0 then
      var digits := NatToDecimal(-n);
      assert ("-" + digits)[1..] == digits;
      "-" + digits
    else NatToDecimal(n)
  }

  /** `int(s)` restricted to what `str` produces; `None` for anything else. */
  function ParseInt(s: string): Option<int>
  {
    if |s| >= 2 && s[0] == '-' && AllDigits(s[1..]) then Some(0 - DecimalValue(s[1..]) as int)
    else if |s| >= 1 && AllDigits(s) then Some(DecimalValue(s))
    else None
  }

  /** Reading back a formatted integer gives the integer. */
  lemma IntToDecimalRoundTrip(n: int)
    ensures ParseInt(IntToDecimal(n)) == Some(n)
  {
    if n < 0 {
      var digits := NatToDecimal(-n);
      var s := "-" + digits;
      assert s[0] == '-' && s[1..] == digits;
      assert !AllDigits(s) by { assert !IsDigit(s[0]); }
      DecimalValueOfNat(-n);
      assert ParseInt(s) == Some(0 - DecimalValue(digits) as int);
    } else {
      DecimalValueOfNat(n);
    }
  }
}
