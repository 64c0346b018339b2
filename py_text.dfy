/** The handful of Python `str` and `int` operations the application relies
    on, stated over `seq<char>`: decimal rendering and zero padding, `int()`
    parsing, `split`, `lstrip`, `endswith`, `lower` and `in`. */
module PyText {
  import opened Wrappers

  predicate IsDigit(c: char) {
    '0' <= c <= '9'
  }

  predicate AllDigits(s: string) {
    forall i :: 0 <= i < |s| ==> IsDigit(s[i])
  }

  function DigitChar(d: nat): (c: char)
    requires d < 10
    ensures IsDigit(c) && c as int - '0' as int == d
  {
    (d + '0' as int) as char
  }

  function DigitValue(c: char): (d: nat)
    requires IsDigit(c)
    ensures d < 10 && DigitChar(d) == c
  {
    c as int - '0' as int
  }

  function Pow10(n: nat): (p: nat)
    ensures p >= 1
  {
    if n == 0 then 1 else 10 * Pow10(n - 1)
  }

  /** The value of a string of decimal digits, most significant first. */
  function DigitsValue(s: string): nat
    requires AllDigits(s)
  {
    if s == [] then 0 else DigitsValue(s[..|s| - 1]) * 10 + DigitValue(s[|s| - 1])
  }

  /** `f"{n:0{width}d}"` for a non-negative `n` that fits in `width` digits:
      exactly `width` digits, zero padded on the left. */
  function Fixed(n: nat, width: nat): (s: string)
    ensures |s| == width && AllDigits(s)
  {
    if width == 0 then "" else Fixed(n / 10, width - 1) + [DigitChar(n % 10)]
  }

  /** Reading a zero-padded field back gives the number that was written. */
  lemma {:induction false} FixedRoundTrip(n: nat, width: nat)
    requires n < Pow10(width)
    ensures DigitsValue(Fixed(n, width)) == n
  {
    if width > 0 {
      var s := Fixed(n, width);
      assert s[..|s| - 1] == Fixed(n / 10, width - 1);
      FixedRoundTrip(n / 10, width - 1);
    }
  }

  /** `str(n)` for a natural number: no leading zeros, "0" for zero. */
  function NatToDecimal(n: nat): (s: string)
    ensures |s| >= 1 && AllDigits(s)
    ensures |s| > 1 ==> s[0] != '0'
  {
    if n < 10 then [DigitChar(n)] else NatToDecimal(n / 10) + [DigitChar(n % 10)]
  }

  lemma {:induction false} NatToDecimalRoundTrip(n: nat)
    ensures DigitsValue(NatToDecimal(n)) == n
  {
    if n >= 10 {
      var s := NatToDecimal(n);
      assert s[..|s| - 1] == NatToDecimal(n / 10);
      NatToDecimalRoundTrip(n / 10);
    }
  }

  /** `str(n)` for any integer. */
  function IntToDecimal(n: int): string {
    if n < 0 then "-" + NatToDecimal(-n) else NatToDecimal(n)
  }

  /** `f"{n:02d}"`: sign-aware zero padding to a width of two. */
  function TwoDigits(n: int): (s: string)
    ensures 0 <= n < 10 ==> s == "0" + NatToDecimal(n)
    ensures 10 <= n ==> s == NatToDecimal(n)
    ensures n < 0 ==> s == "-" + NatToDecimal(-n)
    ensures |s| >= 2
  {
    if n < 0 then "-" + NatToDecimal(-n)
    else if n < 10 then "0" + NatToDecimal(n)
    else NatToDecimal(n)
  }

  /** `int(f"{n:02d}")` gives a natural number back. */
  lemma TwoDigitsRoundTrip(n: nat)
    ensures AllDigits(TwoDigits(n)) && ParseInt(TwoDigits(n)) == Some(n)
  {
    var s := TwoDigits(n);
    if n < 10 {
      PaddedDigitValue(n);
    } else {
      NatToDecimalRoundTrip(n);
    }
    ParseDigits(s);
  }

  lemma PaddedDigitValue(n: nat)
    requires n < 10
    ensures AllDigits(TwoDigits(n)) && DigitsValue(TwoDigits(n)) == n
  {
    var s := TwoDigits(n);
    assert s == ['0', DigitChar(n)];
    assert s[..1] == ['0'] && DigitsValue(['0'][..0]) == 0;
  }

  /** The ASCII whitespace `str.strip()` removes. */
  predicate IsSpace(c: char) {
    c == ' ' || c == '\t' || c == '\n' || c == '\r' || c as int == 11 || c as int == 12
  }

  function LStripSpace(s: string): (r: string)
    ensures |r| <= |s| && r == s[|s| - |r|..]
    ensures r == [] || !IsSpace(r[0])
  {
    if s != [] && IsSpace(s[0]) then LStripSpace(s[1..]) else s
  }

  function RStripSpace(s: string): (r: string)
    ensures |r| <= |s| && r == s[..|r|]
    ensures r == [] || !IsSpace(r[|r| - 1])
  {
    if s != [] && IsSpace(s[|s| - 1]) then RStripSpace(s[..|s| - 1]) else s
  }

  /** `s.strip()` */
  function Strip(s: string): string {
    RStripSpace(LStripSpace(s))
  }

  lemma StripNoSpace(s: string)
    requires forall i :: 0 <= i < |s| ==> !IsSpace(s[i])
    ensures Strip(s) == s
  {
  }

  /** `int(s)`: surrounding whitespace, an optional sign, then one or more
      decimal digits; anything else raises ValueError (None here). */
  function ParseInt(s: string): (r: Option<int>)
    ensures r.Some? ==> Strip(s) != []
  {
    var t := Strip(s);
    if t != [] && (t[0] == '-' || t[0] == '+') then
      var digits := t[1..];
      if digits != [] && AllDigits(digits) then
        var v: int := DigitsValue(digits);
        Some(if t[0] == '-' then -v else v)
      else None
    else if t != [] && AllDigits(t) then Some(DigitsValue(t))
    else None
  }

  lemma ParseDigits(t: string)
    requires t != [] && AllDigits(t)
    ensures ParseInt(t) == Some(DigitsValue(t))
  {
    StripNoSpace(t);
  }

  lemma ParseNegativeDigits(t: string)
    requires |t| >= 2 && t[0] == '-' && AllDigits(t[1..])
    ensures ParseInt(t) == Some(-(DigitsValue(t[1..]) as int))
  {
    assert forall i :: 1 <= i < |t| ==> t[1..][i - 1] == t[i];
    StripNoSpace(t);
  }

  lemma ParseNegative(m: nat)
    requires m > 0
    ensures ParseInt("-" + NatToDecimal(m)) == Some(-(m as int))
  {
    var d := NatToDecimal(m);
    var s := "-" + d;
    assert s[0] == '-' && s[1..] == d;
    NatToDecimalRoundTrip(m);
    ParseNegativeDigits(s);
  }

  /** `int(str(n)) == n` for a natural number; `ParseNegative` is the
      negative half. */
  lemma ParseIntRoundTrip(n: nat)
    ensures ParseInt(NatToDecimal(n)) == Some(n)
  {
    ParseDigits(NatToDecimal(n));
    NatToDecimalRoundTrip(n);
  }

  predicate StartsWith(s: string, prefix: string) {
    |prefix| <= |s| && s[..|prefix|] == prefix
  }

  /** `s.endswith(suffix)` */
  predicate EndsWith(s: string, suffix: string) {
    |suffix| <= |s| && s[|s| - |suffix|..] == suffix
  }

  /** `s.lstrip(c)` for a single character: every leading `c` removed. */
  function LStripChar(s: string, c: char): (r: string)
    ensures |r| <= |s| && r == s[|s| - |r|..]
    ensures r == [] || r[0] != c
    ensures forall i :: 0 <= i < |s| - |r| ==> s[i] == c
  {
    if s != [] && s[0] == c then
      var t := LStripChar(s[1..], c);
      assert s[1..][|s| - 1 - |t|..] == s[|s| - |t|..];
      assert forall i :: 1 <= i < |s| - |t| ==> s[i] == s[1..][i - 1];
      t
    else s
  }

  /** `s.rstrip(c)` for a single character. */
  function RStripChar(s: string, c: char): (r: string)
    ensures |r| <= |s| && r == s[..|r|]
    ensures r == [] || r[|r| - 1] != c
    ensures forall i :: |r| <= i < |s| ==> s[i] == c
  {
    if s != [] && s[|s| - 1] == c then
      var t := RStripChar(s[..|s| - 1], c);
      assert s[..|s| - 1][..|t|] == s[..|t|];
      t
    else s
  }

  /** `s.strip(c)` for a single character. */
  function StripChar(s: string, c: char): string {
    RStripChar(LStripChar(s, c), c)
  }

  /** Index of the first `c` in `s`, as `s.find(c)` when it is found. */
  function Find(s: string, c: char): (r: Option<nat>)
    ensures r.Some? ==> r.value < |s| && s[r.value] == c && c !in s[..r.value]
    ensures r.None? <==> c !in s
  {
    if s == [] then None
    else if s[0] == c then Some(0)
    else match Find(s[1..], c)
      case None => None
      case Some(i) => assert s[..i + 1] == [s[0]] + s[1..][..i]; Some(i + 1)
  }

  /** The digits before and after the decimal point of unsigned decimal
      text, when it is well formed: at most one point, at least one digit. */
  function DecimalParts(body: string): Option<(string, string)> {
    var whole := match Find(body, '.') case Some(i) => body[..i] case None => body;
    var fraction := match Find(body, '.') case Some(i) => body[i + 1..] case None => "";
    if !AllDigits(whole) || !AllDigits(fraction) || |whole| + |fraction| == 0 then None
    else Some((whole, fraction))
  }

  /** `int(float(s))` for decimal text: surrounding whitespace, an optional
      sign, digits with at most one decimal point and at least one digit;
      the fraction is dropped (truncation toward zero). Anything else raises
      (None). */
  function IntOfFloatText(s: string): Option<int> {
    var t := Strip(s);
    var body := if t != [] && (t[0] == '-' || t[0] == '+') then t[1..] else t;
    match DecimalParts(body)
    case None => None
    case Some(parts) =>
      var v: int := DigitsValue(parts.0);
      Some(if t != [] && t[0] == '-' then -v else v)
  }

  lemma DecimalPartsSplit(w: string, fraction: string)
    requires w != [] && AllDigits(w) && AllDigits(fraction)
    ensures DecimalParts(w + "." + fraction) == Some((w, fraction))
  {
    var s := w + "." + fraction;
    assert '.' !in w by {
      forall i | 0 <= i < |w| ensures w[i] != '.' { assert IsDigit(w[i]); }
    }
    assert s[|w|] == '.' && s[..|w|] == w && s[|w| + 1..] == fraction;
  }

  lemma DecimalTextHasNoSpace(w: string, fraction: string)
    requires AllDigits(w) && AllDigits(fraction)
    ensures forall i :: 0 <= i < |w + "." + fraction| ==> !IsSpace((w + "." + fraction)[i])
  {
    var s := w + "." + fraction;
    forall i | 0 <= i < |s| ensures !IsSpace(s[i]) {
      if i < |w| { assert s[i] == w[i]; } else if i > |w| { assert s[i] == fraction[i - |w| - 1]; }
    }
  }

  /** `int(float("<n>.<digits>")) == n` */
  lemma IntOfFloatTextDropsFraction(n: nat, fraction: string)
    requires AllDigits(fraction)
    ensures IntOfFloatText(NatToDecimal(n) + "." + fraction) == Some(n)
  {
    DigitsDropFraction(NatToDecimal(n), fraction);
    NatToDecimalRoundTrip(n);
  }

  lemma DigitsDropFraction(w: string, fraction: string)
    requires w != [] && AllDigits(w) && AllDigits(fraction)
    ensures IntOfFloatText(w + "." + fraction) == Some(DigitsValue(w))
  {
    var s := w + "." + fraction;
    DecimalTextHasNoSpace(w, fraction);
    StripNoSpace(s);
    assert s[0] == w[0] && IsDigit(w[0]);
    DecimalPartsSplit(w, fraction);
  }

  /** Whole-number text reads as its value under `int(float(...))` too. */
  lemma DigitsNoFraction(w: string)
    requires w != [] && AllDigits(w)
    ensures IntOfFloatText(w) == Some(DigitsValue(w))
  {
    StripNoSpace(w);
    assert IsDigit(w[0]);
    assert '.' !in w by {
      forall i | 0 <= i < |w| ensures w[i] != '.' { assert IsDigit(w[i]); }
    }
  }

  /** `(t + c).strip().strip(c) == t` for text `t` without surrounding
      whitespace or `c` and a non-space `c`. */
  lemma StripTrailingChar(t: string, c: char)
    requires t != [] && t[0] != c && t[|t| - 1] != c && !IsSpace(c)
    requires forall i :: 0 <= i < |t| ==> !IsSpace(t[i])
    ensures StripChar(Strip(t + [c]), c) == t
  {
    StripKeepsAppended(t, c);
    StripCharDropsAppended(t, c);
  }

  lemma StripKeepsAppended(t: string, c: char)
    requires !IsSpace(c)
    requires forall i :: 0 <= i < |t| ==> !IsSpace(t[i])
    ensures Strip(t + [c]) == t + [c]
  {
    NoSpaceAppend(t, c);
    StripNoSpace(t + [c]);
  }

  lemma StripCharDropsAppended(t: string, c: char)
    requires t != [] && t[0] != c && t[|t| - 1] != c
    ensures StripChar(t + [c], c) == t
  {
    var s := t + [c];
    assert s[0] == t[0];
    LStripCharKeeps(s, c);
    RStripCharOne(t, c);
  }

  lemma NoSpaceAppend(t: string, c: char)
    requires !IsSpace(c)
    requires forall i :: 0 <= i < |t| ==> !IsSpace(t[i])
    ensures forall i :: 0 <= i < |t + [c]| ==> !IsSpace((t + [c])[i])
  {
  }

  lemma LStripCharKeeps(s: string, c: char)
    requires s != [] && s[0] != c
    ensures LStripChar(s, c) == s
  {
  }

  lemma RStripCharOne(t: string, c: char)
    requires t != [] && t[|t| - 1] != c
    ensures RStripChar(t + [c], c) == t
  {
    assert (t + [c])[..|t|] == t;
  }

  /** `s.split(sep)` for a one-character separator. */
  function Split(s: string, sep: char): (parts: seq<string>)
    ensures |parts| >= 1
  {
    if s == [] then [""]
    else if s[0] == sep then [""] + Split(s[1..], sep)
    else
      var rest := Split(s[1..], sep);
      [[s[0]] + rest[0]] + rest[1..]
  }

  /** A string without the separator is one piece. */
  lemma {:induction false} SplitNoSeparator(s: string, sep: char)
    requires sep !in s
    ensures Split(s, sep) == [s]
  {
    if s != [] {
      assert sep !in s[1..];
      SplitNoSeparator(s[1..], sep);
      assert [s[0]] + s[1..] == s;
    }
  }

  /** Two separator-free strings joined by it split back into the two. */
  lemma {:induction false} SplitAround(a: string, b: string, sep: char)
    requires sep !in a && sep !in b
    ensures Split(a + [sep] + b, sep) == [a, b]
  {
    if a == [] {
      assert a + [sep] + b == [sep] + b;
      assert ([sep] + b)[1..] == b;
      SplitNoSeparator(b, sep);
    } else {
      var s := a + [sep] + b;
      assert s[0] == a[0] && s[1..] == a[1..] + [sep] + b;
      assert sep !in a[1..];
      SplitAround(a[1..], b, sep);
      assert [a[0]] + a[1..] == a;
    }
  }

  /** Splitting at a separator splits each side. */
  lemma {:induction false} SplitAppend(s: string, t: string, sep: char)
    ensures Split(s + [sep] + t, sep) == Split(s, sep) + Split(t, sep)
  {
    if s == [] {
      assert s + [sep] + t == [sep] + t;
      assert ([sep] + t)[1..] == t;
    } else {
      assert (s + [sep] + t)[0] == s[0];
      assert (s + [sep] + t)[1..] == s[1..] + [sep] + t;
      SplitAppend(s[1..], t, sep);
    }
  }

  /** `sep.join(parts)` */
  function Join(parts: seq<string>, sep: char): string
    requires |parts| >= 1
  {
    if |parts| == 1 then parts[0] else parts[0] + [sep] + Join(parts[1..], sep)
  }

  /** Splitting loses nothing: joining the pieces gives the string back. */
  lemma {:induction false} SplitJoin(s: string, sep: char)
    ensures Join(Split(s, sep), sep) == s
  {
    if s != [] && s[0] != sep {
      SplitJoin(s[1..], sep);
      var rest := Split(s[1..], sep);
      var parts := Split(s, sep);
      if |rest| > 1 {
        assert parts[1..] == rest[1..];
      }
      assert s == [s[0]] + s[1..];
    } else if s != [] {
      SplitJoin(s[1..], sep);
    }
  }

  /** No piece of a split contains the separator. */
  lemma {:induction false} SplitPiecesHaveNoSeparator(s: string, sep: char)
    ensures forall i :: 0 <= i < |Split(s, sep)| ==> sep !in Split(s, sep)[i]
  {
    if s != [] {
      SplitPiecesHaveNoSeparator(s[1..], sep);
      var rest := Split(s[1..], sep);
      var parts := Split(s, sep);
      if s[0] != sep {
        assert forall i :: 1 <= i < |parts| ==> parts[i] == rest[i];
      } else {
        assert forall i :: 1 <= i < |parts| ==> parts[i] == rest[i - 1];
      }
    }
  }

  function LowerChar(c: char): char {
    if 'A' <= c <= 'Z' then (c as int + 32) as char else c
  }

  /** `s.lower()` on ASCII letters. */
  function Lower(s: string): (r: string)
    ensures |r| == |s| && forall i :: 0 <= i < |s| ==> r[i] == LowerChar(s[i])
  {
    seq(|s|, i requires 0 <= i < |s| => LowerChar(s[i]))
  }

  function UpperChar(c: char): char {
    if 'a' <= c <= 'z' then (c as int - 32) as char else c
  }

  predicate IsLetter(c: char) {
    'a' <= c <= 'z' || 'A' <= c <= 'Z'
  }

  /** `str.title()` from a position whose previous character was a letter
      (`afterLetter`) or not: a letter that starts a run of letters is
      upper-cased, every other letter lower-cased. */
  function TitleAfter(s: string, afterLetter: bool): (r: string)
    ensures |r| == |s|
  {
    if s == [] then []
    else [if afterLetter then LowerChar(s[0]) else UpperChar(s[0])] + TitleAfter(s[1..], IsLetter(s[0]))
  }

  /** `s.title()` on ASCII text. */
  function Title(s: string): (r: string)
    ensures |r| == |s|
  {
    TitleAfter(s, false)
  }

  /** Inside a run of lower-case letters title-casing changes nothing. */
  lemma {:induction false} TitleLowerRun(s: string)
    requires forall i :: 0 <= i < |s| ==> 'a' <= s[i] <= 'z'
    ensures TitleAfter(s, true) == s
  {
    if s != [] {
      TitleLowerRun(s[1..]);
    }
  }

  /** A lower-case word gets its first letter upper-cased. */
  lemma TitleWord(s: string)
    requires s != [] && forall i :: 0 <= i < |s| ==> 'a' <= s[i] <= 'z'
    ensures Title(s) == [UpperChar(s[0])] + s[1..]
  {
    TitleLowerRun(s[1..]);
  }

  /** Title-casing text that is already title-cased changes nothing. */
  lemma {:induction false} TitleAfterIdempotent(s: string, afterLetter: bool)
    ensures TitleAfter(TitleAfter(s, afterLetter), afterLetter) == TitleAfter(s, afterLetter)
  {
    if s != [] {
      var r := TitleAfter(s, afterLetter);
      assert r[0] == (if afterLetter then LowerChar(s[0]) else UpperChar(s[0]));
      assert IsLetter(r[0]) == IsLetter(s[0]);
      assert r[1..] == TitleAfter(s[1..], IsLetter(s[0]));
      TitleAfterIdempotent(s[1..], IsLetter(s[0]));
    }
  }

  lemma TitleIdempotent(s: string)
    ensures Title(Title(s)) == Title(s)
  {
    TitleAfterIdempotent(s, false);
  }

  /** `needle in hay` for strings. */
  predicate Contains(hay: string, needle: string) {
    exists i :: 0 <= i <= |hay| && StartsWith(hay[i..], needle)
  }

  /** `s[:n] + "..." if len(s) > n else s`, the table cells' title truncation. */
  function Truncate(s: string, n: nat): (r: string)
    ensures |s| <= n ==> r == s
    ensures |s| > n ==> |r| == n + 3 && r[..n] == s[..n] && r[n..] == "..."
  {
    if |s| > n then s[..n] + "..." else s
  }
}
