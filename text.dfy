/**
 * Character and string helpers shared by the parsers: ASCII whitespace and
 * digits, trimming, splitting on a separator, joining, whitespace tokens,
 * text lines and number parsing.
 */
module Text {
  import opened Wrappers

  /** ASCII whitespace: space, tab, line feed, vertical tab, form feed, carriage return. */
  predicate IsSpace(c: char)
  {
    c == ' ' || c == '\t' || c == '\n' || c == '\r' || c == '\U{000B}' || c == '\U{000C}'
  }

  predicate IsDigit(c: char)
  {
    '0' <= c <= '9'
  }

  function DigitValue(c: char): (d: nat)
    requires IsDigit(c)
    ensures d <= 9
  {
    c as int - '0' as int
  }

  predicate AllDigits(s: string)
  {
    forall i :: 0 <= i < |s| ==> IsDigit(s[i])
  }

  predicate IsBlank(s: string)
  {
    forall i :: 0 <= i < |s| ==> IsSpace(s[i])
  }

  /** The number a non-empty run of decimal digits denotes. */
  function DigitsValue(s: string): nat
    requires AllDigits(s)
  {
    if |s| == 0 then 0 else DigitsValue(s[..|s| - 1]) * 10 + DigitValue(s[|s| - 1])
  }

  /** One more digit on the right multiplies the value by ten and adds the digit. */
  lemma AppendDigit(s: string, v: nat, c: char) returns (t: string, w: nat)
    requires AllDigits(s) && DigitsValue(s) == v && IsDigit(c)
    ensures t == s + [c] && AllDigits(t) && DigitsValue(t) == w == v * 10 + DigitValue(c)
  {
    t := s + [c];
    assert t[..|t| - 1] == s;
    w := v * 10 + DigitValue(c);
  }

  /** ASCII lower-casing. */
  function ToLower(c: char): (r: char)
    ensures 'A' <= c <= 'Z' ==> 'a' <= r <= 'z'
    ensures !('A' <= c <= 'Z') ==> r == c
  {
    if 'A' <= c <= 'Z' then (c as int - 'A' as int + 'a' as int) as char else c
  }

  function Repeat(c: char, n: nat): (r: string)
    ensures |r| == n
    ensures forall i :: 0 <= i < n ==> r[i] == c
  {
    if n == 0 then "" else [c] + Repeat(c, n - 1)
  }

  predicate StartsWith(s: string, prefix: string)
  {
    |prefix| <= |s| && s[..|prefix|] == prefix
  }

  predicate EndsWith(s: string, suffix: string)
  {
    |suffix| <= |s| && s[|s| - |suffix|..] == suffix
  }

  /** Whether `pattern` occurs in `s` as a contiguous substring. */
  predicate Contains(s: string, pattern: string)
    decreases |s|
  {
    StartsWith(s, pattern) || (|s| > 0 && Contains(s[1..], pattern))
  }

  /** The suffix of `s` left after dropping its leading whitespace. */
  function TrimStart(s: string): (r: string)
    ensures |r| <= |s|
    ensures |r| > 0 ==> !IsSpace(r[0])
  {
    if |s| > 0 && IsSpace(s[0]) then TrimStart(s[1..]) else s
  }

  /** What TrimStart keeps is a suffix of the text, and what it drops is whitespace. */
  lemma {:induction false} TrimStartSuffix(s: string)
    ensures TrimStart(s) == s[|s| - |TrimStart(s)|..]
    ensures IsBlank(s[..|s| - |TrimStart(s)|])
    decreases |s|
  {
    if |s| > 0 && IsSpace(s[0]) {
      TrimStartSuffix(s[1..]);
      assert s[1..][..|s| - 1 - |TrimStart(s)|] == s[1..|s| - |TrimStart(s)|];
    }
  }

  /** The prefix of `s` left after dropping its trailing whitespace. */
  function TrimEnd(s: string): (r: string)
    ensures |r| <= |s|
    ensures |r| > 0 ==> !IsSpace(r[|r| - 1])
  {
    if |s| > 0 && IsSpace(s[|s| - 1]) then TrimEnd(s[..|s| - 1]) else s
  }

  /** What TrimEnd keeps is a prefix of the text, and what it drops is whitespace. */
  lemma {:induction false} TrimEndPrefix(s: string)
    ensures TrimEnd(s) == s[..|TrimEnd(s)|]
    ensures IsBlank(s[|TrimEnd(s)|..])
    decreases |s|
  {
    if |s| > 0 && IsSpace(s[|s| - 1]) {
      var init := s[..|s| - 1];
      var n := |TrimEnd(s)|;
      assert TrimEnd(s) == TrimEnd(init);
      TrimEndPrefix(init);
      assert init[..n] == s[..n];
      assert s[n..] == init[n..] + [s[|s| - 1]];
    }
  }

  function Trim(s: string): string
  {
    TrimEnd(TrimStart(s))
  }

  /** Text is blank exactly when nothing is left of it after TrimStart, and after Trim. */
  lemma TrimBlank(s: string)
    ensures |TrimStart(s)| == 0 <==> IsBlank(s)
    ensures |Trim(s)| == 0 <==> IsBlank(s)
  {
    var t := TrimStart(s);
    TrimStartSuffix(s);
    if |t| == 0 {
      assert s == s[..|s| - |t|];
    } else {
      assert !IsSpace(s[|s| - |t|]);
      TrimEndPrefix(t);
    }
  }

  /** Removes `prefix` from the front of `s` as many times as it occurs there. */
  function TrimStartMatches(s: string, prefix: string): (r: string)
    requires |prefix| > 0
    ensures |r| <= |s| && r == s[|s| - |r|..]
    ensures !StartsWith(r, prefix)
    decreases |s|
  {
    if StartsWith(s, prefix) then TrimStartMatches(s[|prefix|..], prefix) else s
  }

  /** Removing a prefix that the rest does not start with leaves the rest. */
  lemma StripPrefix(p: string, rest: string)
    requires |p| > 0 && |rest| > 0 && rest[0] != p[0]
    ensures TrimStartMatches(p + rest, p) == rest
  {
    assert (p + rest)[|p|..] == rest;
    assert !StartsWith(rest, p);
  }

  /** The position of the first occurrence of `p` in `s`, if any. */
  function Find(s: string, p: string): (r: Option<nat>)
    ensures r.Some? ==> r.value + |p| <= |s|
    decreases |s|
  {
    if StartsWith(s, p) then Some(0)
    else if |s| == 0 then None
    else
      match Find(s[1..], p)
      case None => None
      case Some(i) => Some(i + 1)
  }

  /** A pattern that starts with a non-digit is first found right after a run of digits. */
  lemma {:induction false} FindAfterDigits(digits: string, p: string)
    requires AllDigits(digits) && |p| > 0 && !IsDigit(p[0])
    ensures Find(digits + p, p) == Some(|digits|)
    decreases |digits|
  {
    var s := digits + p;
    if |digits| == 0 {
      assert s == p;
    } else {
      assert s[0] == digits[0];
      assert !StartsWith(s, p);
      assert s[1..] == digits[1..] + p;
      FindAfterDigits(digits[1..], p);
    }
  }

  /** A pattern whose first character does not occur in `s` is first found right after `s`. */
  lemma {:induction false} FindAfter(s: string, p: string)
    requires |p| > 0 && p[0] !in s
    ensures Find(s + p, p) == Some(|s|)
    decreases |s|
  {
    var t := s + p;
    if |s| == 0 {
      assert t == p;
    } else {
      assert t[0] == s[0] && t[0] != p[0];
      assert !StartsWith(t, p);
      assert t[1..] == s[1..] + p;
      FindAfter(s[1..], p);
    }
  }

  /**
   * Digits and decimal points, at least one character: the way Kotlin's
   * `Float.toString` writes a value between 10^-3 and 10^7.
   */
  predicate PlainDecimal(s: string)
  {
    |s| > 0 && forall i :: 0 <= i < |s| ==> IsDigit(s[i]) || s[i] == '.'
  }

  /** The position of the first `c` in `s`. */
  function IndexOf(s: string, c: char): (i: nat)
    requires c in s
    ensures i < |s| && s[i] == c && c !in s[..i]
  {
    if s[0] == c then 0 else 1 + IndexOf(s[1..], c)
  }

  /** The first occurrence is the only position holding `c` with no `c` before it. */
  lemma IndexOfUnique(s: string, c: char, k: nat)
    requires k < |s| && s[k] == c && c !in s[..k]
    ensures c in s && IndexOf(s, c) == k
  {
    assert s[k] in s;
  }

  /** The pieces of `s` between occurrences of `sep` (always at least one piece). */
  function Split(s: string, sep: char): (r: seq<string>)
    ensures |r| >= 1
    ensures forall k :: 0 <= k < |r| ==> sep !in r[k]
    decreases |s|
  {
    if sep !in s then [s] else
      var i := IndexOf(s, sep);
      [s[..i]] + Split(s[i + 1..], sep)
  }

  /** Like `Split` but stops after `n - 1` separators; the last piece keeps the rest. */
  function SplitN(s: string, sep: char, n: nat): (r: seq<string>)
    requires n >= 1
    ensures 1 <= |r| <= n
    decreases n
  {
    if n == 1 || sep !in s then [s] else
      var i := IndexOf(s, sep);
      [s[..i]] + SplitN(s[i + 1..], sep, n - 1)
  }

  /** Decimal digits contain no character that is not a digit. */
  lemma DigitsExclude(s: string, c: char)
    requires AllDigits(s) && !IsDigit(c)
    ensures c !in s
  {
  }

  /** Splitting at the first separator peels off the text before it. */
  lemma SplitAt(a: string, b: string, sep: char)
    requires sep !in a
    ensures Split(a + [sep] + b, sep) == [a] + Split(b, sep)
  {
    var s := a + [sep] + b;
    assert s[|a|] == sep && s[..|a|] == a;
    IndexOfUnique(s, sep, |a|);
    assert s[|a| + 1..] == b;
  }

  /** The same for a bounded split with room for more than one piece. */
  lemma SplitNAt(a: string, b: string, sep: char, n: nat)
    requires sep !in a && n > 1
    ensures SplitN(a + [sep] + b, sep, n) == [a] + SplitN(b, sep, n - 1)
  {
    var s := a + [sep] + b;
    assert s[|a|] == sep && s[..|a|] == a;
    IndexOfUnique(s, sep, |a|);
    assert s[|a| + 1..] == b;
  }

  /** Text without the separator is its own only piece. */
  lemma SplitNone(s: string, sep: char)
    requires sep !in s
    ensures Split(s, sep) == [s]
  {
  }

  function Join(parts: seq<string>, sep: string): string
  {
    if |parts| == 0 then ""
    else if |parts| == 1 then parts[0]
    else parts[0] + sep + Join(parts[1..], sep)
  }

  /** The non-empty prefix of `s` that contains no whitespace. */
  function TakeWord(s: string): (w: string)
    ensures |w| <= |s| && w == s[..|w|]
    ensures |s| > 0 && !IsSpace(s[0]) ==> |w| > 0
    ensures forall k :: 0 <= k < |w| ==> !IsSpace(w[k])
    ensures |w| < |s| ==> IsSpace(s[|w|])
  {
    if |s| == 0 || IsSpace(s[0]) then "" else [s[0]] + TakeWord(s[1..])
  }

  /** A non-empty run of characters none of which is whitespace. */
  predicate IsWord(w: string)
  {
    |w| > 0 && forall j :: 0 <= j < |w| ==> !IsSpace(w[j])
  }

  lemma AllWordsCons(w: string, rest: seq<string>)
    requires IsWord(w) && forall k :: 0 <= k < |rest| ==> IsWord(rest[k])
    ensures forall k :: 0 <= k < |[w] + rest| ==> IsWord(([w] + rest)[k])
  {
    forall k | 0 <= k < |[w] + rest|
      ensures IsWord(([w] + rest)[k])
    {
      if k > 0 {
        assert ([w] + rest)[k] == rest[k - 1];
      }
    }
  }

  /** The maximal whitespace-free runs of `s`, in order. */
  function Words(s: string): (r: seq<string>)
    ensures forall k :: 0 <= k < |r| ==> IsWord(r[k])
    decreases |s|
  {
    var t := TrimStart(s);
    if |t| == 0 then []
    else
      var w := TakeWord(t);
      assert IsWord(w);
      var rest := Words(t[|w|..]);
      AllWordsCons(w, rest);
      [w] + rest
  }

  /** `s` without one trailing carriage return. */
  function StripCr(s: string): string
  {
    if |s| > 0 && s[|s| - 1] == '\r' then s[..|s| - 1] else s
  }

  /**
   * The lines of `s`: pieces ended by a line feed or by the end of the text,
   * a carriage return before the line feed removed, and no final empty line.
   */
  function Lines(s: string): (r: seq<string>)
    ensures forall k :: 0 <= k < |r| ==> '\n' !in r[k]
    decreases |s|
  {
    if |s| == 0 then []
    else if '\n' !in s then [s]
    else
      var i := IndexOf(s, '\n');
      assert '\n' !in s[..i];
      [StripCr(s[..i])] + Lines(s[i + 1..])
  }

  /** A run of decimal digits with an optional leading `+`, as an unsigned integer below `bound`. */
  function ParseUnsigned(s: string, bound: nat): (r: Option<nat>)
    ensures r.Some? ==> r.value < bound
    ensures AllDigits(s) && |s| > 0 ==> r == (if DigitsValue(s) < bound then Some(DigitsValue(s)) else None)
  {
    var digits := if |s| > 0 && s[0] == '+' then s[1..] else s;
    if |digits| > 0 && AllDigits(digits) && DigitsValue(digits) < bound then Some(DigitsValue(digits)) else None
  }

  /** A run of decimal digits with an optional sign, as a signed integer in [lo, hi]. */
  function ParseSigned(s: string, lo: int, hi: int): (r: Option<int>)
    ensures r.Some? ==> lo <= r.value <= hi
  {
    var negative := |s| > 0 && s[0] == '-';
    var digits := if |s| > 0 && (s[0] == '+' || s[0] == '-') then s[1..] else s;
    if |digits| == 0 || !AllDigits(digits) then None
    else
      var n: int := DigitsValue(digits);
      var v := if negative then -n else n;
      if lo <= v <= hi then Some(v) else None
  }

  function Pow10(n: nat): (r: nat)
    ensures r >= 1
  {
    if n == 0 then 1 else 10 * Pow10(n - 1)
  }

  /**
   * A decimal number as Rust's `str::parse::<f32>` and Kotlin's
   * `toFloatOrNull` both write it: an optional sign, digits, an optional `.`
   * and fraction digits (at least one digit overall), then optionally `e` or
   * `E`, an optional sign and exponent digits. The value is exact.
   */
  function ParseDecimal(s: string): (r: Option<real>)
    ensures AllDigits(s) && |s| > 0 ==> r == Some(DigitsValue(s) as real)
  {
    assert AllDigits(s) && |s| > 0 ==> IsDigit(s[0]) && s[..|s|] == s;
    var negative := |s| > 0 && s[0] == '-';
    var body := if |s| > 0 && (s[0] == '+' || s[0] == '-') then s[1..] else s;
    var k := ExponentStart(body);
    var exponent := if k < |body| then ParseExponent(body[k + 1..]) else Some(0);
    match ParseMantissa(body[..k])
    case None => None
    case Some(magnitude) =>
      if exponent.None? then None
      else
        var scaled := Scaled(magnitude, exponent.value);
        Some(if negative then -scaled else scaled)
  }

  /** Where the exponent marker `e` or `E` sits, or the end when there is none. */
  function ExponentStart(body: string): (k: nat)
    ensures k <= |body|
    ensures AllDigits(body) ==> k == |body|
  {
    if AllDigits(body) then DigitsExclude(body, 'e'); DigitsExclude(body, 'E'); |body|
    else if 'e' in body then IndexOf(body, 'e')
    else if 'E' in body then IndexOf(body, 'E')
    else |body|
  }

  /** Digits, an optional `.` and fraction digits, with at least one digit overall. */
  function ParseMantissa(m: string): (r: Option<real>)
    ensures AllDigits(m) && |m| > 0 ==> r == Some(DigitsValue(m) as real)
  {
    if AllDigits(m) then
      if |m| == 0 then None else Some(DigitsValue(m) as real)
    else
      var whole := if '.' in m then m[..IndexOf(m, '.')] else m;
      var frac := if '.' in m then m[IndexOf(m, '.') + 1..] else "";
      if !AllDigits(whole) || !AllDigits(frac) || |whole| + |frac| == 0 then None
      else Some(DigitsValue(whole) as real + DigitsValue(frac) as real / Pow10(|frac|) as real)
  }

  /** x times ten to the power e. */
  function Scaled(x: real, e: int): (r: real)
    ensures e == 0 ==> r == x
  {
    if e >= 0 then x * Pow10(e) as real else x / Pow10(-e) as real
  }

  /** The exponent after `e`: an optional sign and at least one digit. */
  function ParseExponent(s: string): (r: Option<int>)
    ensures r.Some? && |s| > 0 && s[0] == '-' ==> r.value <= 0
  {
    var negative := |s| > 0 && s[0] == '-';
    var digits := if |s| > 0 && (s[0] == '+' || s[0] == '-') then s[1..] else s;
    if |digits| == 0 || !AllDigits(digits) then None
    else Some(if negative then -(DigitsValue(digits) as int) else DigitsValue(digits))
  }

  /** `5e-1` is a half. */
  lemma NegativeExponent()
    ensures ParseDecimal("5e-1") == Some(0.5)
  {
    assert ExponentStart("5e-1") == 1;
    assert "5e-1"[..1] == "5" && "5e-1"[2..] == "-1";
    assert ParseMantissa("5") == Some(5.0);
    assert "-1"[1..] == "1";
    assert ParseExponent("-1") == Some(-1);
  }

  /** `2.5E1` is 25. */
  lemma FractionWithExponent()
    ensures ParseDecimal("2.5E1") == Some(25.0)
  {
    assert !IsDigit("2.5E1"[1]) && 'e' !in "2.5E1";
    assert IndexOf("2.5E1", 'E') == 3;
    assert ExponentStart("2.5E1") == 3;
    assert "2.5E1"[..3] == "2.5" && "2.5E1"[4..] == "1";
    FractionMantissa();
    assert ParseExponent("1") == Some(1);
    assert Scaled(2.5, 1) == 25.0;
  }

  /** `2.5` as a mantissa: whole digits, a point and fraction digits. */
  lemma FractionMantissa()
    ensures ParseMantissa("2.5") == Some(2.5)
  {
    assert "2.5"[..1] == "2" && "2.5"[2..] == "5";
    assert !IsDigit("2.5"[1]) && IndexOf("2.5", '.') == 1;
    assert DigitsValue("2") == 2 && DigitsValue("5") == 5 && Pow10(1) == 10;
  }

  /** Length of the run of digits at the start of `s`. */
  function LeadingDigits(s: string): (n: nat)
    ensures n <= |s| && AllDigits(s[..n])
    ensures n < |s| ==> !IsDigit(s[n])
  {
    if |s| > 0 && IsDigit(s[0]) then 1 + LeadingDigits(s[1..]) else 0
  }

  lemma {:induction false} LeadingDigitsConcat(a: string, b: string)
    requires AllDigits(a)
    requires |b| > 0 ==> !IsDigit(b[0])
    ensures LeadingDigits(a + b) == |a|
    decreases |a|
  {
    if |a| > 0 {
      assert (a + b)[1..] == a[1..] + b;
      LeadingDigitsConcat(a[1..], b);
    } else {
      assert a + b == b;
    }
  }

  /** A digit run followed by a non-digit (or the end) is the leading digit run. */
  lemma LeadingDigitsExact(s: string, d: nat)
    requires d <= |s| && AllDigits(s[..d])
    requires d < |s| ==> !IsDigit(s[d])
    ensures LeadingDigits(s) == d
  {
    LeadingDigitsConcat(s[..d], s[d..]);
    assert s[..d] + s[d..] == s;
  }

  function DigitChar(d: nat): (c: char)
    requires d <= 9
    ensures IsDigit(c) && DigitValue(c) == d
  {
    ('0' as int + d) as char
  }

  /** The decimal text of `n`, without leading zeros. */
  function NatToString(n: nat): (s: string)
    ensures |s| > 0 && AllDigits(s)
  {
    if n < 10 then [DigitChar(n)] else NatToString(n / 10) + [DigitChar(n % 10)]
  }

  lemma {:induction false} NatToStringValue(n: nat)
    ensures DigitsValue(NatToString(n)) == n
  {
    var s := NatToString(n);
    if n >= 10 {
      assert s[..|s| - 1] == NatToString(n / 10);
      NatToStringValue(n / 10);
    }
  }

  /** A text that starts and ends with a non-whitespace character is its own trim. */
  lemma TrimUnchanged(s: string)
    requires |s| > 0 && !IsSpace(s[0]) && !IsSpace(s[|s| - 1])
    ensures Trim(s) == s
  {
  }

  /** A word made of a digit run and a non-digit remainder: trimming keeps it, and the digit run leads it. */
  lemma DigitsThen(digits: string, rest: string)
    requires |digits| > 0 && AllDigits(digits)
    requires |rest| > 0 && !IsDigit(rest[0]) && !IsSpace(rest[|rest| - 1])
    ensures Trim(digits + rest) == digits + rest
    ensures LeadingDigits(digits + rest) == |digits|
    ensures (digits + rest)[..|digits|] == digits && (digits + rest)[|digits|..] == rest
  {
    TrimUnchanged(digits + rest);
    LeadingDigitsConcat(digits, rest);
  }

  /** Decimal text of an integer, with a leading `-` when negative. */
  function IntToString(n: int): (s: string)
    ensures |s| > 0
  {
    if n < 0 then "-" + NatToString(-n) else NatToString(n)
  }

  /** The decimal text of an integer in range reads back as that integer. */
  lemma IntToStringParses(n: int, lo: int, hi: int)
    requires lo <= n <= hi
    ensures ParseSigned(IntToString(n), lo, hi) == Some(n)
  {
    var m: nat := if n < 0 then -n else n;
    NatToStringValue(m);
    var t := NatToString(m);
    assert IsDigit(t[0]);
    if n < 0 {
      assert IntToString(n)[1..] == t;
    }
  }

  /** Splitting parts joined by a separator they do not contain gives the parts back. */
  lemma {:induction false} SplitJoin(parts: seq<string>, sep: char)
    requires |parts| > 0 && forall k :: 0 <= k < |parts| ==> sep !in parts[k]
    ensures Split(Join(parts, [sep]), sep) == parts
    decreases |parts|
  {
    if |parts| == 1 {
      SplitNone(parts[0], sep);
    } else {
      SplitJoin(parts[1..], sep);
      SplitAt(parts[0], Join(parts[1..], [sep]), sep);
      assert parts == [parts[0]] + parts[1..];
    }
  }

  /** A join of non-empty parts starts with the first part's first character and ends with the last part's last one. */
  lemma {:induction false} JoinEnds(parts: seq<string>, sep: string)
    requires |parts| > 0 && forall k :: 0 <= k < |parts| ==> |parts[k]| > 0
    ensures |Join(parts, sep)| > 0
    ensures Join(parts, sep)[0] == parts[0][0]
    ensures Join(parts, sep)[|Join(parts, sep)| - 1] == parts[|parts| - 1][|parts[|parts| - 1]| - 1]
    decreases |parts|
  {
    if |parts| > 1 {
      assert |parts[1]| > 0;
      JoinEnds(parts[1..], sep);
    }
  }

  /** Joining one more part appends the separator and the part. */
  lemma {:induction false} JoinSnoc(parts: seq<string>, t: string, sep: string)
    ensures Join(parts + [t], sep) == if |parts| == 0 then t else Join(parts, sep) + sep + t
    decreases |parts|
  {
    if |parts| > 1 {
      assert (parts + [t])[1..] == parts[1..] + [t];
      JoinSnoc(parts[1..], t, sep);
    } else if |parts| == 1 {
      assert (parts + [t])[1..] == [t];
    }
  }

  /** A join of non-empty parts is empty exactly when there are no parts. */
  lemma JoinEmpty(parts: seq<string>, sep: string)
    requires forall k :: 0 <= k < |parts| ==> |parts[k]| > 0
    ensures |Join(parts, sep)| == 0 <==> |parts| == 0
  {
    if |parts| > 0 {
      assert |parts[0]| > 0;
    }
  }

  /** Blank text has no words, and text with a non-space character has at least one. */
  lemma WordsOfBlank(s: string)
    ensures |Words(s)| == 0 <==> IsBlank(s)
  {
    TrimBlank(s);
  }

  /**
   * Splitting trimmed text on whitespace runs (Kotlin's
   * `trim().split(Regex("\\s+"))`, JavaScript's `trim().split(/\s+/)`):
   * the words, except that blank text gives one empty piece.
   */
  function SplitTrimmed(s: string): (r: seq<string>)
    ensures |r| > 0
    ensures IsBlank(s) ==> r == [""]
    ensures !IsBlank(s) ==> forall k :: 0 <= k < |r| ==> IsWord(r[k])
  {
    WordsOfBlank(s);
    if IsBlank(s) then [""] else Words(s)
  }

  /** A single word is its own only piece. */
  lemma SplitWord(w: string)
    requires IsWord(w)
    ensures Words(w) == [w] && SplitTrimmed(w) == [w]
  {
    assert TrimStart(w) == w;
    assert TakeWord(w) == w;
    assert Words(w[|w|..]) == [];
  }

  /** One step and then k more land where k + 1 steps do. */
  lemma WrapStep(frame: nat, k: nat, n: nat)
    requires n > 0 && frame < n
    ensures ((frame + 1) % n + k) % n == (frame + k + 1) % n
  {
    if frame + 1 == n {
      assert (frame + 1) % n == 0;
      ModAddModulus(k, n);
    } else {
      assert (frame + 1) % n == frame + 1;
    }
  }

  /** Adding the modulus does not change the remainder. */
  lemma ModAddModulus(k: nat, n: nat)
    requires n > 0
    ensures (n + k) % n == k % n
  {
    var q1, r1 := (n + k) / n, (n + k) % n;
    var q2, r2 := k / n, k % n;
    var d := q2 + 1 - q1;
    assert d * n == r1 - r2 by {
      assert n + k == q1 * n + r1;
      assert k == q2 * n + r2;
      assert d * n == q2 * n + n - q1 * n;
    }
    if d >= 1 {
      MulAtLeast(d, n);
    } else if d <= -1 {
      MulAtLeast(-d, n);
    }
  }

  lemma MulAtLeast(d: int, n: int)
    requires d >= 1 && n > 0
    ensures d * n >= n
  {
  }
}
