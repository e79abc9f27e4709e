/**
 * The Python `str` operations that the Hatchery backend relies on, written
 * out over `seq<char>`: `startswith`, `endswith`, `in`, `split`, `strip`,
 * `rstrip`, `lower`, `title`, `replace`, slicing, `str(int)` and `int(str)`,
 * and the truthiness of an optional string.
 */
module PyStr {
  import opened Wrappers

  // ---------------------------------------------------------------- prefixes

  /** `s.startswith(p)` */
  predicate StartsWith(s: string, p: string) {
    |p| <= |s| && s[..|p|] == p
  }

  /** `s.endswith(p)` */
  predicate EndsWith(s: string, p: string) {
    |p| <= |s| && s[|s| - |p|..] == p
  }

  /** `p` occurs in `s` starting at index `i`. */
  predicate OccursAt(s: string, p: string, i: int) {
    0 <= i && i + |p| <= |s| && s[i..i + |p|] == p
  }

  /** `s.find(p, i)`, with `None` for -1: the leftmost occurrence of `p` at or after `i`. */
  function FindFrom(s: string, p: string, i: nat): (r: Option<nat>)
    requires i <= |s|
    ensures r.Some? ==> i <= r.value && OccursAt(s, p, r.value)
    ensures r.Some? ==> forall k :: i <= k < r.value ==> !OccursAt(s, p, k)
    ensures r.None? ==> forall k :: i <= k ==> !OccursAt(s, p, k)
    decreases |s| - i
  {
    if i + |p| > |s| then None
    else if s[i..i + |p|] == p then Some(i)
    else FindFrom(s, p, i + 1)
  }

  /** `s.find(p)`, with `None` for -1. */
  function Find(s: string, p: string): Option<nat> {
    FindFrom(s, p, 0)
  }

  /** `p in s` for strings. */
  predicate Contains(s: string, p: string) {
    Find(s, p).Some?
  }

  lemma ContainsIff(s: string, p: string)
    ensures Contains(s, p) <==> exists i :: OccursAt(s, p, i)
  {
  }

  lemma ContainsAt(s: string, p: string, i: int)
    requires OccursAt(s, p, i)
    ensures Contains(s, p)
  {
  }

  /** A string that begins with `p` contains it. */
  lemma StartsWithContains(s: string, p: string)
    requires StartsWith(s, p)
    ensures Contains(s, p)
  {
    assert OccursAt(s, p, 0);
  }

  /** `s[:n]` for a non-negative `n`. */
  function Take(s: string, n: nat): (r: string)
    ensures |r| == if |s| < n then |s| else n
    ensures StartsWith(s, r)
  {
    if |s| <= n then s else s[..n]
  }

  // ------------------------------------------------------------ split / join

  /** `s.split(sep)` for a non-empty separator. */
  function Split(s: string, sep: string): (parts: seq<string>)
    requires sep != []
    ensures |parts| >= 1
    decreases |s|
  {
    match Find(s, sep)
    case None => [s]
    case Some(i) => [s[..i]] + Split(s[i + |sep|..], sep)
  }

  /** `sep.join(parts)` */
  function Join(parts: seq<string>, sep: string): string {
    if parts == [] then ""
    else if |parts| == 1 then parts[0]
    else parts[0] + sep + Join(parts[1..], sep)
  }

  /** Splitting and joining again gives back the string. */
  lemma {:induction false} JoinSplit(s: string, sep: string)
    requires sep != []
    ensures Join(Split(s, sep), sep) == s
    decreases |s|
  {
    match Find(s, sep)
    case None =>
    case Some(i) =>
      var rest := s[i + |sep|..];
      var tail := Split(rest, sep);
      JoinSplit(rest, sep);
      assert Split(s, sep) == [s[..i]] + tail;
      assert Join(Split(s, sep), sep) == s[..i] + sep + Join(tail, sep);
      assert s == s[..i] + sep + rest by {
        assert s[i..i + |sep|] == sep;
        assert s == s[..i] + s[i..i + |sep|] + s[i + |sep|..];
      }
  }

  /** No piece of a split contains the separator. */
  lemma {:induction false} SplitPiecesFree(s: string, sep: string, k: nat)
    requires sep != [] && k < |Split(s, sep)|
    ensures !Contains(Split(s, sep)[k], sep)
    decreases |s|
  {
    match Find(s, sep)
    case None =>
    case Some(i) =>
      if k == 0 {
        if Contains(s[..i], sep) {
          var j := Find(s[..i], sep).value;
          assert s[..i][j..j + |sep|] == s[j..j + |sep|];
          assert OccursAt(s, sep, j);
        }
      } else {
        SplitPiecesFree(s[i + |sep|..], sep, k - 1);
      }
  }

  /**
   * The first two pieces of `s.split(sep)`: the text before the first
   * separator, and (when there is one) the text between the first and the
   * second separator or the end.
   */
  lemma SplitHead(s: string, sep: string)
    requires sep != []
    ensures Find(s, sep).None? ==> Split(s, sep) == [s]
    ensures Find(s, sep).Some? ==>
      var i := Find(s, sep).value;
      var rest := s[i + |sep|..];
      |Split(s, sep)| >= 2 && Split(s, sep)[0] == s[..i] &&
      Split(s, sep)[1] == (match Find(rest, sep) case Some(j) => rest[..j] case None => rest)
  {
    match Find(s, sep)
    case None =>
    case Some(i) =>
      var rest := s[i + |sep|..];
      match Find(rest, sep)
      case None =>
      case Some(j) =>
  }

  // -------------------------------------------------------------- whitespace

  /** `c.isspace()`: the characters Python's `strip()` and `int()` treat as whitespace. */
  predicate IsSpace(c: char) {
    ('\t' <= c <= '\r') || ('\U{1c}' <= c <= '\U{1f}') || c == ' ' || c == '\U{85}' || c == '\U{a0}'
    || c == '\U{1680}' || ('\U{2000}' <= c <= '\U{200a}') || c == '\U{2028}' || c == '\U{2029}'
    || c == '\U{202f}' || c == '\U{205f}' || c == '\U{3000}'
  }

  /** Neither end of `s` is whitespace. */
  predicate Trimmed(s: string) {
    s == [] || (!IsSpace(s[0]) && !IsSpace(s[|s| - 1]))
  }

  function LStrip(s: string): (r: string)
    ensures |r| <= |s| && r == s[|s| - |r|..]
    ensures r == [] || !IsSpace(r[0])
    ensures forall k :: 0 <= k < |s| - |r| ==> IsSpace(s[k])
  {
    if s != [] && IsSpace(s[0]) then LStrip(s[1..]) else s
  }

  function RStrip(s: string): (r: string)
    ensures |r| <= |s| && r == s[..|r|]
    ensures r == [] || !IsSpace(r[|r| - 1])
    ensures forall k :: |r| <= k < |s| ==> IsSpace(s[k])
  {
    if s != [] && IsSpace(s[|s| - 1]) then RStrip(s[..|s| - 1]) else s
  }

  /** `s.strip()`: drops whitespace from both ends and keeps the middle as it is. */
  function Strip(s: string): (r: string)
    ensures Trimmed(r)
    ensures |r| <= |s|
  {
    LStrip(RStrip(s))
  }

  /** A string whose ends are not whitespace is left alone by `strip()`. */
  lemma StripTrimmed(s: string)
    requires Trimmed(s)
    ensures Strip(s) == s
  {
  }

  /** `strip()` is idempotent. */
  lemma StripIdempotent(s: string)
    ensures Strip(Strip(s)) == Strip(s)
  {
    StripTrimmed(Strip(s));
  }

  /** `s.rstrip(c)` for a single character: drops every trailing `c`. */
  function RStripChar(s: string, c: char): (r: string)
    ensures |r| <= |s| && r == s[..|r|]
    ensures r == [] || r[|r| - 1] != c
    ensures forall k :: |r| <= k < |s| ==> s[k] == c
  {
    if s != [] && s[|s| - 1] == c then RStripChar(s[..|s| - 1], c) else s
  }

  // -------------------------------------------------------------------- case

  predicate IsAsciiLetter(c: char) {
    'a' <= c <= 'z' || 'A' <= c <= 'Z'
  }

  function LowerChar(c: char): char {
    if 'A' <= c <= 'Z' then (c as int + 32) as char else c
  }

  function UpperChar(c: char): char {
    if 'a' <= c <= 'z' then (c as int - 32) as char else c
  }

  /** `s.lower()` on the ASCII letters. */
  function Lower(s: string): (r: string)
    ensures |r| == |s|
    ensures forall k :: 0 <= k < |s| ==> r[k] == LowerChar(s[k])
  {
    seq(|s|, k requires 0 <= k < |s| => LowerChar(s[k]))
  }

  /**
   * `s.title()` on ASCII text: a letter is upper-cased when the character
   * before it is not a letter, and lower-cased otherwise.
   */
  function TitleFrom(s: string, afterLetter: bool): (r: string)
    ensures |r| == |s|
  {
    if s == [] then []
    else
      var c := s[0];
      var c' := if !IsAsciiLetter(c) then c else if afterLetter then LowerChar(c) else UpperChar(c);
      [c'] + TitleFrom(s[1..], IsAsciiLetter(c))
  }

  function Title(s: string): string {
    TitleFrom(s, false)
  }

  /** Title-casing changes only the case of letters. */
  lemma {:induction false} LowerTitleFrom(s: string, afterLetter: bool)
    ensures Lower(TitleFrom(s, afterLetter)) == Lower(s)
  {
    if s != [] {
      LowerTitleFrom(s[1..], IsAsciiLetter(s[0]));
      assert Lower(TitleFrom(s, afterLetter))[1..] == Lower(TitleFrom(s[1..], IsAsciiLetter(s[0])));
      assert Lower(s)[1..] == Lower(s[1..]);
    }
  }

  /** Title-casing twice is the same as once. */
  lemma {:induction false} TitleFromIdempotent(s: string, afterLetter: bool)
    ensures TitleFrom(TitleFrom(s, afterLetter), afterLetter) == TitleFrom(s, afterLetter)
  {
    if s != [] {
      TitleFromIdempotent(s[1..], IsAsciiLetter(s[0]));
      var t := TitleFrom(s, afterLetter);
      assert t[1..] == TitleFrom(s[1..], IsAsciiLetter(s[0]));
      assert IsAsciiLetter(t[0]) == IsAsciiLetter(s[0]);
    }
  }

  /** `s.replace(a, b)` for single characters. */
  function ReplaceChar(s: string, a: char, b: char): (r: string)
    ensures |r| == |s|
    ensures forall k :: 0 <= k < |s| ==> r[k] == if s[k] == a then b else s[k]
  {
    seq(|s|, k requires 0 <= k < |s| => if s[k] == a then b else s[k])
  }

  /** `s.replace(pat, rep)`: every non-overlapping occurrence, scanning from the left. */
  function ReplaceAll(s: string, pat: string, rep: string): string
    requires pat != []
    decreases |s|
  {
    if |s| < |pat| then s
    else if s[..|pat|] == pat then rep + ReplaceAll(s[|pat|..], pat, rep)
    else [s[0]] + ReplaceAll(s[1..], pat, rep)
  }

  /** `replace` changes nothing when `pat` does not occur. */
  lemma {:induction false} ReplaceAllAbsent(s: string, pat: string, rep: string)
    requires pat != [] && !Contains(s, pat)
    ensures ReplaceAll(s, pat, rep) == s
    decreases |s|
  {
    if |s| >= |pat| {
      assert !OccursAt(s, pat, 0);
      forall k | OccursAt(s[1..], pat, k) ensures false {
        assert s[1..][k..k + |pat|] == s[k + 1..k + 1 + |pat|];
        assert OccursAt(s, pat, k + 1);
      }
      ReplaceAllAbsent(s[1..], pat, rep);
    }
  }

  // ---------------------------------------------------------------- integers

  predicate IsDigit(c: char) {
    '0' <= c <= '9'
  }

  function DigitChar(d: nat): (c: char)
    requires d < 10
    ensures IsDigit(c)
  {
    ('0' as int + d) as char
  }

  /** `str(n)` for `n >= 0`: decimal, no leading zeros. */
  function NatToString(n: nat): (r: string)
    ensures |r| >= 1
    ensures forall k :: 0 <= k < |r| ==> IsDigit(r[k])
    ensures (r[0] == '0') == (n == 0)
  {
    if n < 10 then [DigitChar(n)] else NatToString(n / 10) + [DigitChar(n % 10)]
  }

  /** `str(n)` */
  function IntToString(n: int): string {
    if n < 0 then "-" + NatToString(-n) else NatToString(n)
  }

  /** Digits with single underscores between them: what `int()` accepts after the sign. */
  predicate IsDigitGroup(b: string) {
    && |b| > 0
    && IsDigit(b[0])
    && IsDigit(b[|b| - 1])
    && forall k :: 0 <= k < |b| ==>
         IsDigit(b[k]) || (b[k] == '_' && 0 < k < |b| - 1 && IsDigit(b[k - 1]) && IsDigit(b[k + 1]))
  }

  /** The decimal value of a digit group, ignoring the underscores. */
  function DigitsValue(b: string): nat {
    if b == [] then 0
    else
      var last := b[|b| - 1];
      if IsDigit(last) then DigitsValue(b[..|b| - 1]) * 10 + (last as int - '0' as int)
      else DigitsValue(b[..|b| - 1])
  }

  /**
   * `int(s)` for a `str` argument in base 10: surrounding whitespace, an
   * optional sign, then a digit group. `None` where Python raises ValueError.
   */
  function ParseInt(s: string): Option<int> {
    ParseSigned(Strip(s))
  }

  /** `int()` once the surrounding whitespace is gone. */
  function ParseSigned(t: string): Option<int> {
    if |t| > 0 && (t[0] == '-' || t[0] == '+') then
      if IsDigitGroup(t[1..]) then
        Some(if t[0] == '-' then -(DigitsValue(t[1..]) as int) else DigitsValue(t[1..]))
      else None
    else if IsDigitGroup(t) then Some(DigitsValue(t))
    else None
  }

  lemma {:induction false} DigitsValueOfNat(n: nat)
    ensures DigitsValue(NatToString(n)) == n
    decreases n
  {
    var s := NatToString(n);
    if n >= 10 {
      DigitsValueOfNat(n / 10);
      assert s[..|s| - 1] == NatToString(n / 10);
    }
  }

  lemma DigitIsNotSpaceOrSign(c: char)
    requires IsDigit(c)
    ensures !IsSpace(c) && c != '-' && c != '+'
  {
  }

  /** A digit group with no sign in front reads as its value. */
  lemma ParseSignedGroup(d: string)
    requires IsDigitGroup(d)
    ensures ParseSigned(d) == Some(DigitsValue(d) as int)
    ensures ParseSigned("-" + d) == Some(-(DigitsValue(d) as int))
  {
    DigitIsNotSpaceOrSign(d[0]);
    assert ("-" + d)[1..] == d;
  }

  /** Text that ends in a digit and starts with a digit or a sign has no whitespace to strip. */
  lemma StripDigitEnds(s: string)
    requires |s| > 0 && (IsDigit(s[0]) || s[0] == '-') && IsDigit(s[|s| - 1])
    ensures ParseInt(s) == ParseSigned(s)
  {
    if IsDigit(s[0]) {
      DigitIsNotSpaceOrSign(s[0]);
    }
    DigitIsNotSpaceOrSign(s[|s| - 1]);
    StripTrimmed(s);
  }

  /** A non-empty run of decimal digits parses to its value, with or without a minus sign. */
  lemma ParseDigits(d: string)
    requires |d| > 0 && forall k :: 0 <= k < |d| ==> IsDigit(d[k])
    ensures ParseInt(d) == Some(DigitsValue(d) as int)
    ensures ParseInt("-" + d) == Some(-(DigitsValue(d) as int))
  {
    assert IsDigitGroup(d);
    ParseSignedGroup(d);
    StripDigitEnds(d);
    var m := "-" + d;
    assert m[|m| - 1] == d[|d| - 1];
    StripDigitEnds(m);
  }

  /** `int(str(n)) == n` for every integer. */
  lemma ParseIntOfIntToString(n: int)
    ensures ParseInt(IntToString(n)) == Some(n)
  {
    var m: nat := if n < 0 then -n else n;
    var d := NatToString(m);
    ParseDigits(d);
    DigitsValueOfNat(m);
    assert IntToString(n) == if n < 0 then "-" + d else d;
  }

  /** Distinct integers print differently. */
  lemma IntToStringInjective(a: int, b: int)
    requires a != b
    ensures IntToString(a) != IntToString(b)
  {
    ParseIntOfIntToString(a);
    ParseIntOfIntToString(b);
  }

  // ------------------------------------------------------------- truthiness

  /** Python truthiness of an optional string: present and non-empty. */
  predicate Truthy(o: Option<string>) {
    o.Some? && o.value != ""
  }

  /** `o or default` for an optional string. */
  function Or(o: Option<string>, default: string): (r: string)
    ensures Truthy(o) ==> r == o.value
    ensures !Truthy(o) ==> r == default
  {
    if Truthy(o) then o.value else default
  }
}
