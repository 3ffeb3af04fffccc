/**
 * Characters, strings and the few Java library calls the notifiers apply to chat text,
 * plus the two search orders of `java.util.regex` that the pattern recognisers follow.
 */
module Text {
  import opened Wrappers

  /** `Integer.MAX_VALUE` and `Integer.MIN_VALUE`. */
  const INT_MAX: int := 0x7fff_ffff
  const INT_MIN: int := -0x8000_0000

  /** A Java `int`. */
  type int32 = x: int | INT_MIN <= x <= INT_MAX

  // Character classes of java.util.regex without the UNICODE_CHARACTER_CLASS flag.

  /** The characters that `.` does not match. */
  predicate IsLineTerminator(c: char) {
    c == '\n' || c == '\r' || c == '\U{85}' || c == '\U{2028}' || c == '\U{2029}'
  }

  /** `\s` */
  predicate IsSpace(c: char) {
    c == ' ' || c == '\t' || c == '\n' || c == '\U{0B}' || c == '\U{0C}' || c == '\r'
  }

  /** `\d` */
  predicate IsDigit(c: char) {
    '0' <= c <= '9'
  }

  /** `[\d,]` */
  predicate IsDigitOrComma(c: char) {
    IsDigit(c) || c == ','
  }

  /** `[\d:]` */
  predicate IsDigitOrColon(c: char) {
    IsDigit(c) || c == ':'
  }

  /** A word character for `\b`, restricted to ASCII. */
  predicate IsWordChar(c: char) {
    'a' <= c <= 'z' || 'A' <= c <= 'Z' || IsDigit(c) || c == '_'
  }

  predicate NoTerminators(s: string) {
    forall k :: 0 <= k < |s| ==> !IsLineTerminator(s[k])
  }

  predicate AllDigits(s: string) {
    forall k :: 0 <= k < |s| ==> IsDigit(s[k])
  }

  predicate AllDigitsOrCommas(s: string) {
    forall k :: 0 <= k < |s| ==> IsDigitOrComma(s[k])
  }

  // ASCII case mapping. Java's CASE_INSENSITIVE flag without UNICODE_CASE folds exactly these.

  function LowerChar(c: char): char {
    if 'A' <= c <= 'Z' then (c as int + 32) as char else c
  }

  function UpperChar(c: char): char {
    if 'a' <= c <= 'z' then (c as int - 32) as char else c
  }

  function Lower(s: string): (r: string)
    ensures |r| == |s|
    ensures forall k :: 0 <= k < |s| ==> r[k] == LowerChar(s[k])
  {
    seq(|s|, k requires 0 <= k < |s| => LowerChar(s[k]))
  }

  function Upper(s: string): (r: string)
    ensures |r| == |s|
    ensures forall k :: 0 <= k < |s| ==> r[k] == UpperChar(s[k])
  {
    seq(|s|, k requires 0 <= k < |s| => UpperChar(s[k]))
  }

  /** `String.equalsIgnoreCase`, folding ASCII letters. */
  predicate EqualsIgnoreCase(a: string, b: string) {
    Lower(a) == Lower(b)
  }

  /** `p` occurs in `s` starting at index `i`. */
  predicate HasAt(s: string, i: int, p: string) {
    0 <= i && i + |p| <= |s| && s[i..i + |p|] == p
  }

  /** A pattern found at `i` fixes the character at each of its offsets. */
  lemma HasAtChar(s: string, i: int, p: string, k: int)
    requires 0 <= k < |p|
    ensures HasAt(s, i, p) ==> s[i + k] == p[k]
  {
    if HasAt(s, i, p) {
      assert s[i..i + |p|][k] == s[i + k];
    }
  }

  /** `p` occurs in `s` at `i` when ASCII case is ignored; `p` is given in lower case. */
  predicate HasAtIgnoreCase(s: string, i: int, p: string) {
    0 <= i && i + |p| <= |s| && Lower(s[i..i + |p|]) == p
  }

  predicate StartsWith(s: string, p: string) {
    HasAt(s, 0, p)
  }

  predicate EndsWith(s: string, p: string) {
    HasAt(s, |s| - |p|, p)
  }

  /** `String.contains` */
  predicate Contains(s: string, p: string) {
    exists i :: 0 <= i <= |s| && HasAt(s, i, p)
  }

  /** The end of the longest run of characters satisfying `P` that starts at `i`. */
  function RunEnd(s: string, i: int, P: char -> bool): (j: int)
    requires 0 <= i <= |s|
    decreases |s| - i
    ensures i <= j <= |s|
    ensures forall k :: i <= k < j ==> P(s[k])
    ensures j < |s| ==> !P(s[j])
  {
    if i == |s| || !P(s[i]) then i else RunEnd(s, i + 1, P)
  }

  /** `v` is a non-empty run of characters satisfying `P` at `i` that cannot be extended. */
  ghost predicate MaximalRun(s: string, i: int, v: string, P: char -> bool) {
    && |v| >= 1 && HasAt(s, i, v)
    && (forall k :: 0 <= k < |v| ==> P(v[k]))
    && (i + |v| == |s| || !P(s[i + |v|]))
  }

  /** A run bounded by a character outside `P` (or by the end) is the longest run. */
  lemma {:induction false} RunEndUnique(s: string, i: int, j: int, P: char -> bool)
    requires 0 <= i <= j <= |s|
    requires forall k :: i <= k < j ==> P(s[k])
    requires j == |s| || !P(s[j])
    ensures RunEnd(s, i, P) == j
    decreases j - i
  {
    if i < j {
      RunEndUnique(s, i + 1, j, P);
    }
  }

  /** Where the line that contains index `i` ends: how far `.` can reach from `i`. */
  function LineEnd(s: string, i: int): (j: int)
    requires 0 <= i <= |s|
    ensures i <= j <= |s|
    ensures NoTerminators(s[i..j])
  {
    var j := RunEnd(s, i, c => !IsLineTerminator(c));
    assert forall k :: 0 <= k < j - i ==> s[i..j][k] == s[i + k];
    j
  }

  /** A stretch without line terminators never reaches past the line's end. */
  lemma LineEndBounds(s: string, i: int, j: int)
    requires 0 <= i <= j <= |s|
    requires NoTerminators(s[i..j])
    ensures j <= LineEnd(s, i)
  {
  }

  /** Every part of a stretch without line terminators is without them too. */
  lemma NoTerminatorsPrefix(s: string, a: int, i: int, e: int)
    requires 0 <= a <= i <= e <= |s|
    requires NoTerminators(s[a..e])
    ensures NoTerminators(s[a..i])
  {
    forall k | 0 <= k < i - a
      ensures !IsLineTerminator(s[a..i][k])
    {
      assert s[a..i][k] == s[a..e][k];
    }
  }

  /** A run of characters from `P` that `s` holds at `e`, ended by a character outside `P`, is where RunEnd stops. */
  lemma RunEndOf(s: string, e: int, v: string, P: char -> bool)
    requires HasAt(s, e, v)
    requires forall k :: 0 <= k < |v| ==> P(v[k])
    requires e + |v| == |s| || !P(s[e + |v|])
    ensures RunEnd(s, e, P) == e + |v|
  {
    forall k | e <= k < e + |v|
      ensures P(s[k])
    {
      assert s[e..e + |v|][k - e] == s[k];
    }
    RunEndUnique(s, e, e + |v|, P);
  }

  /** Java's `%` on `int`, which truncates toward zero (Dafny's `%` is Euclidean). */
  function JavaRem(a: int, b: int): (r: int)
    requires b != 0
  {
    var m := if b < 0 then -b else b;
    if a >= 0 then a % m else -((-a) % m)
  }

  /** Java's `$` without MULTILINE: at the end of input, or before a final line terminator. */
  predicate DollarAt(s: string, i: int) {
    || i == |s|
    || (i == |s| - 1 && 0 <= i && IsLineTerminator(s[i]) && !(s[i] == '\n' && i > 0 && s[i - 1] == '\r'))
    || (i == |s| - 2 && 0 <= i && s[i] == '\r' && s[i + 1] == '\n')
  }

  /**
   * Tries `f(hi)`, `f(hi - 1)`, ..., `f(lo)` and returns the first success: the order in which a
   * greedy quantifier gives characters back while the rest of the pattern fails.
   */
  function Greedy<T>(lo: int, hi: int, f: int -> Option<T>): (r: Option<T>)
    decreases hi - lo
    ensures r.Some? ==> exists i :: lo <= i <= hi && f(i) == r
    ensures r.None? ==> forall i :: lo <= i <= hi ==> f(i).None?
  {
    if hi < lo then None
    else if f(hi).Some? then f(hi)
    else Greedy(lo, hi - 1, f)
  }

  /** The position at which a successful greedy search stopped: every later end fails. */
  lemma {:induction false} GreedyAt<T>(lo: int, hi: int, f: int -> Option<T>) returns (i: int)
    requires Greedy(lo, hi, f).Some?
    decreases hi - lo
    ensures lo <= i <= hi && f(i) == Greedy(lo, hi, f)
    ensures forall j :: i < j <= hi ==> f(j).None?
  {
    if f(hi).Some? {
      i := hi;
    } else {
      i := GreedyAt(lo, hi - 1, f);
    }
  }

  /** A greedy search succeeds when some end in its range does. */
  lemma GreedyFinds<T>(lo: int, hi: int, f: int -> Option<T>, e: int)
    requires lo <= e <= hi && f(e).Some?
    ensures Greedy(lo, hi, f).Some?
  {
  }

  /**
   * Tries `f(lo)`, `f(lo + 1)`, ..., `f(hi)` and returns the first success: `Matcher.find`,
   * which reports the match that starts leftmost.
   */
  function Leftmost<T>(lo: int, hi: int, f: int -> Option<T>): (r: Option<T>)
    decreases hi - lo
    ensures r.Some? ==> exists i :: lo <= i <= hi && f(i) == r
    ensures r.None? ==> forall i :: lo <= i <= hi ==> f(i).None?
  {
    if hi < lo then None
    else if f(lo).Some? then f(lo)
    else Leftmost(lo + 1, hi, f)
  }

  /** The position at which a successful leftmost search stopped: every earlier start fails. */
  lemma {:induction false} LeftmostAt<T>(lo: int, hi: int, f: int -> Option<T>) returns (i: int)
    requires Leftmost(lo, hi, f).Some?
    decreases hi - lo
    ensures lo <= i <= hi && f(i) == Leftmost(lo, hi, f)
    ensures forall j :: lo <= j < i ==> f(j).None?
  {
    if f(lo).Some? {
      i := lo;
    } else {
      i := LeftmostAt(lo + 1, hi, f);
    }
  }

  /** `String.trim`: drops every character up to U+0020 at both ends. */
  function TrimStart(s: string): (r: string)
    ensures |r| <= |s| && r == s[|s| - |r|..]
    ensures r == [] || r[0] > ' '
    ensures forall k :: 0 <= k < |s| - |r| ==> s[k] <= ' '
  {
    if |s| > 0 && s[0] <= ' ' then TrimStart(s[1..]) else s
  }

  function TrimEnd(s: string): (r: string)
    ensures |r| <= |s| && r == s[..|r|]
    ensures r == [] || r[|r| - 1] > ' '
    ensures forall k :: |r| <= k < |s| ==> s[k] <= ' '
  {
    if |s| > 0 && s[|s| - 1] <= ' ' then TrimEnd(s[..|s| - 1]) else s
  }

  function Trim(s: string): string {
    TrimEnd(TrimStart(s))
  }

  /** `s.replace(String.valueOf(c), "")` */
  function Remove(s: string, c: char): (r: string)
    ensures forall k :: 0 <= k < |r| ==> r[k] != c
    ensures forall k :: 0 <= k < |s| && s[k] != c ==> s[k] in r
    ensures multiset(r) == multiset(s)[c := 0]
    ensures c !in s ==> r == s
  {
    if s == [] then []
    else if s[0] == c then
      assert s == [s[0]] + s[1..];
      Remove(s[1..], c)
    else
      assert s == [s[0]] + s[1..];
      [s[0]] + Remove(s[1..], c)
  }

  /** Removal works piece by piece, so the characters that stay keep their order. */
  lemma {:induction false} RemoveAppend(a: string, b: string, c: char)
    ensures Remove(a + b, c) == Remove(a, c) + Remove(b, c)
  {
    if a == [] {
      assert a + b == b;
    } else {
      assert (a + b)[0] == a[0] && (a + b)[1..] == a[1..] + b;
      RemoveAppend(a[1..], b, c);
    }
  }

  /** `s.indexOf(c)`: the first index of `c`, or -1. */
  function IndexOf(s: string, c: char): (r: int)
    ensures -1 <= r < |s|
    ensures r == -1 <==> c !in s
    ensures 0 <= r ==> s[r] == c && c !in s[..r]
  {
    if s == [] then -1
    else if s[0] == c then 0
    else var r := IndexOf(s[1..], c); if r == -1 then -1 else r + 1
  }

  /** `s.lastIndexOf(c)`: the last index of `c`, or -1. */
  function LastIndexOf(s: string, c: char): (r: int)
    ensures -1 <= r < |s|
    ensures r == -1 <==> c !in s
    ensures 0 <= r ==> s[r] == c && c !in s[r + 1..]
  {
    if s == [] then -1
    else if s[|s| - 1] == c then |s| - 1
    else
      var init := s[..|s| - 1];
      var r := LastIndexOf(init, c);
      assert s == init + [s[|s| - 1]];
      assert 0 <= r ==> s[r + 1..] == init[r + 1..] + [s[|s| - 1]];
      r
  }

  /** The value of a string of ASCII digits, most significant first. */
  function DigitsValue(s: string): nat
    requires AllDigits(s)
  {
    if s == [] then 0 else 10 * DigitsValue(s[..|s| - 1]) + (s[|s| - 1] as int - '0' as int)
  }

  /**
   * `Integer.parseInt` on the strings the patterns let through, which hold ASCII digits only:
   * absent (a NumberFormatException) when the string is empty, holds anything but digits, or
   * exceeds `Integer.MAX_VALUE`.
   */
  function ParseInt(s: string): (r: Option<int32>)
    ensures r.Some? <==> |s| > 0 && AllDigits(s) && DigitsValue(s) <= INT_MAX
    ensures r.Some? ==> r.value >= 0 && r.value == DigitsValue(s)
  {
    if |s| > 0 && AllDigits(s) && DigitsValue(s) <= INT_MAX then Some(DigitsValue(s)) else None
  }
}
