/** The few java.lang.String and StringUtils operations the workflow code relies on. */
module Strings {
  import opened Wrappers

  /** StringUtils.hasContent: not null and not blank after trimming characters up to ' '. */
  predicate HasContent(s: Option<string>)
  {
    s.Some? && exists i :: 0 <= i < |s.value| && s.value[i] > ' '
  }

  /** String concatenation renders null as "null". */
  function JavaStr(s: Option<string>): (r: string)
    ensures s.Some? ==> r == s.value
    ensures s.None? ==> r == "null"
  {
    if s.Some? then s.value else "null"
  }

  predicate StartsWith(s: string, prefix: string)
  {
    |prefix| <= |s| && s[..|prefix|] == prefix
  }

  /** String.indexOf(char): the first position of c, if any. */
  function IndexOf(s: string, c: char): (r: Option<nat>)
    ensures r.Some? ==> r.value < |s| && s[r.value] == c && forall k :: 0 <= k < r.value ==> s[k] != c
    ensures r.None? ==> forall k :: 0 <= k < |s| ==> s[k] != c
  {
    if |s| == 0 then None
    else if s[0] == c then Some(0)
    else match IndexOf(s[1..], c)
      case None => None
      case Some(k) => Some(k + 1)
  }

  /** What follows the first c in s, or s itself when c does not occur. */
  function AfterFirst(s: string, c: char): (r: string)
    ensures IndexOf(s, c).None? ==> r == s
    ensures IndexOf(s, c).Some? ==> s == s[..IndexOf(s, c).value] + [c] + r
  {
    match IndexOf(s, c)
    case None => s
    case Some(k) => s[k + 1..]
  }

  /**
   * String.replace(CharSequence, CharSequence): every non-overlapping occurrence of
   * target, scanning from the left, is replaced by replacement.
   */
  function ReplaceAll(s: string, target: string, replacement: string): string
    requires |target| > 0
    decreases |s|
  {
    if |s| == 0 then ""
    else if StartsWith(s, target) then replacement + ReplaceAll(s[|target|..], target, replacement)
    else [s[0]] + ReplaceAll(s[1..], target, replacement)
  }

  /** A prefix in which no occurrence of target starts passes through ReplaceAll untouched. */
  lemma {:induction false} ReplaceAllFreePrefix(x: string, rest: string, target: string, replacement: string)
    requires |target| > 0
    requires forall i :: 0 <= i < |x| ==> !StartsWith((x + rest)[i..], target)
    ensures ReplaceAll(x + rest, target, replacement) == x + ReplaceAll(rest, target, replacement)
    decreases |x|
  {
    if |x| > 0 {
      assert !StartsWith((x + rest)[0..], target);
      assert (x + rest)[0..] == x + rest;
      assert (x + rest)[1..] == x[1..] + rest;
      forall i | 0 <= i < |x[1..]|
        ensures !StartsWith((x[1..] + rest)[i..], target)
      {
        assert (x[1..] + rest)[i..] == (x + rest)[i + 1..];
      }
      ReplaceAllFreePrefix(x[1..], rest, target, replacement);
      assert x == [x[0]] + x[1..];
    } else {
      assert x + rest == rest;
    }
  }

  /** When target does not occur at all, ReplaceAll leaves the string unchanged. */
  lemma ReplaceAllAbsent(s: string, target: string, replacement: string)
    requires |target| > 0
    requires forall i :: 0 <= i < |s| ==> !StartsWith(s[i..], target)
    ensures ReplaceAll(s, target, replacement) == s
  {
    assert s + "" == s;
    ReplaceAllFreePrefix(s, "", target, replacement);
  }

  function DigitChar(d: nat): (c: char)
    requires d < 10
    ensures '0' <= c <= '9'
  {
    "0123456789"[d]
  }

  /** Integer.toString for a non-negative number. */
  function NatToString(n: nat): (r: string)
    ensures |r| > 0
    ensures forall k :: 0 <= k < |r| ==> '0' <= r[k] <= '9'
    ensures n < 10 ==> r == [DigitChar(n)]
  {
    if n < 10 then [DigitChar(n)] else NatToString(n / 10) + [DigitChar(n % 10)]
  }

  /** Integer.toString. */
  function IntToString(n: int): (r: string)
    ensures n >= 0 ==> r == NatToString(n)
    ensures n < 0 ==> r == "-" + NatToString(-n)
  {
    if n >= 0 then NatToString(n) else "-" + NatToString(-n)
  }

  /** StringUtils.join: the parts in order, with sep between neighbours. */
  function Join(sep: string, parts: seq<string>): string
  {
    if |parts| == 0 then "" else if |parts| == 1 then parts[0] else parts[0] + sep + Join(sep, parts[1..])
  }

  /** StringUtils.plural: "" for exactly one, "s" otherwise. */
  function Plural(n: nat): string
  {
    if n == 1 then "" else "s"
  }
}
