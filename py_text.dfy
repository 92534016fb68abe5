/** The string operations the scripts call: `str.lower`, `str.strip`,
    `str.endswith` and `os.path.dirname`, over ASCII text. */
module PyText {

  predicate IsAsciiUpper(c: char) {
    'A' <= c <= 'Z'
  }

  function LowerChar(c: char): (d: char)
    ensures !IsAsciiUpper(d)
    ensures IsAsciiUpper(c) ==> d as int == c as int + 32
    ensures !IsAsciiUpper(c) ==> d == c
  {
    if IsAsciiUpper(c) then (c as int + 32) as char else c
  }

  /** `s.lower()`, folding only the ASCII capitals. */
  function Lower(s: string): (r: string)
    ensures |r| == |s|
    ensures forall i :: 0 <= i < |s| ==> r[i] == LowerChar(s[i])
  {
    if s == [] then [] else [LowerChar(s[0])] + Lower(s[1..])
  }

  predicate HasNoUpper(s: string) {
    forall i :: 0 <= i < |s| ==> !IsAsciiUpper(s[i])
  }

  /** Lowering twice is lowering once. */
  lemma {:induction false} LowerIdempotent(s: string)
    ensures Lower(Lower(s)) == Lower(s)
  {
    if s != [] {
      LowerIdempotent(s[1..]);
      assert Lower(s) == [LowerChar(s[0])] + Lower(s[1..]);
      assert Lower(s)[1..] == Lower(s[1..]);
    }
  }

  /** The characters `str.strip()` removes, restricted to ASCII: space, tab,
      line feed, vertical tab, form feed, carriage return and the four
      information separators 0x1C-0x1F. */
  predicate IsSpace(c: char) {
    c == ' ' || 9 <= c as int <= 13 || 28 <= c as int <= 31
  }

  predicate AllSpace(s: string) {
    forall i :: 0 <= i < |s| ==> IsSpace(s[i])
  }

  lemma AllSpaceSplit(s: string, i: nat)
    requires i <= |s| && AllSpace(s[..i]) && AllSpace(s[i..])
    ensures AllSpace(s)
  {
    forall k | i <= k < |s| ensures IsSpace(s[k]) {
      assert s[k] == s[i..][k - i];
    }
  }

  /** Where `lstrip()` cuts `s`: the end of its leading whitespace, scanning
      from `i`, all of whose predecessors are whitespace. */
  function LStripCut(s: string, i: nat): (n: nat)
    requires i <= |s| && forall k :: 0 <= k < i ==> IsSpace(s[k])
    ensures i <= n <= |s|
    ensures forall k :: 0 <= k < n ==> IsSpace(s[k])
    ensures n == |s| || !IsSpace(s[n])
    decreases |s| - i
  {
    if i == |s| || !IsSpace(s[i]) then i else LStripCut(s, i + 1)
  }

  /** Where `rstrip()` cuts `s[lo..]`: the start of its trailing whitespace,
      scanning down from `j`, all of whose successors are whitespace. */
  function RStripCut(s: string, lo: nat, j: nat): (m: nat)
    requires lo <= j <= |s| && forall k :: j <= k < |s| ==> IsSpace(s[k])
    ensures lo <= m <= j
    ensures forall k :: m <= k < |s| ==> IsSpace(s[k])
    ensures m == lo || !IsSpace(s[m - 1])
    decreases j - lo
  {
    if j == lo || !IsSpace(s[j - 1]) then j else RStripCut(s, lo, j - 1)
  }

  /** `s.strip()`: the text between the leading and the trailing whitespace. */
  function Strip(s: string): (r: string)
    ensures r == [] <==> AllSpace(s)
    ensures r != [] ==> !IsSpace(r[0]) && !IsSpace(r[|r| - 1])
    // r is what lies between a blank prefix and a blank suffix of s
    ensures exists i :: 0 <= i <= |s| - |r| && r == s[i..i + |r|] && AllSpace(s[..i]) && AllSpace(s[i + |r|..])
  {
    var i := LStripCut(s, 0);
    var j := RStripCut(s, i, |s|);
    assert AllSpace(s[..i]) && AllSpace(s[j..]);
    assert i == j ==> AllSpace(s) by {
      if i == j {
        AllSpaceSplit(s, i);
      }
    }
    s[i..j]
  }

  /** Text that already starts and ends with a non-space character is
      left as it is by `strip()`. */
  lemma StripTrimmed(s: string)
    requires s != [] && !IsSpace(s[0]) && !IsSpace(s[|s| - 1])
    ensures Strip(s) == s
  {
    assert LStripCut(s, 0) == 0;
  }

  /** Stripping twice is stripping once. */
  lemma StripIdempotent(s: string)
    ensures Strip(Strip(s)) == Strip(s)
  {
    if Strip(s) != [] {
      StripTrimmed(Strip(s));
    }
  }

  /** `s.endswith(suffix)`: `s` is some text followed by `suffix`. */
  predicate EndsWith(s: string, suffix: string)
    ensures EndsWith(s, suffix) <==> |suffix| <= |s| && s[..|s| - |suffix|] + suffix == s
  {
    assert |suffix| <= |s| ==> s[..|s| - |suffix|] + s[|s| - |suffix|..] == s;
    |suffix| <= |s| && s[|s| - |suffix|..] == suffix
  }

  lemma EndsWithConcat(s: string, suffix: string)
    ensures EndsWith(s + suffix, suffix)
  {
    assert (s + suffix)[|s|..] == suffix;
  }

  /** One past the last '/' of `p`, or 0 when `p` has none: where
      `os.path.dirname` cuts the path. */
  function SplitPoint(p: string): (i: nat)
    ensures i <= |p|
    ensures i > 0 ==> p[i - 1] == '/'
    ensures forall j :: i <= j < |p| ==> p[j] != '/'
  {
    if p == [] then 0
    else if p[|p| - 1] == '/' then |p|
    else SplitPoint(p[..|p| - 1])
  }

  /** `s.rstrip('/')`. */
  function RStripSlashes(s: string): (r: string)
    ensures r <= s
    ensures forall j :: |r| <= j < |s| ==> s[j] == '/'
    ensures r == [] || r[|r| - 1] != '/'
  {
    if s == [] || s[|s| - 1] != '/' then s else RStripSlashes(s[..|s| - 1])
  }

  /** `os.path.dirname(p)` on POSIX: the head up to the last '/', with its
      trailing slashes removed unless it consists of slashes only. */
  function Dirname(p: string): (d: string)
    ensures d <= p
    ensures d == [] <==> '/' !in p
    // the head up to the last '/', less trailing slashes unless it is all slashes
    ensures d <= p[..SplitPoint(p)] && forall j :: |d| <= j < SplitPoint(p) ==> p[j] == '/'
    ensures (exists j :: 0 <= j < SplitPoint(p) && p[j] != '/') ==> d != [] && d[|d| - 1] != '/'
    ensures (forall j :: 0 <= j < SplitPoint(p) ==> p[j] == '/') ==> d == p[..SplitPoint(p)]
  {
    var head := p[..SplitPoint(p)];
    if head != [] && exists j :: 0 <= j < |head| && head[j] != '/' then
      RStripSlashes(head)
    else
      head
  }
}
