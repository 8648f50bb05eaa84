/**
 * The pieces of Python's `str` and `re` behaviour that the agent relies on:
 * which characters count as whitespace, `str.strip()`, and the search for a
 * literal substring.
 */
module PyText {
  import opened Wrappers

  /**
   * Python's whitespace: the characters for which `str.isspace()` holds, which
   * are also the characters the regex class `\s` matches in a `str` pattern.
   */
  predicate IsSpace(c: char) {
    var n := c as int;
    (9 <= n <= 13) || (28 <= n <= 32) || n == 0x85 || n == 0xA0 || n == 0x1680
    || (0x2000 <= n <= 0x200A) || n == 0x2028 || n == 0x2029 || n == 0x202F
    || n == 0x205F || n == 0x3000
  }

  predicate AllSpace(s: string) {
    forall i :: 0 <= i < |s| ==> IsSpace(s[i])
  }

  /** Neither the first nor the last character is whitespace. */
  predicate NoEdgeSpace(s: string) {
    s == [] || (!IsSpace(s[0]) && !IsSpace(s[|s| - 1]))
  }

  /** `r` occurs in `s` at offset `i`, with only whitespace before and after it. */
  ghost predicate Pads(s: string, r: string, i: int) {
    0 <= i && i + |r| <= |s| && s[i..i + |r|] == r
    && (forall m :: 0 <= m < i ==> IsSpace(s[m]))
    && (forall m :: i + |r| <= m < |s| ==> IsSpace(s[m]))
  }

  /** `str.lstrip()`: the suffix left after dropping the leading whitespace. */
  function LStrip(s: string): (r: string)
    ensures |r| <= |s| && r == s[|s| - |r|..]
    ensures forall m :: 0 <= m < |s| - |r| ==> IsSpace(s[m])
    ensures r == [] || !IsSpace(r[0])
  {
    if s != [] && IsSpace(s[0]) then
      LStrip(s[1..])
    else
      s
  }

  /** `str.rstrip()`: the prefix left after dropping the trailing whitespace. */
  function RStrip(s: string): (r: string)
    ensures |r| <= |s| && r == s[..|r|]
    ensures forall m :: |r| <= m < |s| ==> IsSpace(s[m])
    ensures r == [] || !IsSpace(r[|r| - 1])
  {
    if s != [] && IsSpace(s[|s| - 1]) then
      RStrip(s[..|s| - 1])
    else
      s
  }

  /** `str.strip()`: what is left after dropping whitespace at both ends. */
  function Strip(s: string): (r: string)
    ensures NoEdgeSpace(r)
    ensures exists i :: Pads(s, r, i)
  {
    var t := LStrip(s);
    PadsAfterTrims(s, t, RStrip(t));
    RStrip(t)
  }

  /** Dropping a whitespace prefix and then a whitespace suffix leaves text padded by whitespace. */
  lemma PadsAfterTrims(s: string, t: string, r: string)
    requires |t| <= |s| && t == s[|s| - |t|..]
    requires forall m :: 0 <= m < |s| - |t| ==> IsSpace(s[m])
    requires |r| <= |t| && r == t[..|r|]
    requires forall m :: |r| <= m < |t| ==> IsSpace(t[m])
    ensures Pads(s, r, |s| - |t|)
  {
  }

  lemma {:induction false} LStripPadded(p: string, r: string)
    requires AllSpace(p)
    requires r == [] || !IsSpace(r[0])
    ensures LStrip(p + r) == r
  {
    if p == [] {
      assert p + r == r;
    } else {
      assert (p + r)[1..] == p[1..] + r;
      LStripPadded(p[1..], r);
    }
  }

  lemma {:induction false} RStripPadded(r: string, q: string)
    requires AllSpace(q)
    requires r == [] || !IsSpace(r[|r| - 1])
    ensures RStrip(r + q) == r
  {
    if q == [] {
      assert r + q == r;
    } else {
      assert (r + q)[..|r + q| - 1] == r + q[..|q| - 1];
      RStripPadded(r, q[..|q| - 1]);
    }
  }

  /**
   * The converse of Strip's contract: whatever has no whitespace at its ends is
   * exactly what `strip()` recovers from it padded with whitespace on both sides.
   */
  lemma {:induction false} StripPadded(p: string, r: string, q: string)
    requires AllSpace(p) && AllSpace(q) && NoEdgeSpace(r)
    ensures Strip(p + r + q) == r
  {
    if r == [] {
      assert p + r + q == p + q;
      LStripPadded(p + q, []);
      assert LStrip(p + q) == LStrip(p + q + []);
      RStripPadded([], []);
    } else {
      assert p + r + q == p + (r + q);
      assert (r + q)[0] == r[0];
      LStripPadded(p, r + q);
      RStripPadded(r, q);
    }
  }

  /** `pat` occurs in `s` starting at offset `i`. */
  predicate OccursAt(s: string, pat: string, i: int) {
    0 <= i && i + |pat| <= |s| && s[i..i + |pat|] == pat
  }

  /** The first offset at or after `k` where `pat` occurs, if any. */
  function FindFrom(s: string, pat: string, k: nat): (r: Option<nat>)
    ensures r.Some? ==> k <= r.value && OccursAt(s, pat, r.value)
    ensures r.Some? ==> forall m :: k <= m < r.value ==> !OccursAt(s, pat, m)
    ensures r.None? ==> forall m :: k <= m ==> !OccursAt(s, pat, m)
    decreases |s| - k
  {
    if k + |pat| > |s| then None
    else if OccursAt(s, pat, k) then Some(k)
    else FindFrom(s, pat, k + 1)
  }

  /** The end of the run of whitespace that starts at `k` (what a greedy `\s*` consumes). */
  function SkipSpace(s: string, k: nat): (r: nat)
    requires k <= |s|
    ensures k <= r <= |s|
    ensures forall m :: k <= m < r ==> IsSpace(s[m])
    ensures r == |s| || !IsSpace(s[r])
    decreases |s| - k
  {
    if k < |s| && IsSpace(s[k]) then SkipSpace(s, k + 1) else k
  }
}
