/**
 * `extract_code`: pulls the code out of a model reply. It tries the pattern
 * ```` ```python\s*(.*?)``` ```` first and ```` ```\s*(.*?)``` ```` second (both
 * with DOTALL, so `.` also matches newlines) and returns the first match's
 * group, stripped, from the first pattern that matches anywhere.
 */
module CodeExtraction {
  import opened Wrappers
  import opened PyText

  const Fence := "```"
  const PythonFence := "```python"

  /** The captured group of one match: text[start..end]. */
  datatype Span = Span(start: nat, end: nat)

  /**
   * What it means for `opener\s*(.*?)```` to match at offset `i` with group `sp`:
   * the opener is at `i`; the greedy `\s*` takes the whole run of whitespace
   * after it, so the group starts at the first non-whitespace character (or the
   * end of the text); the lazy group stops at the first fence at or after that.
   */
  ghost predicate IsMatchAt(text: string, opener: string, i: nat, sp: Span) {
    OccursAt(text, opener, i)
    && i + |opener| <= sp.start <= sp.end <= |text|
    && (forall m :: i + |opener| <= m < sp.start ==> IsSpace(text[m]))
    && (sp.start == |text| || !IsSpace(text[sp.start]))
    && OccursAt(text, Fence, sp.end)
    && (forall m :: sp.start <= m < sp.end ==> !OccursAt(text, Fence, m))
  }

  /** Some fence is followed, at least three characters further on, by another. */
  ghost predicate HasClosedFence(text: string) {
    exists i, j :: OccursAt(text, Fence, i) && i + |Fence| <= j && OccursAt(text, Fence, j)
  }

  /** A fence starts with a backquote, which is not whitespace. */
  lemma NoFenceInSpace(text: string, a: nat, b: nat)
    requires b <= |text|
    requires forall m :: a <= m < b ==> IsSpace(text[m])
    ensures forall m :: a <= m < b ==> !OccursAt(text, Fence, m)
  {
    forall m | a <= m < b
      ensures !OccursAt(text, Fence, m)
    {
      FenceHead(text, m);
    }
  }

  lemma FenceHead(text: string, m: nat)
    ensures OccursAt(text, Fence, m) ==> text[m] == '`'
  {
  }

  /** The regex tried at offset `i` alone: the group's span, or None if it fails there. */
  function MatchAt(text: string, opener: string, i: nat): (r: Option<Span>)
    ensures r.Some? ==> IsMatchAt(text, opener, i, r.value)
    ensures r.None? <==>
      !OccursAt(text, opener, i) || forall m :: i + |opener| <= m ==> !OccursAt(text, Fence, m)
  {
    if !OccursAt(text, opener, i) then None
    else
      var p := SkipSpace(text, i + |opener|);
      match FindFrom(text, Fence, p)
      case None =>
        NoFenceInSpace(text, i + |opener|, p);
        None
      case Some(q) => Some(Span(p, q))
  }

  /** A match at a given offset has only one possible group. */
  lemma MatchUnique(text: string, opener: string, i: nat, a: Span, b: Span)
    requires IsMatchAt(text, opener, i, a) && IsMatchAt(text, opener, i, b)
    ensures a == b
  {
  }

  /** The leftmost offset at or after `i` where the regex matches: how `re` scans. */
  function FirstMatch(text: string, opener: string, i: nat): (r: Option<nat>)
    ensures r.Some? ==> i <= r.value && MatchAt(text, opener, r.value).Some?
    ensures r.Some? ==> forall m :: i <= m < r.value ==> MatchAt(text, opener, m).None?
    ensures r.None? ==> forall m :: i <= m ==> MatchAt(text, opener, m).None?
    decreases |text| - i
  {
    if i + |opener| > |text| then None
    else if MatchAt(text, opener, i).Some? then Some(i)
    else FirstMatch(text, opener, i + 1)
  }

  /** The group of the first match, i.e. `re.findall(opener + r'\s*(.*?)```', text, re.DOTALL)[0]`. */
  function FirstGroup(text: string, opener: string): (r: Option<string>)
    ensures r.None? <==> forall m :: MatchAt(text, opener, m).None?
    ensures r.Some? ==> exists i: nat, j: nat :: i <= j <= |text| && r.value == text[i..j] && OccursAt(text, Fence, j)
  {
    match FirstMatch(text, opener, 0)
    case None => None
    case Some(i) =>
      var sp := MatchAt(text, opener, i).value;
      Some(text[sp.start..sp.end])
  }

  /** `extract_code(text)`. */
  function ExtractCode(text: string): (r: Option<string>)
    ensures r.Some? ==> NoEdgeSpace(r.value)
  {
    match FirstGroup(text, PythonFence)
    case Some(g) => Some(Strip(g))
    case None =>
      match FirstGroup(text, Fence)
      case Some(g) => Some(Strip(g))
      case None => None
  }

  /** If the regex matches at `i` with group `sp` and nowhere before, its first group is that one. */
  lemma FirstGroupAt(text: string, opener: string, i: nat, sp: Span)
    requires IsMatchAt(text, opener, i, sp)
    requires forall j :: 0 <= j < i ==> MatchAt(text, opener, j).None?
    ensures FirstGroup(text, opener) == Some(text[sp.start..sp.end])
  {
    assert OccursAt(text, Fence, sp.end);
    assert MatchAt(text, opener, i).Some?;
    MatchUnique(text, opener, i, sp, MatchAt(text, opener, i).value);
    var k := FirstMatch(text, opener, 0);
    assert k.Some?;
    assert k.value == i;
  }

  /**
   * The tagged tier: when the first ```` ```python ```` in the text is closed by a
   * later fence, the result is the text after it (and after the whitespace that
   * follows it) up to the next fence, stripped -- whatever untagged blocks come
   * before or after. (A later ```` ```python ```` cannot be closed unless the first
   * one is, since the closing fence would close both.)
   */
  lemma {:induction false} TaggedTier(text: string, i: nat, p: nat, q: nat)
    requires OccursAt(text, PythonFence, i)
    requires forall j :: 0 <= j < i ==> !OccursAt(text, PythonFence, j)
    requires IsMatchAt(text, PythonFence, i, Span(p, q))
    ensures ExtractCode(text) == Some(Strip(text[p..q]))
  {
    FirstGroupAt(text, PythonFence, i, Span(p, q));
  }

  /**
   * The untagged tier: when no ```` ```python ```` is followed by a fence, the result
   * is taken from the first fence in the text, up to the next fence, stripped, so a
   * language word other than `python` stays at the start of the result.
   */
  lemma {:induction false} BareTier(text: string, i: nat, p: nat, q: nat)
    requires forall j, m :: OccursAt(text, PythonFence, j) && j + |PythonFence| <= m ==> !OccursAt(text, Fence, m)
    requires OccursAt(text, Fence, i)
    requires forall j :: 0 <= j < i ==> !OccursAt(text, Fence, j)
    requires IsMatchAt(text, Fence, i, Span(p, q))
    ensures ExtractCode(text) == Some(Strip(text[p..q]))
  {
    assert forall m :: MatchAt(text, PythonFence, m).None?;
    assert FirstGroup(text, PythonFence) == None;
    FirstGroupAt(text, Fence, i, Span(p, q));
  }

  /** Every ```` ```python ```` opener is also a fence. */
  lemma PythonFenceIsFence(text: string, j: nat)
    requires OccursAt(text, PythonFence, j)
    ensures OccursAt(text, Fence, j)
  {
    assert text[j..j + 3] == text[j..j + 9][..3];
  }

  /** `extract_code` returns None exactly when no fence is closed by a later one. */
  lemma {:induction false} ExtractNoneIff(text: string)
    ensures ExtractCode(text).None? <==> !HasClosedFence(text)
  {
    if HasClosedFence(text) {
      var i, j :| OccursAt(text, Fence, i) && i + |Fence| <= j && OccursAt(text, Fence, j);
      assert MatchAt(text, Fence, i).Some?;
      assert FirstMatch(text, Fence, 0).Some?;
    } else {
      forall m | OccursAt(text, PythonFence, m)
        ensures forall k :: m + |PythonFence| <= k ==> !OccursAt(text, Fence, k)
      {
        PythonFenceIsFence(text, m);
      }
      assert forall m :: MatchAt(text, PythonFence, m).None?;
      assert forall m :: MatchAt(text, Fence, m).None?;
    }
  }
}
