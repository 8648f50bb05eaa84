/**
 * Worked replies for `extract_code`, each derived from the general tier lemmas.
 * Each example has a lemma collecting the facts about its text and a lemma
 * stating what `extract_code` returns for it.
 */
module CodeExtractionExamples {
  import opened Wrappers
  import opened PyText
  import opened CodeExtraction


  lemma TaggedThenBareMatch(text: string)
    requires text == "```python\nB\n```\n```\nA\n```"
    ensures IsMatchAt(text, PythonFence, 0, Span(10, 12))
  {
    assert text[0..9] == PythonFence;
    assert text[12..15] == Fence;
    FenceHead(text, 10);
    FenceHead(text, 11);
  }

  lemma TaggedThenBareGroup(text: string)
    requires text == "```python\nB\n```\n```\nA\n```"
    ensures Strip(text[10..12]) == "B"
  {
    assert text[10..12] == [] + "B" + "\n";
    StripPadded([], "B", "\n");
  }

  /** A tagged block followed by an untagged one: only the tagged block is returned. */
  lemma ExtractTaggedThenBare(text: string)
    requires text == "```python\nB\n```\n```\nA\n```"
    ensures ExtractCode(text) == Some("B")
  {
    TaggedThenBareMatch(text);
    TaggedThenBareGroup(text);
    TaggedTier(text, 0, 10, 12);
  }

  lemma BareThenTaggedOpener(text: string)
    requires text == "```\nA\n```\n```python\nB\n```"
    ensures forall j :: 0 <= j < 10 ==> !OccursAt(text, PythonFence, j)
  {
    forall j | 0 <= j < 10
      ensures !OccursAt(text, PythonFence, j)
    {
      PythonFenceSixth(text, j);
    }
  }

  lemma BareThenTaggedMatch(text: string)
    requires text == "```\nA\n```\n```python\nB\n```"
    ensures IsMatchAt(text, PythonFence, 10, Span(20, 22))
  {
    assert text[10..19] == PythonFence;
    assert text[22..25] == Fence;
    FenceHead(text, 20);
    FenceHead(text, 21);
  }

  lemma BareThenTaggedGroup(text: string)
    requires text == "```\nA\n```\n```python\nB\n```"
    ensures Strip(text[20..22]) == "B"
  {
    assert text[20..22] == [] + "B" + "\n";
    StripPadded([], "B", "\n");
  }

  /** An untagged block before a tagged one: the tagged block still wins. */
  lemma ExtractBareThenTagged(text: string)
    requires text == "```\nA\n```\n```python\nB\n```"
    ensures ExtractCode(text) == Some("B")
  {
    BareThenTaggedOpener(text);
    BareThenTaggedMatch(text);
    BareThenTaggedGroup(text);
    TaggedTier(text, 10, 20, 22);
  }

  /** The sixth character of ```` ```python ```` is `t`. */
  lemma PythonFenceSixth(text: string, j: nat)
    ensures OccursAt(text, PythonFence, j) ==> text[j + 5] == 't'
  {
  }

  lemma OtherLanguageNoTag(text: string)
    requires text == "```py\nx = 1\n```"
    ensures forall j :: !OccursAt(text, PythonFence, j)
  {
    forall j: nat
      ensures !OccursAt(text, PythonFence, j)
    {
      PythonFenceSixth(text, j);
    }
  }

  lemma OtherLanguageFacts(text: string)
    requires text == "```py\nx = 1\n```"
    ensures forall j, m :: OccursAt(text, PythonFence, j) && j + |PythonFence| <= m ==> !OccursAt(text, Fence, m)
    ensures IsMatchAt(text, Fence, 0, Span(3, 12))
  {
    OtherLanguageNoTag(text);
    forall m | 3 <= m < 12
      ensures !OccursAt(text, Fence, m)
    {
      FenceHead(text, m);
    }
  }

  lemma OtherLanguageGroup(text: string)
    requires text == "```py\nx = 1\n```"
    ensures Strip(text[3..12]) == "py\nx = 1"
  {
    assert text[3..12] == [] + "py\nx = 1" + "\n";
    StripPadded([], "py\nx = 1", "\n");
  }

  /** A block tagged `py` is not a `python` block: the tag word stays in the result. */
  lemma ExtractOtherLanguage(text: string)
    requires text == "```py\nx = 1\n```"
    ensures ExtractCode(text) == Some("py\nx = 1")
  {
    OtherLanguageFacts(text);
    OtherLanguageGroup(text);
    BareTier(text, 0, 3, 12);
  }

  lemma EmptyTaggedThenBareFacts(text: string)
    requires text == "```python\n```\n```\nprint(1)\n```"
    ensures IsMatchAt(text, PythonFence, 0, Span(10, 10))
  {
  }

  /**
   * An empty tagged block is still a match, so the untagged block after it is
   * never looked at and the result is the empty string.
   */
  lemma ExtractEmptyTaggedThenBare(text: string)
    requires text == "```python\n```\n```\nprint(1)\n```"
    ensures ExtractCode(text) == Some("")
  {
    EmptyTaggedThenBareFacts(text);
    TaggedTier(text, 0, 10, 10);
    StripEmptySpan(text, 10);
  }

  /** An empty group strips to the empty string. */
  lemma StripEmptySpan(text: string, p: nat)
    requires p <= |text|
    ensures Strip(text[p..p]) == ""
  {
    assert text[p..p] == [] + [] + [];
    StripPadded([], [], []);
  }

  lemma NoFencesFacts(text: string)
    requires text == "The answer is 42."
    ensures forall i :: 0 <= i < |text| ==> text[i] != '`'
  {
  }

  /** Plain prose has no fence, so nothing is extracted. */
  lemma ExtractNoFences(text: string)
    requires text == "The answer is 42."
    ensures ExtractCode(text) == None
  {
    NoFencesFacts(text);
    forall i: nat
      ensures !OccursAt(text, Fence, i)
    {
      FenceHead(text, i);
    }
    ExtractNoneIff(text);
  }
}
