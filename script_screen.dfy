/**
  The text the script screen copies and shares: every section as its title,
  a blank line and its content, the sections separated by a rule, then a
  key-points heading and the bulleted key points, one per line.
*/
module ScriptScreen {
  import opened JsString
  import opened Models
  import opened JsArray

  const SECTION_SEPARATOR: string := "\n\n---\n\n"
  const KEY_POINTS_HEADER: string := "\n\nKey Points:\n"
  const BULLET: string := "\U{2022} "

  function SectionText(s: ScriptSection): string {
    s.title + "\n\n" + s.content
  }

  function Bulleted(point: string): string {
    BULLET + point
  }

  function SectionsText(sections: seq<ScriptSection>): string {
    Join(Map(sections, SectionText), SECTION_SEPARATOR)
  }

  function PointsText(points: seq<string>): string {
    Join(Map(points, Bulleted), "\n")
  }

  /** `fullText`. The key-points heading is always there, even with no
      sections and no key points; with no key points the text ends with it,
      and with no sections it starts with it. */
  function FullText(script: NegotiationScript): (t: string)
    ensures Contains(t, KEY_POINTS_HEADER)
    ensures script.keyPoints == [] ==> t == SectionsText(script.sections) + KEY_POINTS_HEADER
    ensures script.sections == [] ==> t == KEY_POINTS_HEADER + PointsText(script.keyPoints)
  {
    var a, c := SectionsText(script.sections), PointsText(script.keyPoints);
    assert At(a + KEY_POINTS_HEADER + c, |a|, KEY_POINTS_HEADER) by {
      SliceMiddle(a, KEY_POINTS_HEADER, c);
    }
    assert Map([], Bulleted) == [];
    assert Map([], SectionText) == [];
    a + KEY_POINTS_HEADER + c
  }

  lemma MapConcat<T, U>(a: seq<T>, b: seq<T>, f: T -> U)
    ensures Map(a + b, f) == Map(a, f) + Map(b, f)
  {
    assert forall i :: 0 <= i < |a + b| ==> Map(a + b, f)[i] == (Map(a, f) + Map(b, f))[i];
  }

  /** One section alone is its title, a blank line and its content. */
  lemma OneSection(s: ScriptSection)
    ensures SectionsText([s]) == s.title + "\n\n" + s.content
  {
    assert Map([s], SectionText) == [SectionText(s)];
  }

  /** One key point alone is the bullet and the point. */
  lemma OnePoint(p: string)
    ensures PointsText([p]) == BULLET + p
  {
    assert Map([p], Bulleted) == [Bulleted(p)];
  }

  /** The sections keep their order: the text of two runs of sections is the
      text of the first, one rule, and the text of the second. */
  lemma SectionsInOrder(front: seq<ScriptSection>, back: seq<ScriptSection>)
    requires front != [] && back != []
    ensures SectionsText(front + back) == SectionsText(front) + SECTION_SEPARATOR + SectionsText(back)
  {
    MapConcat(front, back, SectionText);
    JoinConcat(Map(front, SectionText), Map(back, SectionText), SECTION_SEPARATOR);
  }

  /** The key points keep their order, one bulleted point per line. */
  lemma PointsInOrder(front: seq<string>, back: seq<string>)
    requires front != [] && back != []
    ensures PointsText(front + back) == PointsText(front) + "\n" + PointsText(back)
  {
    MapConcat(front, back, Bulleted);
    JoinConcat(Map(front, Bulleted), Map(back, Bulleted), "\n");
  }

  /** The length of the text: every section's and point's own text, plus
      one rule between each two sections, one newline between each two
      points, and the heading. */
  lemma FullTextLength(script: NegotiationScript)
    requires script.sections != [] && script.keyPoints != []
    ensures |FullText(script)| ==
      TotalLength(Map(script.sections, SectionText)) + (|script.sections| - 1) * |SECTION_SEPARATOR|
      + |KEY_POINTS_HEADER|
      + TotalLength(Map(script.keyPoints, Bulleted)) + (|script.keyPoints| - 1)
  {
    JoinLength(Map(script.sections, SectionText), SECTION_SEPARATOR);
    JoinLength(Map(script.keyPoints, Bulleted), "\n");
  }
}
