/** The Slides "presentation" resource as far as the extension reads it, and
    the template summary built from it at the start of `analyzeContentWithAI`
    (content.js). */
module Slides {
  import opened Wrappers

  // ---- The presentation resource (only the fields read) ----

  datatype TextRun = TextRun(content: string)

  /** An entry of a shape's `text.textElements`. Only text runs have
      content; paragraph markers and auto text have no `textRun`. */
  datatype TextPiece = TextPiece(textRun: Option<TextRun>)

  datatype TextContent = TextContent(textElements: seq<TextPiece>)

  datatype Shape = Shape(text: Option<TextContent>)

  /** A page element; only shapes can carry text. */
  datatype PageElement = PageElement(objectId: string, shape: Option<Shape>)

  /** A slide; `pageElements` may be absent from the resource. */
  datatype Page = Page(pageElements: Option<seq<PageElement>>)

  datatype Presentation = Presentation(slides: seq<Page>)

  // ---- The template summary ----

  /** `{objectId, currentText}` */
  datatype ElementSummary = ElementSummary(objectId: string, currentText: string)

  /** `{slideNumber, currentContent, textElements}` */
  datatype SlideSummary = SlideSummary(slideNumber: nat, currentContent: string, textElements: seq<ElementSummary>)

  /** The guard `element.shape && element.shape.text`. */
  predicate HasText(e: PageElement) {
    e.shape.Some? && e.shape.value.text.Some?
  }

  /** `te.textRun ? te.textRun.content : ''` */
  function PieceText(p: TextPiece): string {
    if p.textRun.Some? then p.textRun.value.content else ""
  }

  /** `.map(te => ...).join('')`: the pieces' texts, in order. */
  function JoinPieces(pieces: seq<TextPiece>): string {
    if pieces == [] then "" else PieceText(pieces[0]) + JoinPieces(pieces[1..])
  }

  /** The text of an element that has text. */
  function ElementText(e: PageElement): string
    requires HasText(e)
  {
    JoinPieces(e.shape.value.text.value.textElements)
  }

  /** The entries pushed onto `textElements` for these page elements. */
  function Summaries(es: seq<PageElement>): seq<ElementSummary> {
    if es == [] then []
    else if HasText(es[0]) then [ElementSummary(es[0].objectId, ElementText(es[0]))] + Summaries(es[1..])
    else Summaries(es[1..])
  }

  /** What `textContent +=` accumulates over these page elements. */
  function Accumulated(es: seq<PageElement>): string {
    if es == [] then ""
    else if HasText(es[0]) then ElementText(es[0]) + Accumulated(es[1..])
    else Accumulated(es[1..])
  }

  /** The concatenation of the `currentText` of the entries, in order. */
  function ConcatTexts(ts: seq<ElementSummary>): string {
    if ts == [] then "" else ts[0].currentText + ConcatTexts(ts[1..])
  }

  /** A slide's page elements; an absent list is walked as an empty one. */
  function ElementsOf(slide: Page): seq<PageElement> {
    if slide.pageElements.Some? then slide.pageElements.value else []
  }

  /** The summary of the slide at (zero-based) position `idx`. */
  function SlideSummaryOf(slide: Page, idx: nat): SlideSummary {
    SlideSummary(idx + 1, Accumulated(ElementsOf(slide)), Summaries(ElementsOf(slide)))
  }

  /** The summary of a whole presentation, one entry per slide. */
  function TemplateSummary(p: Presentation): seq<SlideSummary> {
    seq(|p.slides|, i requires 0 <= i < |p.slides| => SlideSummaryOf(p.slides[i], i))
  }

  // ---- Properties of the summary ----

  lemma {:induction false} JoinPiecesAppend(a: seq<TextPiece>, b: seq<TextPiece>)
    ensures JoinPieces(a + b) == JoinPieces(a) + JoinPieces(b)
  {
    if a == [] {
      assert a + b == b;
    } else {
      assert (a + b)[1..] == a[1..] + b;
      JoinPiecesAppend(a[1..], b);
    }
  }

  /** A piece without a text run adds nothing to its element's text. */
  lemma NonRunPieceContributesNothing(a: seq<TextPiece>, b: seq<TextPiece>)
    ensures JoinPieces(a + [TextPiece(None)] + b) == JoinPieces(a) + JoinPieces(b)
  {
    var none := [TextPiece(None)];
    assert JoinPieces(none) == "" by {
      assert none[1..] == [];
    }
    JoinPiecesAppend(a, none);
    assert JoinPieces(a + none) == JoinPieces(a);
    JoinPiecesAppend(a + none, b);
  }

  lemma {:induction false} SummariesAppend(a: seq<PageElement>, b: seq<PageElement>)
    ensures Summaries(a + b) == Summaries(a) + Summaries(b)
  {
    if a == [] {
      assert a + b == b;
    } else {
      assert (a + b)[1..] == a[1..] + b;
      SummariesAppend(a[1..], b);
    }
  }

  lemma {:induction false} AccumulatedAppend(a: seq<PageElement>, b: seq<PageElement>)
    ensures Accumulated(a + b) == Accumulated(a) + Accumulated(b)
  {
    if a == [] {
      assert a + b == b;
    } else {
      assert (a + b)[1..] == a[1..] + b;
      AccumulatedAppend(a[1..], b);
    }
  }

  /** Document order: an element with text contributes its own entry exactly
      between the entries of the elements before it and after it; an element
      without text contributes none. */
  lemma SummariesInDocumentOrder(a: seq<PageElement>, e: PageElement, b: seq<PageElement>)
    ensures HasText(e) ==> Summaries(a + [e] + b) == Summaries(a) + [ElementSummary(e.objectId, ElementText(e))] + Summaries(b)
    ensures !HasText(e) ==> Summaries(a + [e] + b) == Summaries(a) + Summaries(b)
  {
    SummariesAppend(a + [e], b);
    SummariesAppend(a, [e]);
    assert [e][1..] == [];
  }

  /** The entries are exactly the elements that have text: each such element
      has its entry, and each entry comes from such an element. */
  lemma {:induction false} SummariesExactly(es: seq<PageElement>)
    ensures |Summaries(es)| <= |es|
    ensures forall e :: e in es && HasText(e) ==> ElementSummary(e.objectId, ElementText(e)) in Summaries(es)
    ensures forall t :: t in Summaries(es) ==> exists e :: e in es && HasText(e) && t == ElementSummary(e.objectId, ElementText(e))
  {
    if es != [] {
      SummariesExactly(es[1..]);
      assert forall e :: e in es[1..] ==> e in es;
      assert forall e :: e in es ==> e == es[0] || e in es[1..];
    }
  }

  /** The accumulated `currentContent` equals the in-order concatenation of
      the entries' `currentText`. */
  lemma {:induction false} ContentIsConcatOfTexts(es: seq<PageElement>)
    ensures Accumulated(es) == ConcatTexts(Summaries(es))
  {
    if es != [] {
      ContentIsConcatOfTexts(es[1..]);
      if HasText(es[0]) {
        var t := [ElementSummary(es[0].objectId, ElementText(es[0]))] + Summaries(es[1..]);
        assert t[0].currentText == ElementText(es[0]);
        assert t[1..] == Summaries(es[1..]);
      }
    }
  }

  /** A slide none of whose elements has text is summarised with no entries
      and empty content; it is not an error. */
  lemma {:induction false} NoTextNoEntries(es: seq<PageElement>)
    requires forall k :: 0 <= k < |es| ==> !HasText(es[k])
    ensures Summaries(es) == [] && Accumulated(es) == ""
  {
    if es != [] {
      NoTextNoEntries(es[1..]);
    }
  }

  // ---- The summariser, as the source computes it ----

  /** The callback of `templateData.slides.map` for one slide: walk the page
      elements, and for each one with text join its runs, append the text to
      `textContent` and push `{objectId, currentText}`. */
  method SummariseSlide(slide: Page, idx: nat) returns (s: SlideSummary)
    ensures s == SlideSummaryOf(slide, idx)
    ensures s.slideNumber == idx + 1
    ensures s.currentContent == ConcatTexts(s.textElements)
    ensures slide.pageElements.None? ==> s.textElements == [] && s.currentContent == ""
  {
    var textContent := "";
    var textElements: seq<ElementSummary> := [];
    if slide.pageElements.Some? {
      var es := slide.pageElements.value;
      var k := 0;
      while k < |es|
        invariant 0 <= k <= |es|
        invariant textContent == Accumulated(es[..k])
        invariant textElements == Summaries(es[..k])
      {
        var element := es[k];
        assert es[..k + 1] == es[..k] + [element];
        SummariesAppend(es[..k], [element]);
        AccumulatedAppend(es[..k], [element]);
        assert [element][1..] == [];
        if element.shape.Some? && element.shape.value.text.Some? {
          var text := JoinPieces(element.shape.value.text.value.textElements);
          textContent := textContent + text;
          textElements := textElements + [ElementSummary(element.objectId, text)];
        }
        k := k + 1;
      }
      assert es[..k] == es;
    }
    s := SlideSummary(idx + 1, textContent, textElements);
    ContentIsConcatOfTexts(ElementsOf(slide));
  }

  /** `templateData.slides.map(...)`: one summary per slide, in slide order. */
  method SummariseTemplate(p: Presentation) returns (structure: seq<SlideSummary>)
    ensures structure == TemplateSummary(p)
    ensures |structure| == |p.slides|
    ensures forall i :: 0 <= i < |structure| ==> structure[i].slideNumber == i + 1
    ensures forall i :: 0 <= i < |structure| ==>
      structure[i].textElements == Summaries(ElementsOf(p.slides[i])) &&
      structure[i].currentContent == ConcatTexts(structure[i].textElements)
  {
    structure := [];
    var i := 0;
    while i < |p.slides|
      invariant 0 <= i <= |p.slides|
      invariant |structure| == i
      invariant forall k :: 0 <= k < i ==> structure[k] == SlideSummaryOf(p.slides[k], k)
      invariant forall k :: 0 <= k < i ==> structure[k].currentContent == ConcatTexts(structure[k].textElements)
    {
      var summary := SummariseSlide(p.slides[i], i);
      structure := structure + [summary];
      i := i + 1;
    }
  }
}
