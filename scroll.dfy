/** The scroll decision of Lyrix.tsx:150-167 and Lyrics.tsx:127-142: given the
    rectangles of the lyrics viewport, the current line and the next line, whether to
    scroll and to which `scrollTop`. Only the arithmetic is modelled; the DOM lookups
    and `scrollTo` are not. */
module Scroll {
  import opened Wrappers

  /** The `readScrollRatio` prop's default (Lyrix.tsx:39, Lyrics.tsx:47). */
  const DefaultReadScrollRatio: real := 1.0

  /** The numbers the effect reads from `getClientRects()` and `scrollTop`. */
  datatype Geometry = Geometry(
    scrollTop: real,   // lyricsElement.scrollTop
    viewTop: real,     // lyricsClientRects[0].top
    viewHeight: real,  // lyricsClientRects[0].height
    lineTop: real,     // lineClientRects[0].top
    lineBottom: real,  // lineClientRects[0].bottom
    nextBottom: real)  // nextLineClientRects[0].bottom

  /** The next line reaches below the reading band (`bottom > top + r * height`). */
  predicate NextBelowBand(g: Geometry, ratio: real) {
    g.nextBottom > g.viewTop + ratio * g.viewHeight
  }

  /** The current line ends above the band (`bottom < top + (1 - r) * height`). */
  predicate CurrentAboveBand(g: Geometry, ratio: real) {
    g.lineBottom < g.viewTop + (1.0 - ratio) * g.viewHeight
  }

  /** The guard of the effect: one rendered element per line, and a next line exists. */
  predicate Applies(elementCount: nat, lineCount: nat, currentLine: nat) {
    elementCount > 0 && elementCount == lineCount && currentLine < lineCount - 1
  }

  /** The `scrollTop` both branches pass to `scrollTo`, or `None` when no scroll happens. */
  function ScrollTarget(elementCount: nat, lineCount: nat, currentLine: nat, g: Geometry, ratio: real): (r: Option<real>)
    ensures r.Some? <==> Applies(elementCount, lineCount, currentLine) &&
                         (NextBelowBand(g, ratio) || CurrentAboveBand(g, ratio))
    ensures r.Some? ==> r.value - g.scrollTop == (g.lineTop - g.viewTop) - (1.0 - ratio) * g.viewHeight
  {
    if elementCount > 0 && elementCount == lineCount && currentLine < lineCount - 1 then
      if g.nextBottom > g.viewTop + ratio * g.viewHeight then
        Some(g.scrollTop + (g.lineTop - g.viewTop) - (1.0 - ratio) * g.viewHeight)
      else if g.lineBottom < g.viewTop + (1.0 - ratio) * g.viewHeight then
        Some(g.scrollTop + (g.lineTop - g.viewTop) - (1.0 - ratio) * g.viewHeight)
      else None
    else None
  }

  /** The geometry after the content scrolls to `target`: every line moves up by the
      distance scrolled, the viewport stays. */
  function ScrolledTo(g: Geometry, target: real): Geometry {
    var d := target - g.scrollTop;
    g.(scrollTop := target, lineTop := g.lineTop - d, lineBottom := g.lineBottom - d,
       nextBottom := g.nextBottom - d)
  }

  /** After the scroll, the current line's top sits `(1 - r) * height` below the top of
      the viewport: the position the comment at Lyrix.tsx:146-149 asks for. */
  lemma ScrollPlacesCurrentLine(elementCount: nat, lineCount: nat, currentLine: nat, g: Geometry, ratio: real)
    requires ScrollTarget(elementCount, lineCount, currentLine, g, ratio).Some?
    ensures var g' := ScrolledTo(g, ScrollTarget(elementCount, lineCount, currentLine, g, ratio).value);
      g'.lineTop - g'.viewTop == (1.0 - ratio) * g.viewHeight
  {
  }

  /** The scroll settles: when the current and next lines together fit in
      `(2r - 1) * height`, evaluating the rule again on the scrolled geometry asks for no
      further scroll, so the effect does not keep scrolling on its own. */
  lemma ScrollSettles(elementCount: nat, lineCount: nat, currentLine: nat, g: Geometry, ratio: real)
    requires ScrollTarget(elementCount, lineCount, currentLine, g, ratio).Some?
    requires g.lineTop <= g.lineBottom
    requires g.nextBottom - g.lineTop <= (2.0 * ratio - 1.0) * g.viewHeight
    ensures var g' := ScrolledTo(g, ScrollTarget(elementCount, lineCount, currentLine, g, ratio).value);
      ScrollTarget(elementCount, lineCount, currentLine, g', ratio).None?
  {
    var t := ScrollTarget(elementCount, lineCount, currentLine, g, ratio).value;
    var g' := ScrolledTo(g, t);
    ScrollPlacesCurrentLine(elementCount, lineCount, currentLine, g, ratio);
    assert g'.nextBottom - g'.lineTop == g.nextBottom - g.lineTop;
    assert g'.lineBottom - g'.lineTop == g.lineBottom - g.lineTop;
    assert !NextBelowBand(g', ratio);
    assert !CurrentAboveBand(g', ratio);
  }

  /** With the default ratio the band is the whole viewport: the view scrolls when the
      next line ends below the viewport or the current line ends above it, and then
      brings the current line's top to the viewport's top. */
  lemma DefaultRatioScroll(elementCount: nat, lineCount: nat, currentLine: nat, g: Geometry)
    ensures var r := ScrollTarget(elementCount, lineCount, currentLine, g, DefaultReadScrollRatio);
      (r.Some? <==> Applies(elementCount, lineCount, currentLine) &&
                    (g.nextBottom > g.viewTop + g.viewHeight || g.lineBottom < g.viewTop)) &&
      (r.Some? ==> r.value == g.scrollTop + g.lineTop - g.viewTop)
  {
  }

  /** Worked example: ratio 0.8, a 100-pixel viewport at 0, the current line at 70-80
      and the next line ending at 85. The next line crosses 80, so the view scrolls by
      70 - 20 = 50. */
  lemma ScrollExample()
    ensures ScrollTarget(10, 10, 3, Geometry(0.0, 0.0, 100.0, 70.0, 80.0, 85.0), 0.8) == Some(50.0)
    ensures ScrollTarget(10, 10, 3, Geometry(0.0, 0.0, 100.0, 30.0, 40.0, 55.0), 0.8) == None
    ensures ScrollTarget(10, 10, 9, Geometry(0.0, 0.0, 100.0, 70.0, 80.0, 85.0), 0.8) == None
  {
  }
}
