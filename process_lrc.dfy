/** `processLrcLyrics` (src/util/processLRC.ts): LRC text to parallel lists of line
    times and line texts. Times are integer milliseconds, the numerator of the
    source's division by 1000. */
module ProcessLrc {
  import opened Wrappers
  import opened LrcText
  import opened LrcTag

  /** The two arrays the source returns, `{ timestamps, processedLines }`. */
  datatype Parsed = Parsed(timestamps: seq<int>, processedLines: seq<string>)

  /** The time of a line: its first tag's, in milliseconds. */
  function LineTime(line: string): (t: int)
    requires HasTag(line)
    ensures 0 <= t <= MaxTagMs
  {
    Millis(TagAt(line, FirstTag(line).value).value)
  }

  /** The text kept for a line: every tag removed, then trimmed. */
  function LineText(line: string): (r: string)
    ensures IsTrimmed(r)
  {
    Trim(StripTags(line))
  }

  /** What one line pushes: its time and text when its tag search succeeds, else nothing. */
  function LineParse(line: string): (r: Parsed)
    ensures |r.timestamps| == |r.processedLines| <= 1
    ensures |r.timestamps| == 1 <==> HasTag(line)
    ensures HasTag(line) ==> 0 <= r.timestamps[0] <= MaxTagMs && IsTrimmed(r.processedLines[0])
  {
    if HasTag(line) then Parsed([LineTime(line)], [LineText(line)]) else Parsed([], [])
  }

  /** A line with a repeated tag, e.g. `[00:12.00][00:45.00]Chorus`: only the first
      tag's time is kept and both tags are removed from the text. */
  lemma RepeatedTagLine(t1: Tag, t2: Tag, text: string)
    requires WellFormed(t1) && WellFormed(t2) && TagFree(text)
    ensures LineParse(Format(t1) + Format(t2) + text) == Parsed([Millis(t1)], [Trim(text)])
  {
    var line := Format(t1) + Format(t2) + text;
    TwoTagLine(t1, t2, text);
    assert HasTag(line);
    assert LineTime(line) == Millis(t1);
    assert LineText(line) == Trim(text);
  }

  /** Both arrays of `p` followed by those of `q`. */
  function Concat(p: Parsed, q: Parsed): Parsed {
    Parsed(p.timestamps + q.timestamps, p.processedLines + q.processedLines)
  }

  /** The loop of processLRC.ts:9-15 over the first `|lines|` lines: each line in turn
      pushes what `LineParse` says. */
  function ParseLines(lines: seq<string>): (r: Parsed)
    ensures |r.timestamps| == |r.processedLines| <= |lines|
  {
    if |lines| == 0 then Parsed([], [])
    else Concat(ParseLines(lines[..|lines| - 1]), LineParse(lines[|lines| - 1]))
  }

  /** `processLrcLyrics(lyrics)` as a value. */
  function ParseLrc(lyrics: string): (r: Parsed)
    ensures |r.timestamps| == |r.processedLines| <= CountNewlines(lyrics) + 1
    ensures forall k :: 0 <= k < |r.timestamps| ==> 0 <= r.timestamps[k] <= MaxTagMs
    ensures forall k :: 0 <= k < |r.processedLines| ==> IsTrimmed(r.processedLines[k])
  {
    SplitLength(lyrics);
    ParsedBounds(Split(lyrics));
    ParseLines(Split(lyrics))
  }

  /** The lines whose tag search succeeds, in input order. */
  function Matching(lines: seq<string>): (r: seq<string>)
    ensures |r| <= |lines|
    ensures forall k :: 0 <= k < |r| ==> HasTag(r[k])
  {
    if |lines| == 0 then []
    else
      var prev := Matching(lines[..|lines| - 1]);
      var line := lines[|lines| - 1];
      if HasTag(line) then prev + [line] else prev
  }

  /** processLRC.ts:4-18. Splits on line feeds and pushes, for every line holding a
      tag, the first tag's time and the tag-free trimmed text. */
  method ProcessLrcLyrics(lyrics: string) returns (timestamps: seq<int>, processedLines: seq<string>)
    ensures Parsed(timestamps, processedLines) == ParseLrc(lyrics)
    ensures |timestamps| == |processedLines| <= CountNewlines(lyrics) + 1
  {
    var lines := Split(lyrics);
    timestamps, processedLines := [], [];
    var i := 0;
    while i < |lines|
      invariant 0 <= i <= |lines|
      invariant Parsed(timestamps, processedLines) == ParseLines(lines[..i])
    {
      var line := lines[i];
      assert lines[..i + 1][..i] == lines[..i];
      assert ParseLines(lines[..i + 1]) == Concat(ParseLines(lines[..i]), LineParse(line));
      var found := FirstTag(line);
      if found.Some? {
        var tag := TagAt(line, found.value).value;
        assert LineParse(line) == Parsed([Millis(tag)], [Trim(StripTags(line))]);
        timestamps := timestamps + [Millis(tag)];
        processedLines := processedLines + [Trim(StripTags(line))];
      } else {
        assert LineParse(line) == Parsed([], []);
      }
      i := i + 1;
    }
    assert lines[..|lines|] == lines;
    SplitLength(lyrics);
  }

  /** Exactly one output pair per matching line, in input order: the k-th time and
      text come from the k-th line whose tag search succeeds. */
  lemma {:induction false} ParseLinesMatching(lines: seq<string>)
    ensures var r := ParseLines(lines); var m := Matching(lines);
      |r.timestamps| == |r.processedLines| == |m| &&
      forall k :: 0 <= k < |m| ==>
        r.timestamps[k] == LineTime(m[k]) && r.processedLines[k] == LineText(m[k])
  {
    if |lines| > 0 {
      ParseLinesMatching(lines[..|lines| - 1]);
    }
  }

  /** Every time lies in [0, MaxTagMs] and every text is trimmed. */
  lemma ParsedBounds(lines: seq<string>)
    ensures forall k :: 0 <= k < |ParseLines(lines).timestamps| ==>
              0 <= ParseLines(lines).timestamps[k] <= MaxTagMs
    ensures forall k :: 0 <= k < |ParseLines(lines).processedLines| ==>
              IsTrimmed(ParseLines(lines).processedLines[k])
  {
    ParseLinesMatching(lines);
  }

  /** The loop treats the lines one after the other: parsing a concatenation of line
      lists concatenates the results. */
  lemma {:induction false} ParseLinesAppend(a: seq<string>, b: seq<string>)
    ensures ParseLines(a + b) == Concat(ParseLines(a), ParseLines(b))
    decreases |b|
  {
    if |b| == 0 {
      assert a + b == a;
    } else {
      var front := b[..|b| - 1];
      assert (a + b)[..|a + b| - 1] == a + front;
      assert (a + b)[|a + b| - 1] == b[|b| - 1];
      ParseLinesAppend(a, front);
      ConcatAssociative(ParseLines(a), ParseLines(front), LineParse(b[|b| - 1]));
    }
  }

  lemma ConcatAssociative(p: Parsed, q: Parsed, r: Parsed)
    ensures Concat(Concat(p, q), r) == Concat(p, Concat(q, r))
  {
    assert p.timestamps + q.timestamps + r.timestamps == p.timestamps + (q.timestamps + r.timestamps);
    assert p.processedLines + q.processedLines + r.processedLines ==
           p.processedLines + (q.processedLines + r.processedLines);
  }

  /** A line without a tag contributes nothing wherever it stands. */
  lemma UntaggedLineIgnored(a: seq<string>, line: string, b: seq<string>)
    requires !HasTag(line)
    ensures ParseLines(a + [line] + b) == ParseLines(a + b)
  {
    assert [line][..0] == [];
    assert ParseLines([line]) == Parsed([], []);
    ParseLinesAppend(a, [line]);
    assert ParseLines(a + [line]) == ParseLines(a) by {
      assert ParseLines(a).timestamps + [] == ParseLines(a).timestamps;
      assert ParseLines(a).processedLines + [] == ParseLines(a).processedLines;
    }
    ParseLinesAppend(a + [line], b);
    ParseLinesAppend(a, b);
  }

  /** One LRC line as a writer produces it: a tag, then text. */
  datatype Entry = Entry(tag: Tag, text: string)

  function Render(e: Entry): string
    requires WellFormed(e.tag)
  {
    Format(e.tag) + e.text
  }

  function RenderAll(es: seq<Entry>): (r: seq<string>)
    requires forall e :: e in es ==> WellFormed(e.tag)
    ensures |r| == |es|
    ensures forall k :: 0 <= k < |es| ==> r[k] == Render(es[k])
  {
    if |es| == 0 then []
    else
      var front := es[..|es| - 1];
      assert forall k :: 0 <= k < |front| ==> front[k] == es[k];
      RenderAll(front) + [Render(es[|es| - 1])]
  }

  function Times(es: seq<Entry>): (r: seq<int>)
    ensures |r| == |es|
    ensures forall k :: 0 <= k < |es| ==> r[k] == Millis(es[k].tag)
  {
    if |es| == 0 then []
    else
      var front := es[..|es| - 1];
      assert forall k :: 0 <= k < |front| ==> front[k] == es[k];
      Times(front) + [Millis(es[|es| - 1].tag)]
  }

  function Texts(es: seq<Entry>): (r: seq<string>)
    ensures |r| == |es|
    ensures forall k :: 0 <= k < |es| ==> r[k] == Trim(es[k].text)
  {
    if |es| == 0 then []
    else
      var front := es[..|es| - 1];
      assert forall k :: 0 <= k < |front| ==> front[k] == es[k];
      Texts(front) + [Trim(es[|es| - 1].text)]
  }

  lemma FormatHasNoNewline(t: Tag)
    requires WellFormed(t)
    ensures '\n' !in Format(t)
  {
    var f := Format(t);
    forall k | 0 <= k < |f| ensures f[k] != '\n' {
    }
  }

  /** Parsing round trip: lines written as `[MM:SS.ff]text`, with tag-free text and
      joined by line feeds, parse back to each tag's time and each text trimmed. */
  lemma {:induction false} ParseRoundTrip(es: seq<Entry>)
    requires |es| >= 1
    requires forall e :: e in es ==> WellFormed(e.tag) && '\n' !in e.text && TagFree(e.text)
    ensures ParseLrc(Join(RenderAll(es))) == Parsed(Times(es), Texts(es))
  {
    var lines := RenderAll(es);
    forall k | 0 <= k < |lines| ensures '\n' !in lines[k] {
      FormatHasNoNewline(es[k].tag);
    }
    SplitJoin(lines);
    RenderedParse(es);
  }

  lemma {:induction false} RenderedParse(es: seq<Entry>)
    requires forall e :: e in es ==> WellFormed(e.tag) && '\n' !in e.text && TagFree(e.text)
    ensures ParseLines(RenderAll(es)) == Parsed(Times(es), Texts(es))
  {
    if |es| > 0 {
      var e := es[|es| - 1];
      RenderedParse(es[..|es| - 1]);
      TaggedLine(e.tag, e.text);
      FormatMatches(e.tag, e.text);
      assert RenderAll(es)[..|es| - 1] == RenderAll(es[..|es| - 1]);
    }
  }

  /** A tag never spans a line feed: `a + "\n" + b` holds a tag exactly when `a`
      or `b` does. */
  lemma HasTagAroundNewline(a: string, b: string)
    requires '\n' !in a
    ensures HasTag(a + "\n" + b) <==> HasTag(a) || HasTag(b)
  {
    if HasTag(a + "\n" + b) {
      TagInJoinedLines(a, b);
    }
    if HasTag(a) || HasTag(b) {
      TagSurvivesJoin(a, b);
    }
  }

  lemma TagInJoinedLines(a: string, b: string)
    requires '\n' !in a
    requires HasTag(a + "\n" + b)
    ensures HasTag(a) || HasTag(b)
  {
    var s := a + ("\n" + b);
    assert a + "\n" + b == s;
    var q :| 0 <= q < |s| && TagAt(s, q).Some?;
    TagPositionInJoin(a, b, q);
    if q < |a| {
      assert TagAt(a, q).Some?;
    } else {
      assert TagAt(b, q - |a| - 1).Some?;
    }
  }

  /** Where a tag of `a + "\n" + b` can start: inside `a` as a tag of `a`, or inside `b`
      as a tag of `b`. */
  lemma TagPositionInJoin(a: string, b: string, q: nat)
    requires '\n' !in a
    requires TagAt(a + ("\n" + b), q).Some?
    ensures q < |a| ==> TagAt(a, q).Some?
    ensures q >= |a| ==> q > |a| && TagAt(b, q - |a| - 1).Some?
  {
    var s := a + ("\n" + b);
    var w := Width(TagAt(s, q).value);
    if q + w <= |a| {
      TagAtRestrict(a, "\n" + b, q);
    } else if q <= |a| {
      TagHasNoNewline(s, q, |a|);
    } else {
      assert s[|a| + 1..] == b;
      TagAtSuffix(s, |a| + 1, q - |a| - 1);
    }
  }

  lemma TagSurvivesJoin(a: string, b: string)
    requires HasTag(a) || HasTag(b)
    ensures HasTag(a + "\n" + b)
  {
    var s := a + ("\n" + b);
    assert a + "\n" + b == s;
    if HasTag(a) {
      var q :| 0 <= q < |a| && TagAt(a, q).Some?;
      TagAtExtend(a, "\n" + b, q);
      assert TagAt(s, q).Some?;
    } else {
      var q :| 0 <= q < |b| && TagAt(b, q).Some?;
      assert s[|a| + 1..] == b;
      TagInSuffix(s, |a| + 1, q);
    }
  }

  /** A tag of the suffix `s[k..]` at `q` is a tag of `s` at `k + q`. */
  lemma TagInSuffix(s: string, k: nat, q: nat)
    requires k <= |s| && TagAt(s[k..], q).Some?
    ensures TagAt(s, k + q).Some?
  {
    TagAtSuffix(s, k, q);
  }

  /** Format detection (`regex.test(lyrics)`) succeeds exactly when parsing yields at
      least one line: a tag can only sit inside a single line. */
  lemma DetectionMatchesParse(lyrics: string)
    ensures HasTag(lyrics) <==> |ParseLrc(lyrics).timestamps| > 0
  {
    HasTagInSomeLine(lyrics);
    ParseLinesMatching(Split(lyrics));
  }

  lemma {:induction false} MatchingAppend(a: seq<string>, b: seq<string>)
    ensures Matching(a + b) == Matching(a) + Matching(b)
    decreases |b|
  {
    if |b| == 0 {
      assert a + b == a;
    } else {
      assert (a + b)[..|a + b| - 1] == a + b[..|b| - 1];
      MatchingAppend(a, b[..|b| - 1]);
    }
  }

  lemma {:induction false} HasTagInSomeLine(s: string)
    ensures HasTag(s) <==> |Matching(Split(s))| > 0
    decreases |s|
  {
    var i := NewlineIndex(s);
    if i == |s| {
      assert Split(s) == [s];
      assert [s][..0] == [];
    } else {
      var a, b := s[..i], s[i + 1..];
      assert s == a + "\n" + b;
      HasTagAroundNewline(a, b);
      HasTagInSomeLine(b);
      assert Split(s) == [a] + Split(b);
      MatchingAppend([a], Split(b));
      assert [a][..0] == [];
    }
  }
}
