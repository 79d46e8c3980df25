/** The LRC time tag `[MM:SS.ff]`, matched as the regular expression
    `/\[(\d{2}):(\d{2})\.(\d{2,3})\]/g` matches it. */
module LrcTag {
  import opened Wrappers

  /** A matched tag: the three decimal fields and how many digits the fraction had. */
  datatype Tag = Tag(minutes: nat, seconds: nat, fraction: nat, fractionDigits: nat)

  /** The largest time any tag can denote: `[99:99.999]`. */
  const MaxTagMs: int := 99 * 60000 + 99 * 1000 + 999 * 10

  /** `\d` without the `u` flag: the ASCII digits only. */
  predicate IsDigit(c: char) {
    '0' <= c <= '9'
  }

  function DigitValue(c: char): (d: nat)
    requires IsDigit(c)
    ensures d < 10
  {
    c as int - '0' as int
  }

  function Digit(d: nat): (c: char)
    requires d < 10
    ensures IsDigit(c) && DigitValue(c) == d
  {
    ('0' as int + d) as char
  }

  /** Well-formed fields: what `\d{2}:\d{2}.\d{2,3}` can hold. */
  predicate WellFormed(t: Tag) {
    t.minutes < 100 && t.seconds < 100 &&
    (t.fractionDigits == 2 || t.fractionDigits == 3) &&
    (if t.fractionDigits == 2 then t.fraction < 100 else t.fraction < 1000)
  }

  /** Characters the tag occupies: 10 for `[MM:SS.ff]`, 11 for `[MM:SS.fff]`. */
  function Width(t: Tag): nat {
    8 + t.fractionDigits
  }

  /** The tag's time in milliseconds, with the fraction always scaled by 10
      (processLRC.ts:12), even when it has three digits. */
  function Millis(t: Tag): (r: int)
    ensures r >= 0 && r % 10 == 0
  {
    t.minutes * 60000 + t.seconds * 1000 + t.fraction * 10
  }

  /** The tag that the regular expression matches starting exactly at position `p`.
      `\d{2,3}` is greedy: it takes a third digit only when `]` follows it, and it
      cannot fall back to two digits when a third digit is present. */
  function TagAt(s: string, p: nat): (r: Option<Tag>)
    ensures r.Some? ==> WellFormed(r.value) && p + Width(r.value) <= |s|
  {
    if p + 10 <= |s| && s[p] == '[' && IsDigit(s[p + 1]) && IsDigit(s[p + 2]) && s[p + 3] == ':'
       && IsDigit(s[p + 4]) && IsDigit(s[p + 5]) && s[p + 6] == '.'
       && IsDigit(s[p + 7]) && IsDigit(s[p + 8])
    then
      var mm := 10 * DigitValue(s[p + 1]) + DigitValue(s[p + 2]);
      var ss := 10 * DigitValue(s[p + 4]) + DigitValue(s[p + 5]);
      var ff := 10 * DigitValue(s[p + 7]) + DigitValue(s[p + 8]);
      if s[p + 9] == ']' then Some(Tag(mm, ss, ff, 2))
      else if p + 11 <= |s| && IsDigit(s[p + 9]) && s[p + 10] == ']'
      then Some(Tag(mm, ss, 10 * ff + DigitValue(s[p + 9]), 3))
      else None
    else None
  }

  /** Whether `s` holds a tag anywhere (what `regex.test(s)` answers). */
  ghost predicate HasTagFrom(s: string, p: nat) {
    exists q :: p <= q < |s| && TagAt(s, q).Some?
  }

  /** Leftmost position at or after `p` where a tag starts: the match `exec` finds. */
  function FirstTagFrom(s: string, p: nat): (r: Option<nat>)
    ensures r.Some? ==> p <= r.value < |s| && TagAt(s, r.value).Some?
    ensures r.Some? ==> forall q :: p <= q < r.value ==> TagAt(s, q).None?
    ensures r.None? <==> !HasTagFrom(s, p)
    decreases |s| - p
  {
    if p >= |s| then None
    else if TagAt(s, p).Some? then Some(p)
    else FirstTagFrom(s, p + 1)
  }

  function FirstTag(s: string): (r: Option<nat>) {
    FirstTagFrom(s, 0)
  }

  /** `regex.test(s)` on a regular expression whose `lastIndex` is 0. */
  function HasTag(s: string): (b: bool)
    ensures b <==> HasTagFrom(s, 0)
  {
    FirstTag(s).Some?
  }

  /** `s.replace(regex, "")`: every tag found scanning left to right is removed. */
  function StripTags(s: string): (r: string)
    ensures |r| <= |s|
    decreases |s|
  {
    if |s| == 0 then ""
    else match TagAt(s, 0)
      case Some(t) => StripTags(s[Width(t)..])
      case None => [s[0]] + StripTags(s[1..])
  }

  /** A tag at position `q` of a suffix is a tag at position `k + q` of the whole text. */
  lemma TagAtSuffix(s: string, k: nat, q: nat)
    requires k <= |s|
    ensures TagAt(s[k..], q) == TagAt(s, k + q)
  {
  }

  /** A tag of `a` is still a tag of `a` followed by anything. */
  lemma TagAtExtend(a: string, b: string, q: nat)
    requires TagAt(a, q).Some?
    ensures TagAt(a + b, q) == TagAt(a, q)
  {
    var s := a + b;
    assert forall j :: 0 <= j < |a| ==> s[j] == a[j];
  }

  /** A tag of `a + b` that ends inside `a` is a tag of `a`. */
  lemma TagAtRestrict(a: string, b: string, q: nat)
    requires TagAt(a + b, q).Some?
    requires q + Width(TagAt(a + b, q).value) <= |a|
    ensures TagAt(a, q) == TagAt(a + b, q)
  {
    var s := a + b;
    assert forall j :: 0 <= j < |a| ==> s[j] == a[j];
  }

  /** No character a tag covers is a line feed. */
  lemma TagHasNoNewline(s: string, q: nat, j: nat)
    requires TagAt(s, q).Some?
    requires q <= j < q + Width(TagAt(s, q).value)
    ensures s[j] != '\n'
  {
  }

  /** Only the first character a tag covers is an opening bracket. */
  lemma TagHasNoInnerBracket(s: string, q: nat, j: nat)
    requires TagAt(s, q).Some?
    requires q < j < q + Width(TagAt(s, q).value)
    ensures s[j] != '['
  {
  }

  /** Text in which no tag matches anywhere. */
  ghost predicate TagFree(s: string) {
    !HasTagFrom(s, 0)
  }

  /** Removing the tags from tag-free text leaves it as it was. */
  lemma {:induction false} StripTagFree(s: string)
    requires TagFree(s)
    ensures StripTags(s) == s
    decreases |s|
  {
    if |s| > 0 {
      assert TagAt(s, 0).None?;
      forall q | 0 <= q < |s[1..]|
        ensures TagAt(s[1..], q).None?
      {
        TagAtSuffix(s, 1, q);
      }
      StripTagFree(s[1..]);
      assert s == [s[0]] + s[1..];
    }
  }

  /** The text of a well-formed tag, e.g. `[01:02.34]`. */
  function Format(t: Tag): (r: string)
    requires WellFormed(t)
    ensures |r| == Width(t)
  {
    ['[', Digit(t.minutes / 10), Digit(t.minutes % 10), ':',
     Digit(t.seconds / 10), Digit(t.seconds % 10), '.'] +
    (if t.fractionDigits == 2 then [Digit(t.fraction / 10), Digit(t.fraction % 10)]
     else [Digit(t.fraction / 100), Digit(t.fraction / 10 % 10), Digit(t.fraction % 10)]) +
    [']']
  }

  lemma TwoDigits(n: nat)
    requires n < 100
    ensures 10 * DigitValue(Digit(n / 10)) + DigitValue(Digit(n % 10)) == n
  {
  }

  lemma ThreeDigits(n: nat)
    requires n < 1000
    ensures 10 * (10 * DigitValue(Digit(n / 100)) + DigitValue(Digit(n / 10 % 10)))
            + DigitValue(Digit(n % 10)) == n
  {
  }

  /** Matching a formatted tag recovers the tag, whatever text follows it. */
  lemma FormatMatches(t: Tag, rest: string)
    requires WellFormed(t)
    ensures TagAt(Format(t) + rest, 0) == Some(t)
  {
    var s := Format(t) + rest;
    TwoDigits(t.minutes);
    TwoDigits(t.seconds);
    assert s[1] == Digit(t.minutes / 10) && s[2] == Digit(t.minutes % 10);
    assert s[4] == Digit(t.seconds / 10) && s[5] == Digit(t.seconds % 10);
    if t.fractionDigits == 3 {
      ThreeDigits(t.fraction);
      assert s[7] == Digit(t.fraction / 100) && s[8] == Digit(t.fraction / 10 % 10);
      assert s[9] == Digit(t.fraction % 10) && s[10] == ']';
    } else {
      TwoDigits(t.fraction);
      assert s[7] == Digit(t.fraction / 10) && s[8] == Digit(t.fraction % 10);
      assert s[9] == ']';
    }
  }

  lemma DigitOfValue(c: char)
    requires IsDigit(c)
    ensures Digit(DigitValue(c)) == c
  {
  }

  lemma SplitTwo(a: nat, b: nat)
    requires b < 10
    ensures (10 * a + b) / 10 == a && (10 * a + b) % 10 == b
  {
  }

  lemma SplitThree(a: nat, b: nat, c: nat)
    requires a < 10 && b < 10 && c < 10
    ensures (10 * (10 * a + b) + c) / 100 == a
    ensures (10 * (10 * a + b) + c) / 10 % 10 == b
    ensures (10 * (10 * a + b) + c) % 10 == c
  {
    SplitTwo(10 * a + b, c);
    SplitTwo(a, b);
  }

  /** Whatever the regular expression matches is exactly the text `Format` writes
      for the tag it reports: matching is sound as well as complete. */
  lemma TagAtSound(s: string, p: nat)
    requires TagAt(s, p).Some?
    ensures s[p..p + Width(TagAt(s, p).value)] == Format(TagAt(s, p).value)
  {
    var t := TagAt(s, p).value;
    var f := Format(t);
    SplitTwo(DigitValue(s[p + 1]), DigitValue(s[p + 2]));
    SplitTwo(DigitValue(s[p + 4]), DigitValue(s[p + 5]));
    DigitOfValue(s[p + 1]);
    DigitOfValue(s[p + 2]);
    DigitOfValue(s[p + 4]);
    DigitOfValue(s[p + 5]);
    DigitOfValue(s[p + 7]);
    DigitOfValue(s[p + 8]);
    assert f[1] == s[p + 1] && f[2] == s[p + 2] && f[4] == s[p + 4] && f[5] == s[p + 5];
    if t.fractionDigits == 2 {
      SplitTwo(DigitValue(s[p + 7]), DigitValue(s[p + 8]));
      assert f[7] == s[p + 7] && f[8] == s[p + 8] && f[9] == s[p + 9];
    } else {
      SplitThree(DigitValue(s[p + 7]), DigitValue(s[p + 8]), DigitValue(s[p + 9]));
      DigitOfValue(s[p + 9]);
      assert f[7] == s[p + 7] && f[8] == s[p + 8] && f[9] == s[p + 9] && f[10] == s[p + 10];
    }
    assert forall j :: 0 <= j < Width(t) ==> s[p..p + Width(t)][j] == f[j];
  }

  /** No tag starts inside tag-free text `a` when a tag follows it: one starting
      inside `a` would either end inside `a` or cover the `[` that opens the next tag. */
  lemma NoTagBefore(a: string, rest: string, q: nat)
    requires TagFree(a) && TagAt(rest, 0).Some?
    requires q < |a|
    ensures TagAt(a + rest, q).None?
  {
    var s := a + rest;
    if TagAt(s, q).Some? {
      if q + Width(TagAt(s, q).value) <= |a| {
        TagAtRestrict(a, rest, q);
        assert false;
      } else {
        TagHasNoInnerBracket(s, q, |a|);
        assert false;
      }
    }
  }

  /** Dropping the first character of tag-free text leaves it tag-free. */
  lemma TagFreeTail(a: string)
    requires |a| > 0 && TagFree(a)
    ensures TagFree(a[1..])
  {
    forall q | 0 <= q < |a[1..]|
      ensures TagAt(a[1..], q).None?
    {
      TagAtSuffix(a, 1, q);
    }
  }

  /** Where no tag starts, the first character is kept. */
  lemma StripTagsKeep(s: string)
    requires |s| > 0 && TagAt(s, 0).None?
    ensures StripTags(s) == [s[0]] + StripTags(s[1..])
  {
  }

  /** Where a tag starts, it is dropped. */
  lemma StripTagsDrop(s: string, t: Tag)
    requires TagAt(s, 0) == Some(t)
    ensures StripTags(s) == StripTags(s[Width(t)..])
  {
  }

  /** Tag-free text in front of a tag passes through tag removal unchanged. */
  lemma {:induction false} StripTagsBeforeTag(a: string, rest: string)
    requires TagFree(a) && TagAt(rest, 0).Some?
    ensures StripTags(a + rest) == a + StripTags(rest)
    decreases |a|
  {
    if |a| > 0 {
      var s := a + rest;
      NoTagBefore(a, rest, 0);
      StripTagsKeep(s);
      assert s[1..] == a[1..] + rest;
      TagFreeTail(a);
      StripTagsBeforeTag(a[1..], rest);
      assert a == [a[0]] + a[1..];
    } else {
      assert a + rest == rest;
    }
  }

  /** Removing tags from tag-free text, a tag and whatever follows keeps the text,
      drops the tag and goes on with the rest, so a line with several tags, e.g.
      `[00:12.00][00:45.00]Chorus`, loses all of them. */
  lemma StripTagsAround(a: string, t: Tag, b: string)
    requires WellFormed(t) && TagFree(a)
    ensures StripTags(a + Format(t) + b) == a + StripTags(b)
  {
    var rest := Format(t) + b;
    FormatMatches(t, b);
    StripTagsBeforeTag(a, rest);
    StripTagsDrop(rest, t);
    assert rest[Width(t)..] == b;
    assert a + Format(t) + b == a + rest;
  }

  /** A line with two leading tags: the first tag is the one `exec` finds, and
      removing tags leaves the text. */
  lemma {:induction false} TwoTagLine(t1: Tag, t2: Tag, text: string)
    requires WellFormed(t1) && WellFormed(t2) && TagFree(text)
    ensures FirstTag(Format(t1) + Format(t2) + text) == Some(0)
    ensures TagAt(Format(t1) + Format(t2) + text, 0) == Some(t1)
    ensures StripTags(Format(t1) + Format(t2) + text) == text
  {
    FormatMatches(t1, Format(t2) + text);
    assert Format(t1) + Format(t2) + text == Format(t1) + (Format(t2) + text);
    assert Format(t1) + Format(t2) + text == [] + Format(t1) + (Format(t2) + text);
    StripTagsAround([], t1, Format(t2) + text);
    assert Format(t2) + text == [] + Format(t2) + text;
    StripTagsAround([], t2, text);
    StripTagFree(text);
  }

  /** A line that starts with a tag and continues with tag-free text: its first tag
      is that one, and removing tags leaves exactly the text. */
  lemma {:induction false} TaggedLine(t: Tag, text: string)
    requires WellFormed(t)
    requires TagFree(text)
    ensures FirstTag(Format(t) + text) == Some(0)
    ensures StripTags(Format(t) + text) == text
  {
    var s := Format(t) + text;
    FormatMatches(t, text);
    assert s[Width(t)..] == text;
    StripTagFree(text);
  }

  /** Every tag's time lies between 0 and `MaxTagMs`. */
  lemma MillisBounds(t: Tag)
    requires WellFormed(t)
    ensures 0 <= Millis(t) <= MaxTagMs
  {
  }
}
