/** The JavaScript string operations the LRC parser relies on:
    `String.prototype.split("\n")` and `String.prototype.trim()`. */
module LrcText {

  /** ECMAScript WhiteSpace and LineTerminator code points, the set `trim()` removes. */
  predicate IsWhitespace(c: char) {
    var n := c as int;
    n == 0x09 || n == 0x0A || n == 0x0B || n == 0x0C || n == 0x0D || n == 0x20 ||
    n == 0xA0 || n == 0x1680 || (0x2000 <= n <= 0x200A) || n == 0x2028 || n == 0x2029 ||
    n == 0x202F || n == 0x205F || n == 0x3000 || n == 0xFEFF
  }

  /** No leading and no trailing whitespace. */
  predicate IsTrimmed(s: string) {
    s == [] || (!IsWhitespace(s[0]) && !IsWhitespace(s[|s| - 1]))
  }

  /** The end of the whitespace run that starts at `i`. */
  function LeadEnd(s: string, i: nat): (r: nat)
    requires i <= |s|
    ensures i <= r <= |s|
    ensures forall k :: i <= k < r ==> IsWhitespace(s[k])
    ensures r < |s| ==> !IsWhitespace(s[r])
    decreases |s| - i
  {
    if i < |s| && IsWhitespace(s[i]) then LeadEnd(s, i + 1) else i
  }

  /** The start of the whitespace run that ends at `j`, going no lower than `lo`. */
  function TrailStart(s: string, lo: nat, j: nat): (r: nat)
    requires lo <= j <= |s|
    ensures lo <= r <= j
    ensures forall k :: r <= k < j ==> IsWhitespace(s[k])
    ensures r > lo ==> !IsWhitespace(s[r - 1])
    decreases j - lo
  {
    if j > lo && IsWhitespace(s[j - 1]) then TrailStart(s, lo, j - 1) else j
  }

  /** `trim()`: the text between the leading and trailing whitespace runs. */
  function Trim(s: string): (r: string)
    ensures IsTrimmed(r) && |r| <= |s|
  {
    var i := LeadEnd(s, 0);
    s[i..TrailStart(s, i, |s|)]
  }

  /** What `trim()` keeps is a contiguous slice of the input, and everything it cuts
      off on either side is whitespace. */
  lemma TrimIsSlice(s: string)
    ensures var i := LeadEnd(s, 0); var j := TrailStart(s, i, |s|);
      Trim(s) == s[i..j] &&
      (forall k :: 0 <= k < i ==> IsWhitespace(s[k])) &&
      (forall k :: j <= k < |s| ==> IsWhitespace(s[k]))
  {
  }

  /** Trimming text that already has no whitespace at either end changes nothing. */
  lemma TrimOfTrimmed(s: string)
    requires IsTrimmed(s)
    ensures Trim(s) == s
  {
  }

  /** `trim()` is idempotent. */
  lemma TrimIdempotent(s: string)
    ensures Trim(Trim(s)) == Trim(s)
  {
    TrimOfTrimmed(Trim(s));
  }

  /** Index of the first line feed in `s`, or `|s|` when there is none. */
  function NewlineIndex(s: string): (r: nat)
    ensures r <= |s|
    ensures r < |s| ==> s[r] == '\n'
    ensures forall k :: 0 <= k < r ==> s[k] != '\n'
  {
    if |s| == 0 || s[0] == '\n' then 0 else 1 + NewlineIndex(s[1..])
  }

  /** `split("\n")`: the pieces between line feeds; never empty (`"".split("\n")` is `[""]`). */
  function Split(s: string): (r: seq<string>)
    ensures |r| >= 1
    ensures forall k :: 0 <= k < |r| ==> '\n' !in r[k]
    decreases |s|
  {
    var i := NewlineIndex(s);
    if i == |s| then [s] else [s[..i]] + Split(s[i + 1..])
  }

  /** The number of line feeds in `s`. */
  function CountNewlines(s: string): nat {
    if |s| == 0 then 0 else (if s[0] == '\n' then 1 else 0) + CountNewlines(s[1..])
  }

  lemma {:induction false} CountNewlinesAppend(a: string, b: string)
    ensures CountNewlines(a + b) == CountNewlines(a) + CountNewlines(b)
  {
    if |a| > 0 {
      assert (a + b)[1..] == a[1..] + b;
      CountNewlinesAppend(a[1..], b);
    } else {
      assert a + b == b;
    }
  }

  lemma {:induction false} CountNewlinesNone(a: string)
    requires '\n' !in a
    ensures CountNewlines(a) == 0
  {
    if |a| > 0 {
      assert a[0] in a;
      CountNewlinesNone(a[1..]);
    }
  }

  /** `split("\n")` yields exactly one more piece than there are line feeds. */
  lemma {:induction false} SplitLength(s: string)
    ensures |Split(s)| == CountNewlines(s) + 1
    decreases |s|
  {
    var i := NewlineIndex(s);
    assert '\n' !in s[..i];
    CountNewlinesNone(s[..i]);
    if i == |s| {
      assert s[..i] == s;
    } else {
      SplitLength(s[i + 1..]);
      assert s == s[..i] + ([s[i]] + s[i + 1..]);
      CountNewlinesAppend(s[..i], [s[i]] + s[i + 1..]);
      CountNewlinesAppend([s[i]], s[i + 1..]);
    }
  }

  /** `join("\n")`: the inverse of `Split`. */
  function Join(lines: seq<string>): (r: string)
    requires |lines| >= 1
  {
    if |lines| == 1 then lines[0] else lines[0] + "\n" + Join(lines[1..])
  }

  /** Splitting the joined text gives back the lines, provided no line holds a line feed. */
  lemma {:induction false} SplitJoin(lines: seq<string>)
    requires |lines| >= 1
    requires forall k :: 0 <= k < |lines| ==> '\n' !in lines[k]
    ensures Split(Join(lines)) == lines
  {
    var s := Join(lines);
    if |lines| == 1 {
      NewlineIndexOfPlain(lines[0], "");
      assert lines[0] + "" == lines[0];
    } else {
      var rest := Join(lines[1..]);
      assert s == lines[0] + ("\n" + rest);
      NewlineIndexOfPlain(lines[0], "\n" + rest);
      assert s[..|lines[0]|] == lines[0];
      assert s[|lines[0]| + 1..] == rest;
      SplitJoin(lines[1..]);
      assert lines == [lines[0]] + lines[1..];
    }
  }

  /** The first line feed of `a + b` is the first one of `b` when `a` has none. */
  lemma {:induction false} NewlineIndexOfPlain(a: string, b: string)
    requires '\n' !in a
    ensures NewlineIndex(a + b) == |a| + NewlineIndex(b)
  {
    if |a| > 0 {
      assert a[0] in a;
      assert (a + b)[1..] == a[1..] + b;
      NewlineIndexOfPlain(a[1..], b);
    } else {
      assert a + b == b;
    }
  }
}
