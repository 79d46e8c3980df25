/** The timeline derived from the line times: the delays the timer waits between
    lines, the advance step the timer triggers, and the delay the `Lyrics`
    component hands to its timer. All durations are milliseconds. */
module Timeline {
  import opened Wrappers

  /** End buffers held after the last item: `delayEnd`'s default in Lyrix.tsx:39, the
      word-level `Lyric` (Lyrix.tsx:372) and `Lyrics` (Lyrics.tsx:59). */
  const LyrixDelayEnd: int := 10000
  const LyricWordDelayEnd: int := 200
  const LyricsDelayEnd: int := 1000

  /** The fallback delay of Lyrics.tsx:51, 69 and 233. */
  const DefaultDelay: int := 1000

  /** `timeStamps.map(...)`: the gap to the next item, the end buffer for the last. */
  function TimeDeltas(ts: seq<int>, endBuffer: int): (d: seq<int>)
    ensures |d| == |ts|
    ensures forall i :: 0 <= i < |ts| - 1 ==> d[i] == ts[i + 1] - ts[i]
    ensures |ts| > 0 ==> d[|ts| - 1] == endBuffer
  {
    seq(|ts|, i requires 0 <= i < |ts| => if i + 1 < |ts| then ts[i + 1] - ts[i] else endBuffer)
  }

  /** Walks the gaps forward from a start time: the times at which items activate. */
  function Replay(start: int, gaps: seq<int>): (r: seq<int>)
    ensures |r| == |gaps| + 1 && r[0] == start
    decreases |gaps|
  {
    if |gaps| == 0 then [start] else [start] + Replay(start + gaps[0], gaps[1..])
  }

  /** The delays lose nothing: replaying every delay but the end buffer from the first
      time gives back every line time. */
  lemma {:induction false} DeltasReplay(ts: seq<int>, endBuffer: int)
    requires |ts| >= 1
    ensures Replay(ts[0], TimeDeltas(ts, endBuffer)[..|ts| - 1]) == ts
  {
    var gaps := TimeDeltas(ts, endBuffer)[..|ts| - 1];
    if |ts| == 1 {
      assert gaps == [];
    } else {
      var rest := ts[1..];
      var restGaps := TimeDeltas(rest, endBuffer)[..|rest| - 1];
      DeltasReplay(rest, endBuffer);
      DeltasTail(ts, endBuffer);
      assert gaps[1..] == restGaps;
      assert ts == [ts[0]] + rest;
    }
  }

  lemma DeltasTail(ts: seq<int>, endBuffer: int)
    requires |ts| >= 2
    ensures TimeDeltas(ts, endBuffer)[1..] == TimeDeltas(ts[1..], endBuffer)
  {
  }

  ghost predicate NonDecreasing(ts: seq<int>) {
    forall i, j :: 0 <= i <= j < |ts| ==> ts[i] <= ts[j]
  }

  /** The timeline never asks for a negative wait exactly when the line times are in
      order (the end buffer aside). */
  lemma {:induction false} DeltasNonNegative(ts: seq<int>, endBuffer: int)
    ensures NonDecreasing(ts) <==>
            forall i :: 0 <= i < |ts| - 1 ==> TimeDeltas(ts, endBuffer)[i] >= 0
  {
    var d := TimeDeltas(ts, endBuffer);
    if forall i :: 0 <= i < |ts| - 1 ==> d[i] >= 0 {
      forall i, j | 0 <= i <= j < |ts| ensures ts[i] <= ts[j] {
        AdjacentOrdered(ts, endBuffer, i, j);
      }
    }
  }

  lemma {:induction false} AdjacentOrdered(ts: seq<int>, endBuffer: int, i: nat, j: nat)
    requires i <= j < |ts|
    requires forall k :: 0 <= k < |ts| - 1 ==> TimeDeltas(ts, endBuffer)[k] >= 0
    ensures ts[i] <= ts[j]
    decreases j - i
  {
    if i < j {
      assert TimeDeltas(ts, endBuffer)[i] >= 0;
      AdjacentOrdered(ts, endBuffer, i + 1, j);
    }
  }

  /** The timer callback: move to the next item unless already at the last
      (`current < length - 1 ? current + 1 : current`). */
  function Advance(current: nat, length: nat): (r: nat)
    ensures current <= r <= current + 1
    ensures r == current + 1 <==> current + 1 < length
  {
    if current < length - 1 then current + 1 else current
  }

  /** `k` timer expiries in a row. */
  function Ticks(current: nat, length: nat, k: nat): nat
    decreases k
  {
    if k == 0 then current else Ticks(Advance(current, length), length, k - 1)
  }

  /** From an index inside the list, `k` expiries reach `current + k`, held at the
      last index: the index never leaves [current, length - 1]. */
  lemma {:induction false} TicksClamp(current: nat, length: nat, k: nat)
    requires current < length
    ensures Ticks(current, length, k) == if current + k < length then current + k else length - 1
    decreases k
  {
    if k > 0 {
      TicksClamp(Advance(current, length), length, k - 1);
    }
  }

  /** Lyrics.tsx:69, the delay handed to the timer at each render. A running timer is
      already waiting out the current line's delay, so the next one is chosen. */
  function NextDelay(deltas: Option<seq<int>>, running: bool, current: nat): (r: int)
    ensures deltas.None? ==> r == DefaultDelay
    ensures var i := if running then current + 1 else current;
      deltas.Some? ==> r == if i < |deltas.value| then deltas.value[i] else DefaultDelay
  {
    match deltas
    case None => DefaultDelay
    case Some(d) =>
      if running then (if |d| > current + 1 then d[current + 1] else DefaultDelay)
      else (if |d| > current then d[current] else DefaultDelay)
  }

  /** What the chosen delay means on the `Lyrics` timeline: a stopped timer waits out
      the gap from the current line to the next, a running one the gap after that; past
      the last gap it is 1000 ms, which is also the end buffer. */
  lemma NextDelayIsGap(ts: seq<int>, running: bool, current: nat)
    ensures var r := NextDelay(Some(TimeDeltas(ts, LyricsDelayEnd)), running, current);
      var i := if running then current + 1 else current;
      r == if i + 1 < |ts| then ts[i + 1] - ts[i] else DefaultDelay
  {
  }

  /** The three highlight classes of Lyrix.tsx:242 and 402. */
  datatype LineClass = Past | Current | Future

  function ClassOf(index: nat, current: nat): LineClass {
    if index == current then Current else if index < current then Past else Future
  }

  function Classes(n: nat, current: nat): (r: seq<LineClass>)
    ensures |r| == n
    ensures forall i :: 0 <= i < n ==> r[i] == ClassOf(i, current)
  {
    seq(n, i requires 0 <= i < n => ClassOf(i, current))
  }

  /** With the current index inside the list, the rendered classes are a run of
      `Past`, exactly one `Current`, then a run of `Future`. */
  lemma ClassesShape(n: nat, current: nat)
    requires current < n
    ensures Classes(n, current) ==
      seq(current, _ => Past) + [Current] + seq(n - current - 1, _ => Future)
  {
  }

  /** With the current index past the end (a `start` beyond the list), nothing is
      current and every item is `Past`. */
  lemma ClassesBeyondEnd(n: nat, current: nat)
    requires current >= n
    ensures Classes(n, current) == seq(n, _ => Past)
  {
  }
}
