/** The host application's callback surface, recorded as a log of events. A callback
    the host did not supply is skipped, so each one is paired with a presence flag. */
module Host {
  import opened Wrappers
  import opened LrcText
  import opened LrcTag
  import opened ProcessLrc

  /** One host callback invocation; times are milliseconds (the source passes seconds). */
  datatype Event =
    | OnPlay(timeMs: int)
    | OnPause
    | OnUserLineChange(line: nat, timeMs: int)
    | OnLineChange(line: nat, timeMs: int)

  /** Which of `onPlay`, `onPause`, `onUserLineChange`, `onLineChange` the host supplied. */
  datatype Callbacks = Callbacks(onPlay: bool, onPause: bool, onUserLineChange: bool, onLineChange: bool)

  /** `if (callback) callback(...)`: the event when the callback is present, else nothing. */
  function Emit(present: bool, e: Event): (r: seq<Event>)
    ensures |r| <= 1
  {
    if present then [e] else []
  }

  /** `timeStamps && timeStamps.length > i ? timeStamps[i] : -1` (Lyrix.tsx:88, 257). */
  function ReportedTime(timeStamps: Option<seq<int>>, i: nat): (r: int)
    ensures timeStamps.Some? && i < |timeStamps.value| ==> r == timeStamps.value[i]
    ensures timeStamps.None? || i >= |timeStamps.value| ==> r == -1
  {
    if timeStamps.Some? && |timeStamps.value| > i then timeStamps.value[i] else -1
  }

  /** For times parsed from LRC text, the reported time is -1 exactly for an index
      with no time, and otherwise a tag's time in [0, MaxTagMs]. */
  lemma ReportedTimeOfParsed(lyrics: string, i: nat)
    ensures var ts := ParseLrc(lyrics).timestamps;
      var t := ReportedTime(Some(ts), i);
      (t == -1 <==> i >= |ts|) && (i < |ts| ==> 0 <= t <= MaxTagMs)
  {
    var ts := ParseLrc(lyrics).timestamps;
    assert ts == ParseLines(Split(lyrics)).timestamps;
    ParsedBounds(Split(lyrics));
    if i < |ts| {
      assert 0 <= ts[i] <= MaxTagMs;
    }
  }

  /** The `onPlay` event for line `i`: only when the callback exists and line `i` has a
      time (`onPlay && timeStamps && timeStamps.length > i`). */
  function PlayEvent(cb: Callbacks, timeStamps: Option<seq<int>>, i: nat): (r: seq<Event>)
    ensures |r| <= 1
    ensures r != [] <==> cb.onPlay && timeStamps.Some? && |timeStamps.value| > i
    ensures r != [] ==> r == [OnPlay(ReportedTime(timeStamps, i))]
  {
    if cb.onPlay && timeStamps.Some? && |timeStamps.value| > i then [OnPlay(timeStamps.value[i])] else []
  }

  function PauseEvent(cb: Callbacks): (r: seq<Event>)
    ensures r == [OnPause] <==> cb.onPause
    ensures r == [] <==> !cb.onPause
  {
    Emit(cb.onPause, OnPause)
  }
}
