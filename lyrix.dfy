/** The `Lyrix` component (src/components/Lyrix.tsx) as a playback controller: the
    current line, the timer's running flag and start index, and the host callbacks it
    emits. React's state hooks and effects become explicit steps: each event handler is
    a step function on `State`, and `CommitStep` is the effect that runs after a render.
    The word-level `Lyric` component of the same file is `LyricPlayer`. */
module Lyrix {
  import opened Wrappers
  import opened LrcText
  import opened LrcTag
  import opened ProcessLrc
  import opened Timeline
  import opened Host
  import opened Scroll

  /** Lyrix.tsx:40: the parsed lines when the text holds a tag, else the raw lines. */
  function LyricsArray(lyrics: string): (lines: seq<string>)
    ensures |lines| >= 1
    ensures HasTag(lyrics) ==> |lines| == |ParseLrc(lyrics).timestamps|
  {
    DetectionMatchesParse(lyrics);
    if HasTag(lyrics) then ParseLrc(lyrics).processedLines else Split(lyrics)
  }

  /** Lyrix.tsx:46 as written: `timestamps ?? test(lyrics) ? parsed : undefined` parses
      as `(timestamps ?? test(lyrics)) ? parsed : undefined`, and an array is truthy. */
  function TimeStampsAsWritten(lyrics: string, timestamps: Option<seq<int>>): (r: Option<seq<int>>)
    ensures timestamps.Some? ==> r == Some(ParseLrc(lyrics).timestamps)
  {
    if timestamps.Some? || HasTag(lyrics) then Some(ParseLrc(lyrics).timestamps) else None
  }

  /** A supplied `timestamps` prop is discarded: with plain text and two supplied
      times, the component ends up with the empty parse of the text. */
  lemma SuppliedTimestampsIgnored()
    ensures TimeStampsAsWritten("", Some([0, 1000])) == Some([])
  {
    assert Split("") == [""];
    assert ParseLines([""]) == ParseLines([]) by {
      assert [""][..0] == [];
      assert !HasTag("");
    }
  }

  /** The timestamps the comment at Lyrix.tsx:45 describes: the supplied ones, else
      those parsed from LRC text, else none. */
  function TimeStampsOf(lyrics: string, timestamps: Option<seq<int>>): (r: Option<seq<int>>)
    ensures timestamps.Some? ==> r == timestamps
    ensures timestamps.None? ==> r == TimeStampsAsWritten(lyrics, timestamps)
    ensures timestamps.None? && HasTag(lyrics) ==> r == Some(ParseLrc(lyrics).timestamps)
    ensures r.None? <==> timestamps.None? && !HasTag(lyrics)
  {
    if timestamps.Some? then timestamps
    else if HasTag(lyrics) then Some(ParseLrc(lyrics).timestamps)
    else None
  }

  /** The props the controller reads. */
  datatype Config = Config(
    lines: seq<string>,
    timeStamps: Option<seq<int>>,
    delayEnd: int,
    disableInteractivity: bool,
    singleLineMode: bool,
    callbacks: Callbacks)

  /** `currentLine`, the timer (running flag and the index it was started from), the
      line last reported by the `onLineChange` effect, and the host callbacks so far. */
  datatype State = State(
    currentLine: nat,
    running: bool,
    timerFrom: nat,
    committed: Option<nat>,
    log: seq<Event>)

  function Initial(start: nat): State {
    State(start, false, start, None, [])
  }

  /** Lyrix.tsx:49: the timer's delays, `delayEnd` after the last line. */
  function Deltas(c: Config): (r: Option<seq<int>>)
    ensures r.Some? <==> c.timeStamps.Some?
    ensures c.timeStamps.Some? ==> r == Some(TimeDeltas(c.timeStamps.value, c.delayEnd))
    ensures r.Some? && |r.value| > 0 ==> r.value[|r.value| - 1] == c.delayEnd
  {
    if c.timeStamps.Some? then Some(TimeDeltas(c.timeStamps.value, c.delayEnd)) else None
  }

  /** The `start` and `position` props' default (Lyrix.tsx:39 and 312, Lyrics.tsx:47). */
  const DefaultStart: nat := 0

  /** Lines take clicks only when interactivity is enabled and the list is rendered:
      in single-line mode the component renders a `Lyric` instead (Lyrix.tsx:267-285),
      so no line carries the click handler. */
  predicate Clickable(c: Config) {
    !c.disableInteractivity && !c.singleLineMode
  }

  /** The current line lies inside the list. */
  predicate InRange(c: Config, s: State) {
    s.currentLine < |c.lines|
  }

  /** `play()` of the imperative handle (Lyrix.tsx:72-75): starts the timer from the
      current line and reports its time, whether or not the timer was already running. */
  function PlayStep(c: Config, s: State): (r: State)
    ensures r.running && r.timerFrom == s.currentLine
    ensures r.currentLine == s.currentLine && r.committed == s.committed
    ensures r.log == s.log + PlayEvent(c.callbacks, c.timeStamps, s.currentLine)
  {
    s.(running := true, timerFrom := s.currentLine,
       log := s.log + PlayEvent(c.callbacks, c.timeStamps, s.currentLine))
  }

  /** `pause()` of the imperative handle (Lyrix.tsx:76-79). */
  function PauseStep(c: Config, s: State): (r: State)
    ensures !r.running && r.timerFrom == s.timerFrom
    ensures r.currentLine == s.currentLine && r.committed == s.committed
    ensures r.log == s.log + Emit(c.callbacks.onPause, OnPause)
  {
    s.(running := false, log := s.log + PauseEvent(c.callbacks))
  }

  /** Pause when running, play when stopped (Lyrix.tsx:99-105 and 245-252). */
  function ToggleStep(c: Config, s: State): (r: State)
    ensures r.running == !s.running && r.currentLine == s.currentLine && r.committed == s.committed
    ensures r.timerFrom == if s.running then s.timerFrom else s.currentLine
    ensures r.log == s.log + (if s.running then Emit(c.callbacks.onPause, OnPause)
                              else PlayEvent(c.callbacks, c.timeStamps, s.currentLine))
  {
    if s.running then PauseStep(c, s) else PlayStep(c, s)
  }

  /** The keydown listener (Lyrix.tsx:93-106): not installed when interactivity is
      disabled; the space bar toggles. Enter scrolls the DOM and changes no state here. */
  function KeyDownStep(c: Config, s: State, key: string): (r: State)
    ensures c.disableInteractivity || (key != " " && key != "Spacebar") ==> r == s
    ensures !c.disableInteractivity && (key == " " || key == "Spacebar") ==>
      r == ToggleStep(c, s) && r.running == !s.running && r.currentLine == s.currentLine
  {
    if c.disableInteractivity then s
    else if key == " " || key == "Spacebar" then ToggleStep(c, s)
    else s
  }

  /** A click on line `index` (Lyrix.tsx:243-258): the current line toggles; any other
      line pauses, becomes current and is reported to `onUserLineChange`. */
  function ClickStep(c: Config, s: State, index: nat): (r: State)
    requires index < |c.lines|
    ensures !Clickable(c) ==> r == s
    ensures Clickable(c) ==>
      r.currentLine == index && r.running == (s.currentLine == index && !s.running)
  {
    if !Clickable(c) then s
    else if s.currentLine == index then ToggleStep(c, s)
    else
      var p := PauseStep(c, s);
      p.(currentLine := index,
         log := p.log + Emit(c.callbacks.onUserLineChange,
                             OnUserLineChange(index, ReportedTime(c.timeStamps, index))))
  }

  /** The timer's expiry (Lyrix.tsx:52): only a running timer fires. */
  function TickStep(c: Config, s: State): (r: State)
    ensures s.currentLine <= r.currentLine <= s.currentLine + 1
    ensures r.currentLine != s.currentLine <==> s.running && s.currentLine + 1 < |c.lines|
    ensures r.(currentLine := s.currentLine) == s
  {
    if s.running then s.(currentLine := Advance(s.currentLine, |c.lines|)) else s
  }

  /** The effect after a render (Lyrix.tsx:87-89): when `currentLine` differs from what
      was last committed, report it once to `onLineChange`. */
  function CommitStep(c: Config, s: State): (r: State)
    ensures r.committed == Some(s.currentLine)
    ensures r.(committed := s.committed, log := s.log) == s
    ensures s.log <= r.log && |r.log| <= |s.log| + 1
    ensures |r.log| == |s.log| + 1 <==> s.committed != Some(s.currentLine) && c.callbacks.onLineChange
  {
    if s.committed == Some(s.currentLine) then s
    else s.(committed := Some(s.currentLine),
            log := s.log + Emit(c.callbacks.onLineChange,
                                OnLineChange(s.currentLine, ReportedTime(c.timeStamps, s.currentLine))))
  }

  /** The scroll effect (Lyrix.tsx:150-167): never in single-line mode. */
  function ScrollDecision(c: Config, s: State, elementCount: nat, g: Geometry, ratio: real): (r: Option<real>)
    ensures r.Some? <==> !c.singleLineMode && Applies(elementCount, |c.lines|, s.currentLine) &&
                         (NextBelowBand(g, ratio) || CurrentAboveBand(g, ratio))
    ensures r.Some? ==> r.value - g.scrollTop == (g.lineTop - g.viewTop) - (1.0 - ratio) * g.viewHeight
  {
    if c.singleLineMode then None else ScrollTarget(elementCount, |c.lines|, s.currentLine, g, ratio)
  }

  /** Clicking another line: the timer stops, `onPause` fires, the line becomes current
      and `onUserLineChange` reports it with its time or -1; nothing else changes. */
  lemma ClickOtherLine(c: Config, s: State, index: nat)
    requires Clickable(c) && index < |c.lines| && index != s.currentLine
    ensures var r := ClickStep(c, s, index);
      !r.running && r.currentLine == index && r.timerFrom == s.timerFrom &&
      r.committed == s.committed &&
      r.log == s.log + Emit(c.callbacks.onPause, OnPause) +
               Emit(c.callbacks.onUserLineChange, OnUserLineChange(index, ReportedTime(c.timeStamps, index)))
  {
  }

  /** Clicking the current line toggles: a running timer stops and `onPause` fires; a
      stopped one starts from that line and `onPlay` fires only when the line has a
      time. The current line stays. */
  lemma ClickCurrentLine(c: Config, s: State)
    requires Clickable(c) && s.currentLine < |c.lines|
    ensures var r := ClickStep(c, s, s.currentLine);
      r.currentLine == s.currentLine && r.running == !s.running &&
      (s.running ==> r.log == s.log + Emit(c.callbacks.onPause, OnPause) && r.timerFrom == s.timerFrom) &&
      (!s.running ==>
         r.timerFrom == s.currentLine && r.log == s.log + PlayEvent(c.callbacks, c.timeStamps, s.currentLine))
  {
  }

  /** The space bar (Lyrix.tsx:99-105) and a click on the current line (Lyrix.tsx:245-252)
      are the same toggle, so `ClickCurrentLine` describes both. */
  lemma SpaceIsClickOnCurrent(c: Config, s: State)
    requires Clickable(c) && s.currentLine < |c.lines|
    ensures KeyDownStep(c, s, " ") == KeyDownStep(c, s, "Spacebar") == ClickStep(c, s, s.currentLine)
  {
  }

  /** In single-line mode no line can be clicked, but the space bar still toggles
      (the listener returns early only after the space-bar branch, Lyrix.tsx:108). */
  lemma SingleLineModeInputs(c: Config, s: State, index: nat)
    requires c.singleLineMode && !c.disableInteractivity && index < |c.lines|
    ensures ClickStep(c, s, index) == s
    ensures KeyDownStep(c, s, " ") == ToggleStep(c, s)
  {
  }

  /** With interactivity disabled, clicks and key presses change nothing and emit nothing. */
  lemma DisabledInputIgnored(c: Config, s: State, index: nat, key: string)
    requires c.disableInteractivity && index < |c.lines|
    ensures ClickStep(c, s, index) == s && KeyDownStep(c, s, key) == s
  {
  }

  /** Two presses of the space bar restore the running flag and keep the line. */
  lemma SpaceTwiceRestores(c: Config, s: State)
    requires !c.disableInteractivity
    ensures var r := KeyDownStep(c, KeyDownStep(c, s, " "), " ");
      r.running == s.running && r.currentLine == s.currentLine
  {
  }

  /** `play()` is not idempotent: called twice it restarts the timer twice and
      reports `onPlay` twice. */
  lemma PlayTwiceReportsTwice(c: Config, s: State)
    requires c.callbacks.onPlay && c.timeStamps.Some? && |c.timeStamps.value| > s.currentLine
    ensures var t := c.timeStamps.value[s.currentLine];
      PlayStep(c, PlayStep(c, s)).log == s.log + [OnPlay(t), OnPlay(t)]
  {
  }

  /** Every step keeps the current line inside the list. */
  lemma StepsKeepInRange(c: Config, s: State, index: nat, key: string)
    requires InRange(c, s) && index < |c.lines|
    ensures InRange(c, PlayStep(c, s)) && InRange(c, PauseStep(c, s))
    ensures InRange(c, KeyDownStep(c, s, key)) && InRange(c, ClickStep(c, s, index))
    ensures InRange(c, TickStep(c, s)) && InRange(c, CommitStep(c, s))
  {
  }

  /** Each change of the current line is reported exactly once: committing a changed
      line appends one `onLineChange` (when supplied), committing again appends nothing. */
  lemma CommitReportsOnce(c: Config, s: State)
    ensures s.committed != Some(s.currentLine) ==>
      CommitStep(c, s).log == s.log + Emit(c.callbacks.onLineChange,
        OnLineChange(s.currentLine, ReportedTime(c.timeStamps, s.currentLine)))
    ensures CommitStep(c, CommitStep(c, s)) == CommitStep(c, s)
  {
  }

  /** At the last line a timer expiry changes nothing, so no `onLineChange` follows;
      reaching the last line from the one before reports it once. */
  lemma AdvanceAtEnd(c: Config, s: State)
    requires s.running && s.committed == Some(s.currentLine) && |c.lines| >= 2
    ensures s.currentLine == |c.lines| - 1 ==>
      CommitStep(c, TickStep(c, s)) == s
    ensures s.currentLine == |c.lines| - 2 ==>
      CommitStep(c, TickStep(c, s)).log == s.log + Emit(c.callbacks.onLineChange,
        OnLineChange(|c.lines| - 1, ReportedTime(c.timeStamps, |c.lines| - 1)))
  {
  }

  /** The `Lyrix` component: its props as `config`, its React state as fields. */
  class LyrixPlayer {
    const config: Config
    var currentLine: nat
    var running: bool
    var timerFrom: nat
    var committed: Option<nat>
    var log: seq<Event>

    function Snapshot(): State
      reads this
    {
      State(currentLine, running, timerFrom, committed, log)
    }

    /** Lyrix.tsx:39-46: the lines, the start index, the timestamps chosen as the
        corrected `TimeStampsOf` describes (supplied ones are kept), and `delayEnd`,
        10000 ms when not supplied. */
    constructor (lyrics: string, start: Option<nat>, timestamps: Option<seq<int>>, delayEnd: Option<int>,
                 disableInteractivity: bool, singleLineMode: bool, callbacks: Callbacks)
      ensures config == Config(LyricsArray(lyrics), TimeStampsOf(lyrics, timestamps),
                               delayEnd.GetOr(LyrixDelayEnd), disableInteractivity, singleLineMode, callbacks)
      ensures Snapshot() == Initial(start.GetOr(DefaultStart))
    {
      var lrc := HasTag(lyrics);
      var lines := Split(lyrics);
      var parsedTimes: Option<seq<int>> := None;
      if lrc {
        var ts, processed := ProcessLrcLyrics(lyrics);
        lines := processed;
        parsedTimes := Some(ts);
      }
      var timeStamps := if timestamps.Some? then timestamps else parsedTimes;
      config := Config(lines, timeStamps, delayEnd.GetOr(LyrixDelayEnd), disableInteractivity, singleLineMode, callbacks);
      var first := start.GetOr(DefaultStart);
      currentLine, running, timerFrom, committed, log := first, false, first, None, [];
    }

    method Play()
      modifies this
      ensures Snapshot() == PlayStep(config, old(Snapshot()))
    {
      running, timerFrom := true, currentLine;
      if config.callbacks.onPlay && config.timeStamps.Some? && |config.timeStamps.value| > currentLine {
        log := log + [OnPlay(config.timeStamps.value[currentLine])];
      }
    }

    method Pause()
      modifies this
      ensures Snapshot() == PauseStep(config, old(Snapshot()))
    {
      running := false;
      if config.callbacks.onPause {
        log := log + [OnPause];
      }
    }

    /** `isPlaying()` (Lyrix.tsx:80). */
    method IsPlaying() returns (playing: bool)
      ensures playing == running
    {
      playing := running;
    }

    method KeyDown(key: string)
      modifies this
      ensures Snapshot() == KeyDownStep(config, old(Snapshot()), key)
    {
      if config.disableInteractivity {
        return;
      }
      if key == " " || key == "Spacebar" {
        if running {
          Pause();
        } else {
          Play();
        }
      }
    }

    method ClickLine(index: nat)
      requires index < |config.lines|
      modifies this
      ensures Snapshot() == ClickStep(config, old(Snapshot()), index)
    {
      if !Clickable(config) {
        return;
      }
      if currentLine == index {
        if running {
          Pause();
        } else {
          Play();
        }
      } else {
        Pause();
        currentLine := index;
        if config.callbacks.onUserLineChange {
          log := log + [OnUserLineChange(index, ReportedTime(config.timeStamps, index))];
        }
      }
    }

    method Tick()
      modifies this
      ensures Snapshot() == TickStep(config, old(Snapshot()))
    {
      if running {
        currentLine := if currentLine < |config.lines| - 1 then currentLine + 1 else currentLine;
      }
    }

    method Commit()
      modifies this
      ensures Snapshot() == CommitStep(config, old(Snapshot()))
    {
      if committed != Some(currentLine) {
        committed := Some(currentLine);
        if config.callbacks.onLineChange {
          log := log + [OnLineChange(currentLine, ReportedTime(config.timeStamps, currentLine))];
        }
      }
    }
  }

  /** The word-level `Lyric` component (Lyrix.tsx:312-408). Its words and word times
      come from `processLrcLine`, which is not part of this model, so they are given. */
  class LyricPlayer {
    const words: seq<string>
    const timestamps: Option<seq<int>>
    const reportsWords: bool
    var currentWord: nat
    var running: bool
    var timerFrom: nat
    var reported: Option<nat>
    var wordLog: seq<nat>

    /** Lyrix.tsx:372: the word delays, 200 ms after the last word. */
    function WordDeltas(): (r: Option<seq<int>>)
      ensures r.Some? <==> timestamps.Some?
      ensures timestamps.Some? ==> r == Some(TimeDeltas(timestamps.value, LyricWordDelayEnd))
      ensures r.Some? && |r.value| > 0 ==> r.value[|r.value| - 1] == LyricWordDelayEnd
      ensures r.Some? ==> timestamps.Some? && |r.value| == |timestamps.value| &&
                          forall i :: 0 <= i < |r.value| - 1 ==> r.value[i] == timestamps.value[i + 1] - timestamps.value[i]
    {
      if timestamps.Some? then Some(TimeDeltas(timestamps.value, LyricWordDelayEnd)) else None
    }

    /** Lyrix.tsx:402: the class of every word. */
    function WordClasses(): (r: seq<LineClass>)
      reads this
      ensures currentWord < |words| ==>
        r == seq(currentWord, _ => Past) + [Current] + seq(|words| - currentWord - 1, _ => Future)
    {
      if currentWord < |words| then
        ClassesShape(|words|, currentWord);
        Classes(|words|, currentWord)
      else Classes(|words|, currentWord)
    }

    constructor (words: seq<string>, timestamps: Option<seq<int>>, position: Option<nat>, reportsWords: bool)
      ensures this.words == words && this.timestamps == timestamps && this.reportsWords == reportsWords
      ensures currentWord == position.GetOr(DefaultStart) && !running && reported == None && wordLog == []
    {
      this.words, this.timestamps, this.reportsWords := words, timestamps, reportsWords;
      var first := position.GetOr(DefaultStart);
      currentWord, running, timerFrom, reported, wordLog := first, false, first, None, [];
    }

    /** `play()` (Lyrix.tsx:385-387): starts the timer from the current word; no callback. */
    method Play()
      modifies this
      ensures running && timerFrom == old(currentWord)
      ensures currentWord == old(currentWord) && reported == old(reported) && wordLog == old(wordLog)
    {
      running, timerFrom := true, currentWord;
    }

    /** `pause()` (Lyrix.tsx:388-390). */
    method Pause()
      modifies this
      ensures !running && timerFrom == old(timerFrom)
      ensures currentWord == old(currentWord) && reported == old(reported) && wordLog == old(wordLog)
    {
      running := false;
    }

    method IsPlaying() returns (playing: bool)
      ensures playing == running
    {
      playing := running;
    }

    /** The timer's expiry (Lyrix.tsx:373): the next word, held at the last. */
    method Tick()
      modifies this
      ensures currentWord == if old(running) then Advance(old(currentWord), |words|) else old(currentWord)
      ensures running == old(running) && timerFrom == old(timerFrom)
      ensures reported == old(reported) && wordLog == old(wordLog)
    {
      if running {
        currentWord := if currentWord < |words| - 1 then currentWord + 1 else currentWord;
      }
    }

    /** The effect after a render (Lyrix.tsx:394-396): a changed word is reported once. */
    method Commit()
      modifies this
      ensures reported == Some(old(currentWord))
      ensures wordLog == if old(reported) != Some(old(currentWord)) && reportsWords
                         then old(wordLog) + [old(currentWord)] else old(wordLog)
      ensures currentWord == old(currentWord) && running == old(running) && timerFrom == old(timerFrom)
    {
      if reported != Some(currentWord) {
        reported := Some(currentWord);
        if reportsWords {
          wordLog := wordLog + [currentWord];
        }
      }
    }
  }
}
