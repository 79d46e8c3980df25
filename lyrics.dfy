/** The older `Lyrics` component (src/components/Lyrics.tsx), driven by an `action`
    prop. Each render hands the timer the delay computed at the previous render, picks
    the next delay, and compares `action` with the last one seen: a new "play" or
    "pause" starts or pauses the timer and leaves the matching callback pending, and
    the effect after the render fires it once. Its text and timestamps are chosen as
    in `Lyrix` (Lyrics.tsx:48 and 56 repeat Lyrix.tsx:40 and 46). */
module Lyrics {
  import opened Wrappers
  import opened LrcText
  import opened LrcTag
  import opened ProcessLrc
  import opened Timeline
  import opened Host
  import Lyrix

  /** The `action` prop. */
  datatype Action = PlayAction | PauseAction | NoAction

  /** The pending callback of `callbackAfterRender`: 0 none, 1 `onPlay`, 2 `onPause`. */
  const NoCallback: nat := 0
  const PlayCallback: nat := 1
  const PauseCallback: nat := 2

  /** The props the component reads; `onLineChange` does not exist here. */
  datatype Config = Config(lines: seq<string>, timeStamps: Option<seq<int>>, callbacks: Callbacks)

  /** `currentLine`, the timer's running flag and the delay it was last handed, the
      refs `delay`, `lastAction` and `callbackAfterRender`, and the callbacks so far. */
  datatype State = State(
    currentLine: nat,
    running: bool,
    timerDelay: int,
    delay: int,
    lastAction: Action,
    pending: nat,
    log: seq<Event>)

  /** Lyrics.tsx:49-53: both delays start at 1000 ms, nothing seen, nothing pending. */
  function Initial(start: nat): State {
    State(start, false, DefaultDelay, DefaultDelay, NoAction, NoCallback, [])
  }

  /** Lyrics.tsx:59: the line delays, 1000 ms after the last line. */
  function Deltas(c: Config): (r: Option<seq<int>>)
    ensures r.Some? <==> c.timeStamps.Some?
    ensures c.timeStamps.Some? ==> r == Some(TimeDeltas(c.timeStamps.value, LyricsDelayEnd))
    ensures r.Some? && |r.value| > 0 ==> r.value[|r.value| - 1] == LyricsDelayEnd
  {
    if c.timeStamps.Some? then Some(TimeDeltas(c.timeStamps.value, LyricsDelayEnd)) else None
  }

  /** One render (Lyrics.tsx:64, 69 and 144-154). The timer is handed the delay the
      previous render chose; the next one is chosen from the running flag as it stood
      before this render's own start or pause. */
  function RenderStep(c: Config, s: State, action: Action): (r: State)
    ensures r.timerDelay == s.delay && r.delay == NextDelay(Deltas(c), s.running, s.currentLine)
    ensures r.lastAction == action && r.currentLine == s.currentLine && r.log == s.log
    ensures action == s.lastAction || action == NoAction ==> r.running == s.running && r.pending == s.pending
    ensures action != s.lastAction && action == PlayAction ==> r.running && r.pending == PlayCallback
    ensures action != s.lastAction && action == PauseAction ==> !r.running && r.pending == PauseCallback
  {
    var t := s.(timerDelay := s.delay, delay := NextDelay(Deltas(c), s.running, s.currentLine));
    if action == s.lastAction then t
    else if action == PlayAction then t.(lastAction := action, running := true, pending := PlayCallback)
    else if action == PauseAction then t.(lastAction := action, running := false, pending := PauseCallback)
    else t.(lastAction := action)
  }

  /** The effect after every render (Lyrics.tsx:156-166): fire the pending callback and
      clear it. */
  function FlushStep(c: Config, s: State): (r: State)
    ensures r.pending == (if s.pending == PlayCallback || s.pending == PauseCallback then NoCallback
                          else s.pending)
    ensures r.(log := s.log, pending := s.pending) == s
    ensures r.log == s.log + (if s.pending == PlayCallback then PlayEvent(c.callbacks, c.timeStamps, s.currentLine)
                              else if s.pending == PauseCallback then Emit(c.callbacks.onPause, OnPause)
                              else [])
  {
    if s.pending == PlayCallback then
      s.(pending := NoCallback, log := s.log + PlayEvent(c.callbacks, c.timeStamps, s.currentLine))
    else if s.pending == PauseCallback then
      s.(pending := NoCallback, log := s.log + PauseEvent(c.callbacks))
    else s
  }

  /** A render followed by its effects. */
  function UpdateStep(c: Config, s: State, action: Action): State {
    FlushStep(c, RenderStep(c, s, action))
  }

  /** Pause when running, start when stopped, reporting the current line's time. */
  function ToggleStep(c: Config, s: State): (r: State)
    ensures r.running == !s.running
    ensures r.(running := s.running, log := s.log) == s
    ensures r.log == s.log + (if s.running then Emit(c.callbacks.onPause, OnPause)
                              else PlayEvent(c.callbacks, c.timeStamps, s.currentLine))
  {
    if s.running then s.(running := false, log := s.log + PauseEvent(c.callbacks))
    else s.(running := true, log := s.log + PlayEvent(c.callbacks, c.timeStamps, s.currentLine))
  }

  /** The keydown listener (Lyrics.tsx:76-86): the space bar toggles; Enter scrolls the
      DOM and changes no state here. */
  function KeyDownStep(c: Config, s: State, key: string): (r: State)
    ensures key != " " && key != "Spacebar" ==> r == s
    ensures key == " " || key == "Spacebar" ==> r == ToggleStep(c, s)
  {
    if key == " " || key == "Spacebar" then ToggleStep(c, s) else s
  }

  /** The delay a click on another line stores (Lyrics.tsx:233). */
  function ClickDelay(c: Config, index: nat): (r: int)
    ensures c.timeStamps.None? ==> r == DefaultDelay
    ensures c.timeStamps.Some? ==>
      var ts := c.timeStamps.value;
      r == if index + 1 < |ts| then ts[index + 1] - ts[index] else DefaultDelay
  {
    var d := Deltas(c);
    if d.Some? && |d.value| > index then d.value[index] else DefaultDelay
  }

  /** A click on line `index` (Lyrics.tsx:223-239): the current line toggles; any other
      line stores its delay, pauses, becomes current and is reported. */
  function ClickStep(c: Config, s: State, index: nat): (r: State)
    requires index < |c.lines|
    ensures r.currentLine == index && r.running == (s.currentLine == index && !s.running)
    ensures r.delay == (if s.currentLine == index then s.delay else ClickDelay(c, index))
    ensures r.pending == s.pending && r.lastAction == s.lastAction && r.timerDelay == s.timerDelay
  {
    if s.currentLine == index then ToggleStep(c, s)
    else
      s.(delay := ClickDelay(c, index), running := false, currentLine := index,
         log := s.log + PauseEvent(c.callbacks) +
                Emit(c.callbacks.onUserLineChange, OnUserLineChange(index, ReportedTime(c.timeStamps, index))))
  }

  /** The timer's expiry (Lyrics.tsx:61). */
  function TickStep(c: Config, s: State): (r: State)
    ensures s.currentLine <= r.currentLine <= s.currentLine + 1
    ensures r.currentLine != s.currentLine <==> s.running && s.currentLine + 1 < |c.lines|
    ensures r.(currentLine := s.currentLine) == s
  {
    if s.running then s.(currentLine := Advance(s.currentLine, |c.lines|)) else s
  }

  /** Supplying the action already seen starts or pauses nothing and leaves nothing
      pending: only the two delays move. */
  lemma SameActionNoOp(c: Config, s: State)
    ensures var r := RenderStep(c, s, s.lastAction);
      r == s.(timerDelay := s.delay, delay := NextDelay(Deltas(c), s.running, s.currentLine))
    ensures UpdateStep(c, s, s.lastAction).log == FlushStep(c, s).log
  {
  }

  /** A change to "none" only records it. */
  lemma NoneOnlyRecords(c: Config, s: State)
    requires s.lastAction != NoAction
    ensures var r := RenderStep(c, s, NoAction);
      r.lastAction == NoAction && r.running == s.running && r.pending == s.pending &&
      r.log == s.log && r.currentLine == s.currentLine
  {
  }

  /** A new "play" starts the timer, and after the render `onPlay` fires once, only
      when the current line has a time; a new "pause" stops it and `onPause` fires
      once. In both cases nothing is left pending. */
  lemma ActionEdges(c: Config, s: State)
    ensures s.lastAction != PlayAction ==>
      var r := UpdateStep(c, s, PlayAction);
      r.running && r.lastAction == PlayAction && r.pending == NoCallback &&
      r.log == s.log + PlayEvent(c.callbacks, c.timeStamps, s.currentLine)
    ensures s.lastAction != PauseAction ==>
      var r := UpdateStep(c, s, PauseAction);
      !r.running && r.lastAction == PauseAction && r.pending == NoCallback &&
      r.log == s.log + Emit(c.callbacks.onPause, OnPause)
  {
  }

  /** The effect fires at most one callback and clears the flag, so running it again
      fires nothing. */
  lemma FlushOnce(c: Config, s: State)
    ensures var r := FlushStep(c, s);
      |s.log| <= |r.log| <= |s.log| + 1 && r.log[..|s.log|] == s.log &&
      (s.pending == PlayCallback || s.pending == PauseCallback ==> r.pending == NoCallback) &&
      FlushStep(c, r) == r
  {
  }

  /** Re-rendering with the same action after an update fires no further callback and
      leaves the timer as it was. */
  lemma RepeatActionSilent(c: Config, s: State, action: Action)
    ensures var t := UpdateStep(c, s, action);
      var u := UpdateStep(c, t, action);
      u.log == t.log && u.running == t.running && u.currentLine == t.currentLine
  {
  }

  /** With parsed or supplied times, the delay stored by a click on line `index` is the
      gap from that line to the next, or 1000 ms from the last line on. */
  lemma ClickDelayIsGap(c: Config, index: nat)
    requires c.timeStamps.Some?
    ensures var ts := c.timeStamps.value;
      ClickDelay(c, index) == if index + 1 < |ts| then ts[index + 1] - ts[index] else DefaultDelay
  {
  }

  /** Clicking another line stops the timer, reports `onPause` then `onUserLineChange`,
      and the render that follows hands the timer the clicked line's delay and keeps
      choosing it while the timer stays stopped. */
  lemma ClickOtherLine(c: Config, s: State, index: nat, action: Action)
    requires index < |c.lines| && index != s.currentLine && action == s.lastAction
    ensures var r := ClickStep(c, s, index);
      !r.running && r.currentLine == index &&
      r.log == s.log + Emit(c.callbacks.onPause, OnPause) +
               Emit(c.callbacks.onUserLineChange, OnUserLineChange(index, ReportedTime(c.timeStamps, index)))
    ensures var r := RenderStep(c, ClickStep(c, s, index), action);
      r.timerDelay == ClickDelay(c, index) && r.delay == ClickDelay(c, index)
  {
  }

  /** Clicking the current line, or pressing the space bar, toggles the timer and
      keeps the line. */
  lemma ToggleInputs(c: Config, s: State)
    requires s.currentLine < |c.lines|
    ensures ClickStep(c, s, s.currentLine) == KeyDownStep(c, s, " ") == ToggleStep(c, s)
    ensures var r := ToggleStep(c, s);
      r.running == !s.running && r.currentLine == s.currentLine && r.pending == s.pending &&
      r.log == s.log + (if s.running then Emit(c.callbacks.onPause, OnPause)
                        else PlayEvent(c.callbacks, c.timeStamps, s.currentLine))
  {
  }

  /** The current line never leaves the list. */
  lemma StepsKeepInRange(c: Config, s: State, index: nat, key: string, action: Action)
    requires s.currentLine < |c.lines| && index < |c.lines|
    ensures UpdateStep(c, s, action).currentLine < |c.lines|
    ensures KeyDownStep(c, s, key).currentLine < |c.lines|
    ensures ClickStep(c, s, index).currentLine < |c.lines|
    ensures TickStep(c, s).currentLine < |c.lines|
  {
  }

  /** The `Lyrics` component: its props as `config`, its state and refs as fields. */
  class LyricsPlayer {
    const config: Config
    var currentLine: nat
    var running: bool
    var timerDelay: int
    var delay: int
    var lastAction: Action
    var pending: nat
    var log: seq<Event>

    function Snapshot(): State
      reads this
    {
      State(currentLine, running, timerDelay, delay, lastAction, pending, log)
    }

    /** Lyrics.tsx:48-56: the lines and timestamps as in `Lyrix`, the start line. */
    constructor (lyrics: string, start: Option<nat>, timestamps: Option<seq<int>>, callbacks: Callbacks)
      ensures config == Config(Lyrix.LyricsArray(lyrics), Lyrix.TimeStampsOf(lyrics, timestamps), callbacks)
      ensures Snapshot() == Initial(start.GetOr(Lyrix.DefaultStart))
    {
      var lines := Split(lyrics);
      var parsedTimes: Option<seq<int>> := None;
      if HasTag(lyrics) {
        var ts, processed := ProcessLrcLyrics(lyrics);
        lines := processed;
        parsedTimes := Some(ts);
      }
      var timeStamps := if timestamps.Some? then timestamps else parsedTimes;
      config := Config(lines, timeStamps, callbacks);
      currentLine, running, timerDelay, delay := start.GetOr(Lyrix.DefaultStart), false, DefaultDelay, DefaultDelay;
      lastAction, pending, log := NoAction, NoCallback, [];
    }

    /** A render with the given `action` prop. */
    method Render(action: Action)
      modifies this
      ensures Snapshot() == RenderStep(config, old(Snapshot()), action)
    {
      timerDelay := delay;
      var deltas := Deltas(config);
      if deltas.None? {
        delay := DefaultDelay;
      } else if running {
        delay := if |deltas.value| > currentLine + 1 then deltas.value[currentLine + 1] else DefaultDelay;
      } else {
        delay := if |deltas.value| > currentLine then deltas.value[currentLine] else DefaultDelay;
      }
      if action != lastAction {
        lastAction := action;
        if action == PlayAction {
          running, pending := true, PlayCallback;
        } else if action == PauseAction {
          running, pending := false, PauseCallback;
        }
      }
    }

    /** The effect after a render. */
    method Flush()
      modifies this
      ensures Snapshot() == FlushStep(config, old(Snapshot()))
    {
      if pending > NoCallback {
        if pending == PlayCallback {
          pending := NoCallback;
          log := log + PlayEvent(config.callbacks, config.timeStamps, currentLine);
        } else if pending == PauseCallback {
          pending := NoCallback;
          log := log + PauseEvent(config.callbacks);
        }
      }
    }

    method KeyDown(key: string)
      modifies this
      ensures Snapshot() == KeyDownStep(config, old(Snapshot()), key)
    {
      if key == " " || key == "Spacebar" {
        Toggle();
      }
    }

    method ClickLine(index: nat)
      requires index < |config.lines|
      modifies this
      ensures Snapshot() == ClickStep(config, old(Snapshot()), index)
    {
      if currentLine == index {
        Toggle();
      } else {
        delay := ClickDelay(config, index);
        running := false;
        if config.callbacks.onPause {
          log := log + [OnPause];
        }
        currentLine := index;
        if config.callbacks.onUserLineChange {
          log := log + [OnUserLineChange(index, ReportedTime(config.timeStamps, index))];
        }
      }
    }

    method Tick()
      modifies this
      ensures Snapshot() == TickStep(config, old(Snapshot()))
    {
      if running {
        currentLine := if currentLine < |config.lines| - 1 then currentLine + 1 else currentLine;
      }
    }

    method Toggle()
      modifies this
      ensures Snapshot() == ToggleStep(config, old(Snapshot()))
    {
      if running {
        running := false;
        if config.callbacks.onPause {
          log := log + [OnPause];
        }
      } else {
        running := true;
        if config.callbacks.onPlay && config.timeStamps.Some? && |config.timeStamps.value| > currentLine {
          log := log + [OnPlay(config.timeStamps.value[currentLine])];
        }
      }
    }
  }
}
