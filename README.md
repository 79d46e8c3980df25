# lyr-ix synchronisation engine in Dafny

This project models the synchronisation engine of the lyr-ix React karaoke widget, not its rendering. It has six parts.

**LRC parsing.** `processLrcLyrics` splits the text on line feeds. For each line holding a `[MM:SS.ff]` or `[MM:SS.fff]` time tag, it keeps:
- the first tag's time;
- the line with every tag removed and then trimmed.

**The timeline.** The delays the timer waits between lines, and the clamped advance of the current index.

**The Lyrix playback controller.** It covers:
- the imperative `play`/`pause`/`isPlaying` handle;
- the space-bar toggle;
- the line click handler;
- the `onLineChange` effect;
- its word-level sibling `Lyric`.

**The older Lyrics controller.** It is driven by an `action` prop. It detects edges against the last action seen and defers `onPlay`/`onPause` to the effect after the render.

**The scroll decision.** It decides whether the view scrolls and to which `scrollTop`.

**Highlight classes.** Each line or word is marked past, current or future.

Modules:
- `LrcText`: the JavaScript `split("\n")` and `trim()`.
- `LrcTag`: the time tag regular expression and its `exec`, `test` and `replace`.
- `ProcessLrc`: the parser.
- `Timeline`: delays, advance, the `Lyrics` delay choice and the classes.
- `Host`: the callback events.
- `Scroll`: the scroll decision.
- `Lyrix` and `Lyrics`: the two components.

Each component is modelled at two levels:
- a value-level `State` with one step function per event handler or effect, which the lemmas are about;
- a class whose fields are the component's state and refs. Each method's postcondition ties the new state to the step function applied to the old state.

Units:
- Times are integer milliseconds: the numerator of the source's division by 1000, so the callbacks carry milliseconds where the source passes seconds.
- The scroll geometry is `real`.

React's scheduling is made explicit. A handler is a method call, and the effects are the `Commit` (Lyrix) and `Flush` (Lyrics) steps that a host calls after each render. The `Lyrics` render is the `Render` step.

Where the code and its description differ, the model follows the code:
- `play()` of the Lyrix handle is not idempotent. Each call restarts the timer and fires `onPlay` again (`Lyrix.PlayTwiceReportsTwice`).
- The fraction is always multiplied by 10, even when it has three digits, so `[00:00.123]` is 1230 ms.

One place deliberately departs from the code: the choice of timestamps. As written, Lyrix.tsx:46 and Lyrics.tsx:56 discard a supplied `timestamps` prop and use the times parsed from the text (see "## Findings"). Both controllers here use the corrected choice `Lyrix.TimeStampsOf`: supplied timestamps are kept as given, and the text is parsed only when none are supplied. The as-written choice is modelled separately as `Lyrix.TimeStampsAsWritten`.

## Model

| member | source | states |
|---|---|---|
| LrcText.Trim | src/util/processLRC.ts:13 | the result has no ECMAScript whitespace at either end and is never longer than the input |
| LrcText.TrimIsSlice | src/util/processLRC.ts:13 | the result is the contiguous slice between the leading and trailing whitespace runs, and everything cut off is whitespace |
| LrcText.TrimIdempotent | src/util/processLRC.ts:13 | trimming twice is trimming once |
| LrcText.Split | src/util/processLRC.ts:5 | `split("\n")` yields at least one piece and no piece holds a line feed |
| LrcText.SplitLength | src/util/processLRC.ts:5 | the number of pieces is the number of line feeds plus one |
| LrcText.SplitJoin | src/util/processLRC.ts:5 | splitting lines joined by line feeds gives the lines back |
| LrcTag.TagAt | src/util/processLRC.ts:1 | a tag matched at a position has 2-digit minutes and seconds, a 2- or 3-digit fraction, and fits in the text |
| LrcTag.FirstTagFrom | src/util/processLRC.ts:10 | `exec` finds the leftmost tag: it is a tag, none starts before it, and there is no result exactly when no tag exists |
| LrcTag.HasTag | src/components/Lyrix.tsx:40 | `test` succeeds exactly when a tag starts somewhere in the text |
| LrcTag.TagAtSound | src/util/processLRC.ts:1 | whatever the regular expression matches at a position is, character for character, the written form of the tag it reports |
| LrcTag.Millis | src/util/processLRC.ts:12 | a tag's time in milliseconds is never negative and always a multiple of 10, because the fraction is scaled by 10 |
| LrcTag.StripTags | src/util/processLRC.ts:13 | `replace(regex, "")` never lengthens the text |
| LrcTag.StripTagsBeforeTag | src/util/processLRC.ts:13 | tag-free text in front of a tag passes through tag removal unchanged, whatever follows |
| LrcTag.StripTagsAround | src/util/processLRC.ts:13 | in tag-free text, a tag and any rest, the tag is removed, the text kept and the rest stripped in turn, so every tag of a line goes |
| LrcTag.TwoTagLine | src/util/processLRC.ts:10-13 | in a line with two leading tags, `exec` finds the first and `replace` removes both, leaving the text |
| LrcTag.StripTagFree | src/util/processLRC.ts:13 | removing tags from text with no tag leaves it unchanged |
| LrcTag.FormatMatches | src/util/processLRC.ts:1 | the regular expression matched on a written tag recovers exactly that tag |
| LrcTag.TaggedLine | src/util/processLRC.ts:10-13 | in a line made of a tag followed by tag-free text, the first tag is at 0 and stripping tags leaves exactly the text |
| LrcTag.MillisBounds | src/util/processLRC.ts:12 | a tag's time is between 0 and 6048990 ms (`[99:99.999]`) |
| ProcessLrc.LineTime | src/util/processLRC.ts:10-12 | a matched line's time, taken from its first tag, lies within [0, 6048990] ms |
| ProcessLrc.LineText | src/util/processLRC.ts:13 | the kept text is trimmed |
| ProcessLrc.RepeatedTagLine | src/util/processLRC.ts:10-13 | a line like `[00:12.00][00:45.00]Chorus` yields the first tag's time and the trimmed text without either tag |
| ProcessLrc.LineParse | src/util/processLRC.ts:10-14 | one line contributes one time and one text exactly when its tag search succeeds, and nothing otherwise; the time is within [0, 6048990] ms and the text is trimmed |
| ProcessLrc.ParseLrc | src/util/processLRC.ts:4-18 | `processLrcLyrics` as a value: equal numbers of times and texts, at most one per line of the text, every time within [0, 6048990] ms and every text trimmed |
| ProcessLrc.ParseLines | src/util/processLRC.ts:9-15 | the two arrays built over a list of lines have equal lengths and never outnumber the lines |
| ProcessLrc.ProcessLrcLyrics | src/util/processLRC.ts:4-18 | the loop's two arrays equal the parse of the whole text, have equal lengths and never outnumber the lines; the copy at src/components/Lyrics.tsx:12-26 is the same code |
| ProcessLrc.ParseLinesMatching | src/util/processLRC.ts:9-15 | exactly one pair per line whose tag search succeeds, in order: the k-th time and text come from the k-th matching line |
| ProcessLrc.ParsedBounds | src/util/processLRC.ts:12-13 | every time lies in [0, 6048990] ms and every text is trimmed |
| ProcessLrc.ParseLinesAppend | src/util/processLRC.ts:9-15 | lines are handled independently: parsing concatenated line lists concatenates the results |
| ProcessLrc.UntaggedLineIgnored | src/util/processLRC.ts:10-11 | a line with no tag contributes nothing wherever it stands |
| ProcessLrc.ParseRoundTrip | src/util/processLRC.ts:4-18 | lines written as tag plus tag-free text, joined by line feeds, parse back to each tag's time and each text trimmed |
| ProcessLrc.DetectionMatchesParse | src/components/Lyrix.tsx:40 | format detection succeeds exactly when the parse yields at least one line |
| Timeline.TimeDeltas | src/components/Lyrix.tsx:49 | one delay per time: the gap to the next time, and the end buffer for the last |
| Timeline.DeltasReplay | src/components/Lyrix.tsx:49 | replaying the delays, end buffer aside, from the first time gives back every time |
| Timeline.DeltasNonNegative | src/components/Lyrix.tsx:49 | no inner delay is negative exactly when the times are in order |
| Timeline.Advance | src/components/Lyrix.tsx:52 | the timer callback moves up by one exactly when below the last index, and otherwise stays |
| Timeline.TicksClamp | src/components/Lyrix.tsx:52 | k expiries from inside the list reach `min(current + k, length - 1)` |
| Timeline.NextDelay | src/components/Lyrics.tsx:69 | without delays the timer gets 1000 ms; otherwise the delay of the current line when stopped, of the next line when running, and 1000 ms past the end |
| Timeline.NextDelayIsGap | src/components/Lyrics.tsx:69 | a stopped timer gets the gap after the current line, a running one the gap after the next, else 1000 ms |
| Timeline.Classes | src/components/Lyrix.tsx:242 | each line is current when its index is the current one, past when below it, future otherwise |
| Timeline.ClassesShape | src/components/Lyrix.tsx:242 | with the current index in range, the classes are a run of past, one current, then a run of future |
| Timeline.ClassesBeyondEnd | src/components/Lyrix.tsx:242 | with the current index past the end, every line is past and none is current |
| Host.ReportedTime | src/components/Lyrix.tsx:88 | the time of line `i` when the times exist and reach that far, and -1 otherwise |
| Host.ReportedTimeOfParsed | src/components/Lyrix.tsx:88 | the reported time is -1 exactly for a line with no time, and otherwise a parsed time in [0, 6048990] |
| Host.PlayEvent | src/components/Lyrix.tsx:74 | `onPlay` fires once, with the line's time, exactly when it is supplied and the line has a time |
| Host.PauseEvent | src/components/Lyrix.tsx:78 | `onPause` fires exactly when it is supplied |
| Scroll.ScrollTarget | src/components/Lyrix.tsx:155-166 | a scroll happens exactly when the counts match, a next line exists and the next line is below the band or the current one above it; the target is `scrollTop + (lineTop - top) - (1 - r) * height`; Lyrics.tsx:131-140 makes the same decision without the single-line guard |
| Scroll.ScrollPlacesCurrentLine | src/components/Lyrix.tsx:160-164 | after the scroll, the current line's top is `(1 - r) * height` below the viewport's top |
| Scroll.ScrollSettles | src/components/Lyrix.tsx:160-164 | when the two lines fit in `(2r - 1) * height`, the scrolled view asks for no further scroll |
| Scroll.DefaultRatioScroll | src/components/Lyrix.tsx:39 | with the default `readScrollRatio = 1` the view scrolls exactly when the next line ends below the viewport or the current line ends above it, and the current line's top then meets the viewport's top (the same default at Lyrics.tsx:47) |
| Scroll.ScrollExample | src/components/Lyrix.tsx:160-164 | worked cases with ratio 0.8: a scroll of 50, no scroll inside the band, no scroll on the last line |
| Lyrix.LyricsArray | src/components/Lyrix.tsx:40 | at least one line, and with LRC text exactly one line per parsed time |
| Lyrix.TimeStampsAsWritten | src/components/Lyrix.tsx:46 | as written, any supplied `timestamps` yields the times parsed from the text |
| Lyrix.SuppliedTimestampsIgnored | src/components/Lyrix.tsx:46 | plain text "" with supplied times [0, 1000] ends up with the empty list |
| Lyrix.TimeStampsOf | src/components/Lyrix.tsx:45-46 | the corrected choice: supplied times are used as given; without them, LRC text gives exactly the times `processLrcLyrics` parses, the same as the code as written; there are none exactly when nothing is supplied and the text has no tag |
| Lyrix.Deltas | src/components/Lyrix.tsx:49 | delays exist exactly when times do; they are the timeline deltas of those times, so each inner one is the gap to the next time and the last is `delayEnd` |
| Lyrix.PlayStep | src/components/Lyrix.tsx:72-75 | the timer runs from the current line, the line stays, and the log gains the guarded `onPlay` |
| Lyrix.PauseStep | src/components/Lyrix.tsx:76-79 | the timer stops, the line stays, and the log gains `onPause` when it is supplied |
| Lyrix.ToggleStep | src/components/Lyrix.tsx:99-105 | the running flag flips and the line and committed line stay; a running timer stops, keeps its start index and `onPause` fires when supplied; a stopped one starts from the current line and fires the guarded `onPlay(timeStamps[currentLine])` |
| Lyrix.SpaceIsClickOnCurrent | src/components/Lyrix.tsx:97-105 | with interactivity enabled, both space-bar keys act exactly as a click on the current line (Lyrix.tsx:245-252) |
| Lyrix.KeyDownStep | src/components/Lyrix.tsx:93-106 | with interactivity disabled or any key but the space bar nothing changes; the space bar toggles |
| Lyrix.ClickStep | src/components/Lyrix.tsx:243-258 | with interactivity disabled, or in single-line mode where no line is rendered to click (Lyrix.tsx:267-285), nothing changes; otherwise the clicked line becomes current, and the timer runs afterwards exactly when it was the current line and the timer was stopped |
| Lyrix.TickStep | src/components/Lyrix.tsx:52 | only the line changes; it moves up by one exactly when the timer runs and a next line exists |
| Lyrix.CommitStep | src/components/Lyrix.tsx:87-89 | the current line becomes the committed one, nothing else but the log changes, and the log gains one event exactly when the line changed and `onLineChange` is supplied |
| Lyrix.ScrollDecision | src/components/Lyrix.tsx:150-167 | never scrolls in single-line mode, and otherwise scrolls as the shared decision does, to the same target |
| Lyrix.ClickOtherLine | src/components/Lyrix.tsx:253-258 | clicking another line stops the timer, fires `onPause`, makes that line current and fires `onUserLineChange(index, time or -1)`; nothing else changes |
| Lyrix.ClickCurrentLine | src/components/Lyrix.tsx:245-252 | clicking the current line toggles the timer: `onPause` when it ran; otherwise it starts from that line and `onPlay` fires only when the line has a time |
| Lyrix.SingleLineModeInputs | src/components/Lyrix.tsx:267-285 | in single-line mode a click changes nothing, while the space bar still toggles (the listener's early return at Lyrix.tsx:108 comes after it) |
| Lyrix.DisabledInputIgnored | src/components/Lyrix.tsx:244 | with interactivity disabled, clicks and keys change nothing and emit nothing (also Lyrix.tsx:94) |
| Lyrix.SpaceTwiceRestores | src/components/Lyrix.tsx:97-106 | two space presses restore the running flag and keep the line |
| Lyrix.PlayTwiceReportsTwice | src/components/Lyrix.tsx:72-75 | `play()` twice fires `onPlay` twice with the same time |
| Lyrix.StepsKeepInRange | src/components/Lyrix.tsx:52 | every handler, expiry and effect keeps the current line inside the list |
| Lyrix.CommitReportsOnce | src/components/Lyrix.tsx:87-89 | a changed line is reported once to `onLineChange`, with its time or -1, and committing again reports nothing |
| Lyrix.AdvanceAtEnd | src/components/Lyrix.tsx:52 | an expiry at the last line changes nothing and reports nothing; from the line before, the last line is reported once |
| Lyrix.LyrixPlayer.constructor | src/components/Lyrix.tsx:39-46 | the lines come from the text; the times follow the corrected `TimeStampsOf`, so supplied timestamps are kept, unlike the code as written at line 46; `delayEnd` defaults to 10000 ms; the state starts at `start`, 0 by default, stopped, with nothing reported |
| Lyrix.LyrixPlayer.Play | src/components/Lyrix.tsx:72-75 | the new state is the play step of the old one |
| Lyrix.LyrixPlayer.Pause | src/components/Lyrix.tsx:76-79 | the new state is the pause step of the old one |
| Lyrix.LyrixPlayer.IsPlaying | src/components/Lyrix.tsx:80 | answers whether the timer runs |
| Lyrix.LyrixPlayer.KeyDown | src/components/Lyrix.tsx:93-106 | the new state is the key step of the old one |
| Lyrix.LyrixPlayer.ClickLine | src/components/Lyrix.tsx:243-258 | the new state is the click step of the old one |
| Lyrix.LyrixPlayer.Tick | src/components/Lyrix.tsx:52 | the new state is the timer-expiry step of the old one |
| Lyrix.LyrixPlayer.Commit | src/components/Lyrix.tsx:87-89 | the new state is the `onLineChange` effect applied to the old one |
| Lyrix.LyricPlayer.WordDeltas | src/components/Lyrix.tsx:372 | word delays exist exactly when word times do; they are the timeline deltas of the word times, each inner one the gap to the next word and the last 200 ms |
| Lyrix.LyricPlayer.WordClasses | src/components/Lyrix.tsx:402 | with the current word in range, the words are past, then one current, then future |
| Lyrix.LyricPlayer.constructor | src/components/Lyrix.tsx:312-314 | starts at `position`, 0 by default, stopped, nothing reported |
| Lyrix.LyricPlayer.Play | src/components/Lyrix.tsx:385-387 | starts the timer from the current word and fires no callback |
| Lyrix.LyricPlayer.Pause | src/components/Lyrix.tsx:388-390 | stops the timer and changes nothing else |
| Lyrix.LyricPlayer.IsPlaying | src/components/Lyrix.tsx:391 | answers whether the timer runs |
| Lyrix.LyricPlayer.Tick | src/components/Lyrix.tsx:373 | a running timer's expiry advances the word, held at the last |
| Lyrix.LyricPlayer.Commit | src/components/Lyrix.tsx:394-396 | a changed word is reported once to `onWordChange` |
| Lyrics.Deltas | src/components/Lyrics.tsx:59 | delays exist exactly when times do; they are the timeline deltas of those times, each inner one the gap to the next time and the last 1000 ms |
| Lyrics.RenderStep | src/components/Lyrics.tsx:64-69 | the timer is handed the delay the previous render chose, the next delay is chosen from the running flag before this render, and the action is recorded; a repeated action or "none" starts and leaves pending nothing (also Lyrics.tsx:144-154) |
| Lyrics.FlushStep | src/components/Lyrics.tsx:156-166 | a pending `onPlay` or `onPause` is cleared and appended, guarded as in the handlers; nothing else changes |
| Lyrics.ToggleStep | src/components/Lyrics.tsx:79-85 | the running flag flips, the log gains `onPause` when it ran or the guarded `onPlay` when it did not, and nothing else changes |
| Lyrics.KeyDownStep | src/components/Lyrics.tsx:76-86 | the space bar toggles and any other key changes nothing |
| Lyrics.ClickStep | src/components/Lyrics.tsx:223-239 | the clicked line becomes current and the timer runs afterwards exactly when it was the current line and the timer was stopped; a click on another line stores that line's delay; the action, the pending flag and the delay already handed to the timer stay |
| Lyrics.TickStep | src/components/Lyrics.tsx:61 | only the line changes; it moves up by one exactly when the timer runs and a next line exists |
| Lyrics.SameActionNoOp | src/components/Lyrics.tsx:144 | re-supplying the last action starts, pauses and reports nothing; only the delays move |
| Lyrics.NoneOnlyRecords | src/components/Lyrics.tsx:144-145 | a change to "none" only records it |
| Lyrics.ActionEdges | src/components/Lyrics.tsx:144-165 | a new "play" starts the timer and, after the render, fires `onPlay` once when the line has a time; a new "pause" stops it and fires `onPause` once; nothing stays pending |
| Lyrics.FlushOnce | src/components/Lyrics.tsx:156-166 | the effect appends at most one callback, clears the flag, and a second run fires nothing |
| Lyrics.RepeatActionSilent | src/components/Lyrics.tsx:144-166 | a second update with the same action fires nothing and leaves the timer and line as they were |
| Lyrics.ClickDelay | src/components/Lyrics.tsx:233 | without times the stored delay is 1000 ms; with times it is the gap from the clicked line to the next, or 1000 ms from the last line on |
| Lyrics.ClickDelayIsGap | src/components/Lyrics.tsx:233 | a click on another line stores the gap from that line to the next, or 1000 ms |
| Lyrics.ClickOtherLine | src/components/Lyrics.tsx:232-238 | clicking another line stops the timer, fires `onPause` then `onUserLineChange`, and the next render hands the timer that line's delay |
| Lyrics.ToggleInputs | src/components/Lyrics.tsx:77-85 | the space bar and a click on the current line both toggle the timer, with `onPause` or a guarded `onPlay` |
| Lyrics.StepsKeepInRange | src/components/Lyrics.tsx:61 | every update, key, click and expiry keeps the current line inside the list |
| Lyrics.LyricsPlayer.constructor | src/components/Lyrics.tsx:47-56 | lines as in Lyrix; the times follow the corrected `TimeStampsOf`, so supplied timestamps are kept, unlike the code as written at line 56; the state starts at `start`, 0 by default, both delays 1000 ms, no action seen, nothing pending |
| Lyrics.LyricsPlayer.Render | src/components/Lyrics.tsx:144-154 | the new state is the render step of the old one |
| Lyrics.LyricsPlayer.Flush | src/components/Lyrics.tsx:156-166 | the new state is the flush step of the old one |
| Lyrics.LyricsPlayer.KeyDown | src/components/Lyrics.tsx:76-86 | the new state is the key step of the old one |
| Lyrics.LyricsPlayer.ClickLine | src/components/Lyrics.tsx:223-239 | the new state is the click step of the old one |
| Lyrics.LyricsPlayer.Tick | src/components/Lyrics.tsx:61 | the new state is the timer-expiry step of the old one |
| Lyrics.LyricsPlayer.Toggle | src/components/Lyrics.tsx:79-85 | the new state is the toggle step of the old one |

## Left out

- The regular expression is one shared `/g` object, so its `lastIndex` carries over from `test` (Lyrix.tsx:40 and 46, Lyrics.tsx:48 and 56) into the first line's `exec` (processLRC.ts:10). The model starts every search at 0, so it does not capture the consequences:
  - `"[00:01.00]Hello\n[00:02.00]World"`: the first line's search starts at 10 and fails, so that line is lost.
  - A one-line LRC text such as `"[00:01.00]Hello"` yields no lines at all. The code then breaks two properties the model proves: `Lyrix.LyricsArray` gives at least one line, and `ProcessLrc.DetectionMatchesParse` says detection succeeds exactly when the parse is non-empty.
  - A first line with two tags, such as `"[00:01.00][00:02.00]Hi"`, gets its second tag's time.
- LrcTag.TagAt: its own contract states only the shape of a match. That the match is exactly the written tag is `LrcTag.TagAtSound`, and that every written tag matches is `LrcTag.FormatMatches`.
- LrcTag.StripTags: its own contract states only that the text does not grow. What it removes is stated by `LrcTag.StripTagFree`, `LrcTag.StripTagsBeforeTag`, `LrcTag.StripTagsAround` and `LrcTag.TwoTagLine`.
- The `action` prop of `Lyrics` is an argument of every render, so its default `"none"` (Lyrics.tsx:47) is the caller passing `NoAction`. That is also the initial last action (Lyrics.tsx:52), so an absent prop never starts or pauses the timer (`Lyrics.SameActionNoOp`).
- Rendering, CSS and theme strings, fonts and JSX markup are presentation only.
- DOM access is left out: element lookup, `getClientRects` and `scrollTo`. So is the Enter / Shift+Enter paging scroll; only the numeric scroll decision is modelled.
- `react-use-precision-timer` is not visible source. The timer is a running flag plus the index it was started from (Lyrix) or the delay it was handed (Lyrics). Partial delays and resume positions are not modelled.
- React's scheduling is left out: state batching, render timing, and handlers seeing the state of the last render. Handlers and effects are explicit steps instead.
- `processLrcLine` is not part of this model. It is imported and not defined in the shown source, so the `Lyric` component takes its words and word times as constructor parameters.
- Times are integer milliseconds, not JavaScript floating-point seconds, so rounding in `(t[i+1] - t[i]) * 1000` is not modelled.
- A negative `start` is not modelled. Line and word indices are natural numbers.
- LyrixCard.tsx, LyricsCard.tsx, App.tsx, main.tsx and the index and build files are audio wiring, demo and packaging.
- Lyrix.LyricPlayer.Play, Lyrix.LyricPlayer.Pause, Lyrix.LyricPlayer.Tick and Lyrix.LyricPlayer.Commit are stated directly on the fields, without a step function, because the word component has no callbacks other than `onWordChange`.

## Findings

| source | as written | input that shows it | evidently intended | confidence | as-written member | corrected member |
|---|---|---|---|---|---|---|
| src/components/Lyrix.tsx:46 (also src/components/Lyrics.tsx:56) | `timestamps ?? regex.test(lyrics) ? parsed : undefined` parses as `(timestamps ?? test) ? parsed : undefined`, so a supplied array always selects the times parsed from the text | lyrics "" with supplied timestamps [0, 1000] gives [] | supplied timestamps are used as given, and the text is parsed only when none are supplied (comment at Lyrix.tsx:45); both controllers in this model use this corrected choice | high, not executed | Lyrix.TimeStampsAsWritten, Lyrix.SuppliedTimestampsIgnored | Lyrix.TimeStampsOf |
