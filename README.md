# pl-speech: the live-caption transcript state machine

`english_to_polish.py` is a full-screen caption window. A background recording
callback pushes raw audio chunks onto a queue. Every 100 ms a Qt timer runs
`update_text_widget`, which does four things in order:

- It drops transcript lines older than `max_display_time`.
- If audio is queued, it decides from the time since the previous audio tick
  (`phrase_time`) whether this audio starts a new phrase.
- It then joins and drains the queue, has Whisper transcribe the bytes, strips
  the text and has GoogleTranslator translate it to Polish.
- Finally it either appends a new line stamped `now` or continues the last
  line after one space, and shows the lines joined with newlines.

This project models that state machine and proves its properties:

- `Transcript` describes one tick as pure functions on a `State` value:
  `phrase_time`, the queue, and the parallel lists `transcription` and
  `timestamps`.
- `App.TranslatorApp` is the class with those four fields. Its methods
  `RecordCallback` and `UpdateTextWidget` update the fields in place, with the
  eviction `while` loop of the source. Each method is proved to produce
  exactly the state the pure functions describe.
- `Session` models runs of callbacks and ticks. Its results are:
  - no chunk is lost or duplicated;
  - under a clock that does not go back, line stamps stay sorted and no line
    is older than `max_display_time` at the last tick;
  - every reachable state is valid;
  - a captioning scenario: a line opens, is continued, a second line opens,
    and the first line is evicted.
- `Text` models Python's `str.strip()` with Python's full whitespace set, and
  `"\n".join`. A split function is proved to recover the lines from the
  joined display string.
- `Chunks` models raw byte chunks and `b''.join`.

Modelling choices:

- Time is a natural number in one fixed unit, which both thresholds share.
  With microseconds, the resolution of `datetime` and `timedelta`, the model
  is exact for finite thresholds that `timedelta` can hold.
  `timedelta(seconds=x)` rounds each threshold to whole microseconds, so
  every threshold and every age the source compares is a whole number in that
  unit. `Session.CaptionScenario` counts in seconds for readability.
- Ages are differences of naturals. They may be negative when the clock goes
  back. As in Python, a negative age is never stale and never a phrase
  boundary.
- The speech engine is a parameter `seq<Byte> -> Option<string>`. It stands
  for the int16-to-float conversion plus Whisper.
- The translator is a parameter `string -> Option<string>`.
- `None` stands for a call that raises. In the source such an exception
  escapes the tick after `phrase_time := now` and after the queue has been
  cleared. The model therefore ends that tick as `Aborted`, with
  `phrase_time` updated, the queue empty and the lines only evicted.
- The display update (`setText`) is returned as the tick's `Outcome`. It
  happens only on ticks that found audio and whose engines both returned.
  A tick with an empty queue only evicts and returns `Idle`: no tick
  publishes without audio.
- There is no fallback to the untranslated text, and the drained audio of a
  failed tick is discarded. The code has no error handling around either
  engine call.

## Model

| member | source | states |
|---|---|---|
| `Transcript.Initial` | english_to_polish.py:19-31 | The state `__init__` creates (no phrase time, empty queue, no lines) is valid. |
| `Transcript.PushKeepsValid` | english_to_polish.py:54 | Characterises `Push`: the chunk joins the tail of the queue, the queue grows by one, `phrase_time` and the lines are untouched, and the state stays valid. |
| `Transcript.PhraseTimeoutStrict` | english_to_polish.py:65-67 | Characterises `PhraseComplete`. A tick with no earlier `phrase_time` never completes a phrase. A gap of exactly `phrase_timeout` does not complete it, and one unit more does. A clock that went back never completes it. |
| `Transcript.RecognizeTranslatesStrippedText` | english_to_polish.py:75-77 | Characterises `Recognize`: when the speech engine returns, the translator receives that text with its surrounding whitespace stripped. The stripped text is a contiguous slice of the raw text that neither starts nor ends with whitespace, and the translator's answer is the result. |
| `Transcript.StaleCount` | english_to_polish.py:60-62 | The number of lines the eviction loop pops: every counted line is stale (age strictly greater than the limit), and the first line not counted, if any, is not stale. |
| `Transcript.Evict` | english_to_polish.py:60-62 | Eviction keeps the two lists parallel and leaves `phrase_time` and the queue untouched. |
| `Transcript.EvictRemovesStalePrefix` | english_to_polish.py:60-62 | Eviction leaves the same suffix of both lists. Every removed line was stale, and the new oldest line is not stale. |
| `Transcript.EvictKeepsFreshLines` | english_to_polish.py:60 | A line whose age is at most `max_display_time` (an age exactly equal to it included) survives with its text and stamp. |
| `Transcript.EvictIdempotent` | english_to_polish.py:60-62 | Evicting again at the same time removes nothing. |
| `Transcript.EvictSortedLeavesWindow` | english_to_polish.py:60-62 | On sorted stamps, eviction leaves no line older than the limit, and the stamps stay sorted. |
| `Transcript.Assemble` | english_to_polish.py:79-87 | Appending a new line, or extending the last one, keeps the two lists parallel. |
| `Transcript.Tick` | english_to_polish.py:56-90 | A tick keeps the lists parallel and always leaves the queue empty. Its outcome is `Idle` exactly when the queue it found was empty. An aborted tick is not `Idle`. |
| `Transcript.EmptyQueueTick` | english_to_polish.py:59-64 | With an empty queue, a tick is exactly eviction and shows nothing. |
| `Transcript.AudioTick` | english_to_polish.py:64-77 | A tick that finds audio sets `phrase_time` to `now` and empties the queue. It aborts exactly when an engine raises, and an aborted tick changes no line beyond eviction. |
| `Transcript.NewLineTick` | english_to_polish.py:64-89 | When both engines return, a tick that completes a phrase, or finds no line left after eviction, works as follows. The engine receives the queued chunks joined in order. The translation of the stripped transcript becomes a new last line stamped `now`, after the lines eviction left. The display is those lines joined with newlines, so when a line survived eviction it is the old display, one newline and the new line. |
| `Transcript.ContinuationTick` | english_to_polish.py:79-89 | When both engines return, a tick within a phrase, after eviction leaves a line, appends `" " + text` to the last line. Relative to what eviction left, it changes neither the earlier lines nor any stamp. |
| `Transcript.PhraseBoundary` | english_to_polish.py:65-68 | Assume a tick finds audio, both engines return, and at least one line survives eviction. Then if the previous audio tick was strictly more than `phrase_timeout` earlier, the tick adds one line. Otherwise the line count stays as eviction left it. |
| `Transcript.FirstAudioOpensLine` | english_to_polish.py:65-87 | When both engines return, the first audio tick is never a completed phrase and opens the first line, stamped `now`. |
| `Transcript.TickKeepsValid` | english_to_polish.py:56-90 | A tick keeps both lists the same length, and no line exists before the first audio tick. |
| `Transcript.TickGrowsByAtMostOne` | english_to_polish.py:79-87 | A tick adds at most one line. |
| `Transcript.TickStamps` | english_to_polish.py:79-87 | A tick's stamps are those eviction left, possibly followed by `now`. |
| `Transcript.TickKeepsOrder` | english_to_polish.py:56-90 | With `now` no earlier than every stamp, a tick keeps the stamps sorted and none of them later than `now`. No line is older than `max_display_time`. |
| `Text.StripStartSpec` | english_to_polish.py:76 | Characterises `StripStart`: `lstrip` keeps a suffix, drops only whitespace, and leaves no leading whitespace. |
| `Text.StripEndSpec` | english_to_polish.py:76 | Characterises `StripEnd`: `rstrip` keeps a prefix, drops only whitespace, and leaves no trailing whitespace. |
| `Text.StripSpec` | english_to_polish.py:76 | Characterises `Strip` over `IsSpace`, the 29 characters for which Python's `str.isspace()` holds: `strip` returns a contiguous slice of the input with only whitespace around it, and the slice starts and ends with a non-space. |
| `Text.StripIdempotent` | english_to_polish.py:76 | Stripping twice is stripping once. |
| `Text.JoinLinesSnoc` | english_to_polish.py:89 | Adding a last line to a non-empty transcript adds one newline and that line to the end of the joined display. |
| `Text.SplitLines` | english_to_polish.py:89 | Splitting at newlines gives at least one piece, and no piece contains a newline. |
| `Text.SplitJoinLines` | english_to_polish.py:89 | Characterises `JoinLines` (`"\n".join`) by its inverse: for lines without newlines, splitting the displayed `"\n".join` string gives back exactly the lines, in order. |
| `Chunks.ConcatAppend` | english_to_polish.py:70 | Joining a queue split in two is joining each part. |
| `Chunks.ConcatAt` | english_to_polish.py:70 | Characterises `Concat` (`b''.join`): byte `j` of chunk `i` lands in the joined buffer right after the bytes of all earlier chunks. |
| `Session.Apply` | english_to_polish.py:52-90 | Either entry point keeps the two lists parallel. |
| `Session.Run` | english_to_polish.py:52-90 | Any run of callbacks and ticks keeps the two lists parallel. |
| `Session.ApplyConservesChunks` | english_to_polish.py:52-71 | For one event: what it drains, followed by the queue it leaves, equals the queue it found followed by what it pushed. |
| `Session.NoChunkLostOrDuplicated` | english_to_polish.py:52-71 | Over a whole run: every chunk the ticks drained, followed by what is still queued, equals the initial queue followed by every pushed chunk, in push order. |
| `Session.RunKeepsOrder` | english_to_polish.py:56-87 | With tick times that do not go back, stamps stay sorted and none is later than the last tick. |
| `Session.RunKeepsWindow` | english_to_polish.py:56-87 | With tick times that do not go back, starting inside the window, no line is older than `max_display_time` at the last tick. |
| `Session.RunKeepsValid` | english_to_polish.py:52-90 | Every state reachable from a valid state is valid. |
| `Session.CaptionScenario` | english_to_polish.py:52-90 | With phrase timeout 3 and display time 30: audio at 0, 1 and 5 gives the lines "cześć świat" (stamp 0) and "znowu" (stamp 5). A tick at 31 then evicts the first line and keeps the second. |
| `App.TranslatorApp.constructor` | english_to_polish.py:15-31 | The new object holds the initial state and the two thresholds it was given. |
| `App.TranslatorApp.RecordCallback` | english_to_polish.py:52-54 | The chunk joins the tail of the queue and nothing else changes. |
| `App.TranslatorApp.RemoveOldLines` | english_to_polish.py:60-62 | The `while` loop's in-place pops leave exactly the evicted state. |
| `App.TranslatorApp.UpdateTextWidget` | english_to_polish.py:56-90 | The in-place tick leaves the new fields and display outcome of one `Transcript.Tick`, and keeps the object valid. |

## Left out

- The PyQt window, `initUI`, the `QTimer` setup, `setText` and the scroll bar (english_to_polish.py:38-50, 89-90). A tick returns the text it would display instead.
- Whisper's model load and `transcribe`, and the int16-to-float32 normalisation (english_to_polish.py:26, 73-75). These are floating point and a foreign model call, so they sit inside the abstract speech-engine parameter.
- GoogleTranslator (english_to_polish.py:32, 77). This is a network call and becomes the abstract translator parameter.
- The microphone, the energy thresholds, ambient-noise calibration, `listen_in_background` and `record_timeout` (english_to_polish.py:21-27, 34-37). These are device I/O on a background thread. A chunk enters the model only through `RecordCallback`.
- The concurrency between the recording thread and the tick. The model treats the join-then-`clear()` drain (english_to_polish.py:70-71) as one sequential step. In the source those are two unlocked steps, so a chunk pushed between them would be lost. Thread safety is not verified.
- The wall clock `datetime.utcnow()` (english_to_polish.py:57). Time is a natural-number parameter (microseconds) given to each tick.
- Negative thresholds. `argparse` accepts a negative `--phrase_timeout` or `--max_display_time` (english_to_polish.py:97-98), but `Config` holds natural numbers. The model does not cover runs with a negative threshold, in which every line would be evicted at once, or every audio tick after the first would start a new line.
- Thresholds that `timedelta` cannot hold. A `--phrase_timeout` of `inf` or `nan` (english_to_polish.py:97), or a `--max_display_time` beyond the range of `timedelta` (english_to_polish.py:98), makes `timedelta(seconds=…)` raise. The comparison at line 66 would then raise on every audio tick once `phrase_time` is set, before the drain, so the queue would never be drained again. The comparison at line 60 would raise on every tick once a line exists. The model covers only finite thresholds that `timedelta` can hold, and `Tick` has no outcome for an exception raised before the drain.
- What PyQt does after an engine raises inside the timer slot. PyQt5 5.5 and later ends the process (`qFatal`) on an exception a slot does not handle. The model records the state at the point of the exception (`Aborted`). The `Session` runs that keep ticking after an aborted tick generalise the program, which would only continue under a Qt build or exception hook that lets the slot fail silently.
- `argparse` and `main` (english_to_polish.py:92-106).
