/** The state of the live-caption pipeline and what one 100 ms tick of
    `update_text_widget` does to it, as pure functions: evict stale lines,
    decide the phrase boundary, drain the audio queue, call the two engines,
    and either open a new line or continue the last one. */
module Transcript {

  import opened Wrappers
  import opened Chunks
  import opened Text

  /** The two thresholds, in the same time unit as the clock. */
  datatype Config = Config(phraseTimeout: nat, maxDisplayTime: nat)

  /** `phrase_time`, the queued chunks of `data_queue`, and the two parallel
      lists `transcription` (line texts) and `timestamps` (line creation times). */
  datatype State = State(
    phraseTime: Option<nat>,
    queue: seq<Chunk>,
    transcription: seq<string>,
    timestamps: seq<nat>)

  /** What a tick hands to the display: nothing when no audio was queued,
      nothing when an engine raised, or the newline-joined transcript. */
  datatype Outcome = Idle | Aborted | Shown(display: string)

  datatype Step = Step(state: State, outcome: Outcome)

  /** The speech engine (including the int16 to float conversion) and the
      translator; `None` stands for a call that raises. */
  type Transcriber = seq<Byte> -> Option<string>
  type Translator = string -> Option<string>

  /** The two lists describe the same lines. */
  predicate Parallel(s: State)
  {
    |s.transcription| == |s.timestamps|
  }

  /** Parallel lists, and no line exists before the first audio tick. */
  predicate Valid(s: State)
  {
    Parallel(s) && (s.phraseTime.None? ==> s.timestamps == [])
  }

  /** The fields as `__init__` sets them. */
  function Initial(): (s: State)
    ensures Valid(s)
  {
    State(None, [], [], [])
  }

  /** `record_callback`: one chunk onto the tail of the queue. */
  function Push(s: State, audio: Chunk): (r: State)
  {
    s.(queue := s.queue + [audio])
  }

  /** A line stamped `stamp` is stale at `now` when its age exceeds `maxAge`. */
  predicate Stale(stamp: nat, now: nat, maxAge: nat)
  {
    now - stamp > maxAge
  }

  /** How many lines the eviction loop pops: the length of the longest prefix
      of stale lines. */
  function StaleCount(timestamps: seq<nat>, now: nat, maxAge: nat): (k: nat)
    ensures k <= |timestamps|
    ensures forall i :: 0 <= i < k ==> Stale(timestamps[i], now, maxAge)
    ensures k < |timestamps| ==> !Stale(timestamps[k], now, maxAge)
  {
    if timestamps != [] && Stale(timestamps[0], now, maxAge)
    then 1 + StaleCount(timestamps[1..], now, maxAge)
    else 0
  }

  /** The eviction loop: both lists lose their stale prefix. */
  function Evict(s: State, now: nat, maxAge: nat): (r: State)
    requires Parallel(s)
    ensures Parallel(r)
    ensures r.phraseTime == s.phraseTime && r.queue == s.queue
  {
    var k := StaleCount(s.timestamps, now, maxAge);
    s.(transcription := s.transcription[k..], timestamps := s.timestamps[k..])
  }

  /** The phrase boundary: there was an earlier audio tick and the gap since
      it is strictly longer than the timeout. */
  predicate PhraseComplete(phraseTime: Option<nat>, now: nat, phraseTimeout: nat)
  {
    phraseTime.Some? && now - phraseTime.value > phraseTimeout
  }

  /** The assembler: a new line `(text, now)` when the phrase is complete or
      there is no line yet, otherwise `" " + text` appended to the last line. */
  function Assemble(s: State, text: string, complete: bool, now: nat): (r: State)
    requires Parallel(s)
    ensures Parallel(r)
  {
    if complete || s.transcription == [] then
      s.(transcription := s.transcription + [text], timestamps := s.timestamps + [now])
    else
      var last := |s.transcription| - 1;
      s.(transcription := s.transcription[last := s.transcription[last] + " " + text])
  }

  /** The transcription adapter: the speech engine's text for the joined
      audio, stripped, then translated; `None` when either engine raises. */
  function Recognize(audio: seq<Byte>, transcribe: Transcriber, translate: Translator): Option<string>
  {
    match transcribe(audio)
    case None => None
    case Some(raw) => translate(Strip(raw))
  }

  /** One tick of `update_text_widget` at time `now`. After `phrase_time` is
      set and the queue is cleared, a raising engine ends the tick. */
  function Tick(s: State, cfg: Config, now: nat, transcribe: Transcriber, translate: Translator): (r: Step)
    requires Parallel(s)
    ensures Parallel(r.state)
    ensures r.state.queue == []
    ensures r.outcome.Idle? <==> s.queue == []
  {
    var e := Evict(s, now, cfg.maxDisplayTime);
    if e.queue == [] then Step(e, Idle)
    else
      var complete := PhraseComplete(e.phraseTime, now, cfg.phraseTimeout);
      var drained := e.(phraseTime := Some(now), queue := []);
      match Recognize(Concat(e.queue), transcribe, translate)
      case None => Step(drained, Aborted)
      case Some(text) =>
        var a := Assemble(drained, text, complete, now);
        Step(a, Shown(JoinLines(a.transcription)))
  }

  // ---------------------------------------------------------------------
  // The callback, the phrase boundary and the engines

  /** `record_callback` keeps the state valid: the chunk joins the tail of the
      queue, and `phrase_time` and the lines are untouched. */
  lemma PushKeepsValid(s: State, audio: Chunk)
    requires Valid(s)
    ensures var r := Push(s, audio);
            && Valid(r)
            && r.queue == s.queue + [audio] && |r.queue| == |s.queue| + 1
            && r.phraseTime == s.phraseTime
            && r.transcription == s.transcription && r.timestamps == s.timestamps
  {
  }

  /** The phrase boundary is strict: the first audio tick never completes a
      phrase, a gap of exactly `phraseTimeout` continues the phrase, and one
      unit more completes it. A clock that went back is never a boundary. */
  lemma PhraseTimeoutStrict(last: nat, now: nat, phraseTimeout: nat)
    ensures !PhraseComplete(None, now, phraseTimeout)
    ensures !PhraseComplete(Some(last), last + phraseTimeout, phraseTimeout)
    ensures PhraseComplete(Some(last), last + phraseTimeout + 1, phraseTimeout)
    ensures now <= last ==> !PhraseComplete(Some(last), now, phraseTimeout)
  {
  }

  /** When the speech engine returns, the translator is handed its text with
      the surrounding whitespace removed and nothing else changed, and its
      answer is the recognised text. */
  lemma RecognizeTranslatesStrippedText(audio: seq<Byte>, transcribe: Transcriber, translate: Translator)
    requires transcribe(audio).Some?
    ensures var raw := transcribe(audio).value;
            var lead := |raw| - |StripStart(raw)|;
            var text := Strip(raw);
            && Recognize(audio, transcribe, translate) == translate(text)
            && 0 <= lead && lead + |text| <= |raw| && text == raw[lead..lead + |text|]
            && (text != [] ==> !IsSpace(text[0]) && !IsSpace(text[|text| - 1]))
  {
    StripSpec(transcribe(audio).value);
  }

  // ---------------------------------------------------------------------
  // Eviction

  /** Eviction keeps a suffix of both lists; every line it removes was stale
      and the line that is now oldest (if any) is not, so eviction only ever
      removes from the front and stops at the first line that may stay. */
  lemma EvictRemovesStalePrefix(s: State, now: nat, maxAge: nat)
    requires Parallel(s)
    ensures var r := Evict(s, now, maxAge);
            var k := |s.timestamps| - |r.timestamps|;
            && 0 <= k
            && r.timestamps == s.timestamps[k..]
            && r.transcription == s.transcription[k..]
            && (forall i :: 0 <= i < k ==> Stale(s.timestamps[i], now, maxAge))
            && (r.timestamps != [] ==> !Stale(r.timestamps[0], now, maxAge))
  {
    var k := StaleCount(s.timestamps, now, maxAge);
    if k < |s.timestamps| {
      assert s.timestamps[k..][0] == s.timestamps[k];
    }
  }

  /** A line younger than or exactly as old as `maxAge` is never evicted and
      keeps its text and stamp. */
  lemma EvictKeepsFreshLines(s: State, now: nat, maxAge: nat, i: nat)
    requires Parallel(s) && i < |s.timestamps|
    requires !Stale(s.timestamps[i], now, maxAge)
    ensures var r := Evict(s, now, maxAge);
            var k := |s.timestamps| - |r.timestamps|;
            && 0 <= k <= i
            && r.timestamps[i - k] == s.timestamps[i]
            && r.transcription[i - k] == s.transcription[i]
  {
    EvictRemovesStalePrefix(s, now, maxAge);
  }

  /** Running the eviction loop again at the same time removes nothing. */
  lemma EvictIdempotent(s: State, now: nat, maxAge: nat)
    requires Parallel(s)
    ensures Evict(Evict(s, now, maxAge), now, maxAge) == Evict(s, now, maxAge)
  {
    var r := Evict(s, now, maxAge);
    EvictRemovesStalePrefix(s, now, maxAge);
    assert StaleCount(r.timestamps, now, maxAge) == 0;
    assert r.timestamps[0..] == r.timestamps && r.transcription[0..] == r.transcription;
  }

  predicate Sorted(timestamps: seq<nat>)
  {
    forall i, j :: 0 <= i < j < |timestamps| ==> timestamps[i] <= timestamps[j]
  }

  /** Every line is at most `maxAge` old at `now`. */
  predicate WithinWindow(timestamps: seq<nat>, now: nat, maxAge: nat)
  {
    forall i :: 0 <= i < |timestamps| ==> !Stale(timestamps[i], now, maxAge)
  }

  /** On sorted stamps, eviction leaves no stale line at all. */
  lemma EvictSortedLeavesWindow(s: State, now: nat, maxAge: nat)
    requires Parallel(s) && Sorted(s.timestamps)
    ensures Sorted(Evict(s, now, maxAge).timestamps)
    ensures WithinWindow(Evict(s, now, maxAge).timestamps, now, maxAge)
  {
    var r := Evict(s, now, maxAge);
    EvictRemovesStalePrefix(s, now, maxAge);
    var k := |s.timestamps| - |r.timestamps|;
    forall i | 0 <= i < |r.timestamps| ensures !Stale(r.timestamps[i], now, maxAge) {
      assert r.timestamps[i] == s.timestamps[k + i] && r.timestamps[0] == s.timestamps[k];
    }
  }

  // ---------------------------------------------------------------------
  // The tick

  /** With no queued audio a tick only evicts: `phrase_time`, the (empty)
      queue and the remaining lines stay as they were and nothing is shown. */
  lemma EmptyQueueTick(s: State, cfg: Config, now: nat, transcribe: Transcriber, translate: Translator)
    requires Parallel(s) && s.queue == []
    ensures var r := Tick(s, cfg, now, transcribe, translate);
            r.state == Evict(s, now, cfg.maxDisplayTime) && r.outcome == Idle
  {
  }

  /** Any tick that finds audio records `now` as `phrase_time` and empties the
      queue, whether or not the engines succeed; when one raises, the drained
      audio is lost and the lines are only evicted. */
  lemma AudioTick(s: State, cfg: Config, now: nat, transcribe: Transcriber, translate: Translator)
    requires Parallel(s) && s.queue != []
    ensures var r := Tick(s, cfg, now, transcribe, translate);
            && r.state.phraseTime == Some(now)
            && r.state.queue == []
            && (r.outcome.Aborted? <==> Recognize(Concat(s.queue), transcribe, translate).None?)
            && (r.outcome.Aborted? ==>
                  var e := Evict(s, now, cfg.maxDisplayTime);
                  r.state.transcription == e.transcription && r.state.timestamps == e.timestamps)
  {
  }

  /** A successful audio tick that starts a phrase (the phrase is complete,
      or no line survived eviction): the speech engine receives the queued
      chunks joined in arrival order, and the translation of its stripped
      text becomes a new last line stamped `now`; the earlier lines are those
      eviction left. The display is the lines joined with newlines: the old
      display, one newline and the new line. */
  lemma NewLineTick(s: State, cfg: Config, now: nat, transcribe: Transcriber, translate: Translator, text: string)
    requires Parallel(s) && s.queue != []
    requires Recognize(Concat(s.queue), transcribe, translate) == Some(text)
    requires PhraseComplete(s.phraseTime, now, cfg.phraseTimeout)
             || Evict(s, now, cfg.maxDisplayTime).transcription == []
    ensures var r := Tick(s, cfg, now, transcribe, translate);
            var e := Evict(s, now, cfg.maxDisplayTime);
            && r.state == State(Some(now), [], e.transcription + [text], e.timestamps + [now])
            && r.outcome == Shown(JoinLines(e.transcription + [text]))
            && (e.transcription != [] ==> r.outcome == Shown(JoinLines(e.transcription) + "\n" + text))
  {
    var e := Evict(s, now, cfg.maxDisplayTime);
    if e.transcription != [] {
      JoinLinesSnoc(e.transcription, text);
    }
  }

  /** A successful audio tick within a phrase (not complete, and a line
      survived eviction): the translation is appended after one space to the
      last line, whose stamp and every earlier line stay as eviction left
      them. */
  lemma ContinuationTick(s: State, cfg: Config, now: nat, transcribe: Transcriber, translate: Translator, text: string)
    requires Parallel(s) && s.queue != []
    requires Recognize(Concat(s.queue), transcribe, translate) == Some(text)
    requires !PhraseComplete(s.phraseTime, now, cfg.phraseTimeout)
    requires Evict(s, now, cfg.maxDisplayTime).transcription != []
    ensures var r := Tick(s, cfg, now, transcribe, translate);
            var e := Evict(s, now, cfg.maxDisplayTime);
            var n := |e.transcription|;
            && r.state.phraseTime == Some(now) && r.state.queue == []
            && |r.state.transcription| == n
            && r.state.transcription[..n - 1] == e.transcription[..n - 1]
            && r.state.transcription[n - 1] == e.transcription[n - 1] + " " + text
            && r.state.timestamps == e.timestamps
            && r.outcome == Shown(JoinLines(r.state.transcription))
  {
  }

  /** Phrase boundary on a line that survived eviction: two audio ticks more
      than `phraseTimeout` apart start a new line, otherwise the second one
      continues the line. */
  lemma PhraseBoundary(s: State, cfg: Config, now: nat, transcribe: Transcriber, translate: Translator,
                       last: nat, text: string)
    requires Parallel(s) && s.queue != [] && s.phraseTime == Some(last)
    requires Evict(s, now, cfg.maxDisplayTime).transcription != []
    requires Recognize(Concat(s.queue), transcribe, translate) == Some(text)
    ensures var r := Tick(s, cfg, now, transcribe, translate);
            var n := |Evict(s, now, cfg.maxDisplayTime).transcription|;
            |r.state.transcription| == (if now - last > cfg.phraseTimeout then n + 1 else n)
  {
    if now - last > cfg.phraseTimeout {
      NewLineTick(s, cfg, now, transcribe, translate, text);
    } else {
      ContinuationTick(s, cfg, now, transcribe, translate, text);
    }
  }

  /** The first audio tick is never a completed phrase, and since there is no
      line yet it opens the first line, stamped `now`. */
  lemma FirstAudioOpensLine(s: State, cfg: Config, now: nat, transcribe: Transcriber, translate: Translator, text: string)
    requires Valid(s) && s.phraseTime == None && s.queue != []
    requires Recognize(Concat(s.queue), transcribe, translate) == Some(text)
    ensures var r := Tick(s, cfg, now, transcribe, translate);
            r.state.transcription == [text] && r.state.timestamps == [now]
  {
    NewLineTick(s, cfg, now, transcribe, translate, text);
  }

  /** A tick keeps the lists parallel and creates no line without audio. */
  lemma TickKeepsValid(s: State, cfg: Config, now: nat, transcribe: Transcriber, translate: Translator)
    requires Valid(s)
    ensures Valid(Tick(s, cfg, now, transcribe, translate).state)
  {
  }

  /** A tick adds at most one line to what eviction left. */
  lemma TickGrowsByAtMostOne(s: State, cfg: Config, now: nat, transcribe: Transcriber, translate: Translator)
    requires Parallel(s)
    ensures var r := Tick(s, cfg, now, transcribe, translate);
            |r.state.transcription| <= |Evict(s, now, cfg.maxDisplayTime).transcription| + 1
            && |r.state.transcription| <= |s.transcription| + 1
  {
  }

  /** Sorted stamps, none of them later than `t`. */
  predicate Ordered(s: State, t: nat)
  {
    Sorted(s.timestamps) && forall i :: 0 <= i < |s.timestamps| ==> s.timestamps[i] <= t
  }

  /** A tick's stamps are those eviction left, perhaps with `now` added. */
  lemma TickStamps(s: State, cfg: Config, now: nat, transcribe: Transcriber, translate: Translator)
    requires Parallel(s)
    ensures var r := Tick(s, cfg, now, transcribe, translate);
            var e := Evict(s, now, cfg.maxDisplayTime);
            r.state.timestamps == e.timestamps || r.state.timestamps == e.timestamps + [now]
  {
  }

  lemma OrderedSnoc(ts: seq<nat>, now: nat, maxAge: nat)
    requires Sorted(ts) && WithinWindow(ts, now, maxAge)
    requires forall i :: 0 <= i < |ts| ==> ts[i] <= now
    ensures Sorted(ts + [now]) && WithinWindow(ts + [now], now, maxAge)
    ensures forall i :: 0 <= i < |ts + [now]| ==> (ts + [now])[i] <= now
  {
  }

  /** With a clock that does not go back, a tick keeps the stamps sorted and
      leaves no line older than `maxDisplayTime`. */
  lemma TickKeepsOrder(s: State, cfg: Config, t: nat, now: nat, transcribe: Transcriber, translate: Translator)
    requires Parallel(s) && Ordered(s, t) && t <= now
    ensures var r := Tick(s, cfg, now, transcribe, translate);
            Ordered(r.state, now) && WithinWindow(r.state.timestamps, now, cfg.maxDisplayTime)
  {
    var e := Evict(s, now, cfg.maxDisplayTime);
    EvictSortedLeavesWindow(s, now, cfg.maxDisplayTime);
    EvictRemovesStalePrefix(s, now, cfg.maxDisplayTime);
    var k := |s.timestamps| - |e.timestamps|;
    forall i | 0 <= i < |e.timestamps| ensures e.timestamps[i] <= now {
      assert e.timestamps[i] == s.timestamps[k + i];
    }
    OrderedSnoc(e.timestamps, now, cfg.maxDisplayTime);
    TickStamps(s, cfg, now, transcribe, translate);
  }
}
