/** Runs of the two entry points one after the other: the recording callback
    pushing chunks and the timer firing ticks. What a run preserves: every
    chunk is drained exactly once, in order; when the clock does not go back,
    the line stamps stay sorted and no line outlives the display time. */
module Session {

  import opened Wrappers
  import opened Chunks
  import opened Text
  import opened Transcript

  /** A call of `record_callback` with its raw audio, or a timer tick at
      `now` with the answers the two engines give during that tick. */
  datatype Event =
    | RecordCallback(audio: Chunk)
    | UpdateTextWidget(now: nat, transcribe: Transcriber, translate: Translator)

  function Apply(s: State, cfg: Config, ev: Event): (r: State)
    requires Parallel(s)
    ensures Parallel(r)
  {
    match ev
    case RecordCallback(audio) => Push(s, audio)
    case UpdateTextWidget(now, transcribe, translate) => Tick(s, cfg, now, transcribe, translate).state
  }

  function Run(s: State, cfg: Config, evs: seq<Event>): (r: State)
    requires Parallel(s)
    ensures Parallel(r)
    decreases |evs|
  {
    if evs == [] then s else Run(Apply(s, cfg, evs[0]), cfg, evs[1..])
  }

  /** The chunk one event pushes: the callback's audio, none for a tick. */
  function PushedBy(ev: Event): seq<Chunk>
  {
    if ev.RecordCallback? then [ev.audio] else []
  }

  /** The chunks one event drains: the whole queue for a tick, none for the
      callback. */
  function DrainedBy(s: State, ev: Event): seq<Chunk>
  {
    if ev.UpdateTextWidget? then s.queue else []
  }

  /** Every chunk the callback pushed, in push order. */
  function Pushed(evs: seq<Event>): seq<Chunk>
  {
    if evs == [] then [] else PushedBy(evs[0]) + Pushed(evs[1..])
  }

  /** Every chunk a tick took off the queue, batch after batch. */
  function Drained(s: State, cfg: Config, evs: seq<Event>): seq<Chunk>
    requires Parallel(s)
    decreases |evs|
  {
    if evs == [] then [] else DrainedBy(s, evs[0]) + Drained(Apply(s, cfg, evs[0]), cfg, evs[1..])
  }

  /** One event: what it drains, followed by the queue it leaves, is the
      queue it found followed by what it pushes. */
  lemma ApplyConservesChunks(s: State, cfg: Config, ev: Event)
    requires Parallel(s)
    ensures DrainedBy(s, ev) + Apply(s, cfg, ev).queue == s.queue + PushedBy(ev)
  {
    if ev.UpdateTextWidget? {
      assert Apply(s, cfg, ev).queue == [];
    }
  }

  /** No chunk is lost or duplicated by the queue: what the ticks drained,
      followed by what is still queued, is what was queued at the start
      followed by everything pushed, in the same order. */
  lemma {:induction false} NoChunkLostOrDuplicated(s: State, cfg: Config, evs: seq<Event>)
    requires Parallel(s)
    ensures Drained(s, cfg, evs) + Run(s, cfg, evs).queue == s.queue + Pushed(evs)
    decreases |evs|
  {
    if evs != [] {
      var s' := Apply(s, cfg, evs[0]);
      NoChunkLostOrDuplicated(s', cfg, evs[1..]);
      ApplyConservesChunks(s, cfg, evs[0]);
      var A, B, C := DrainedBy(s, evs[0]), Drained(s', cfg, evs[1..]), Run(s', cfg, evs[1..]).queue;
      var Q, P, R := s.queue, PushedBy(evs[0]), Pushed(evs[1..]);
      assert Drained(s, cfg, evs) == A + B;
      assert Run(s, cfg, evs).queue == C;
      assert Pushed(evs) == P + R;
      assert B + C == s'.queue + R;
      assert A + s'.queue == Q + P;
      QueueAppendAssoc(A, B, C);
      QueueAppendAssoc(A, s'.queue, R);
      QueueAppendAssoc(Q, P, R);
    }
  }

  /** Each tick's time is no earlier than the one before, starting from `t`. */
  predicate MonotoneFrom(evs: seq<Event>, t: nat)
    decreases |evs|
  {
    evs == [] ||
    match evs[0]
    case RecordCallback(_) => MonotoneFrom(evs[1..], t)
    case UpdateTextWidget(now, _, _) => t <= now && MonotoneFrom(evs[1..], now)
  }

  /** The time of the last tick of the run, or `t` if it has none. */
  function LastTime(evs: seq<Event>, t: nat): nat
    decreases |evs|
  {
    if evs == [] then t
    else LastTime(evs[1..], if evs[0].UpdateTextWidget? then evs[0].now else t)
  }

  /** Under a clock that does not go back, the stamps stay sorted and none is
      later than the latest tick. */
  lemma {:induction false} RunKeepsOrder(s: State, cfg: Config, t: nat, evs: seq<Event>)
    requires Parallel(s) && Ordered(s, t) && MonotoneFrom(evs, t)
    ensures Ordered(Run(s, cfg, evs), LastTime(evs, t))
    decreases |evs|
  {
    if evs != [] {
      match evs[0]
      case RecordCallback(audio) =>
        RunKeepsOrder(Push(s, audio), cfg, t, evs[1..]);
      case UpdateTextWidget(now, transcribe, translate) =>
        TickKeepsOrder(s, cfg, t, now, transcribe, translate);
        RunKeepsOrder(Tick(s, cfg, now, transcribe, translate).state, cfg, now, evs[1..]);
    }
  }

  /** Under a clock that does not go back, no line is older than the display
      time at the last tick: eviction at each tick removes every line that
      has outlived it, and a callback neither adds a line nor advances time. */
  lemma {:induction false} RunKeepsWindow(s: State, cfg: Config, t: nat, evs: seq<Event>)
    requires Parallel(s) && Ordered(s, t) && MonotoneFrom(evs, t)
    requires WithinWindow(s.timestamps, t, cfg.maxDisplayTime)
    ensures WithinWindow(Run(s, cfg, evs).timestamps, LastTime(evs, t), cfg.maxDisplayTime)
    decreases |evs|
  {
    if evs != [] {
      match evs[0]
      case RecordCallback(audio) =>
        RunKeepsWindow(Push(s, audio), cfg, t, evs[1..]);
      case UpdateTextWidget(now, transcribe, translate) =>
        TickKeepsOrder(s, cfg, t, now, transcribe, translate);
        RunKeepsWindow(Tick(s, cfg, now, transcribe, translate).state, cfg, now, evs[1..]);
    }
  }

  /** Both entry points keep the state valid, so every reachable state is. */
  lemma {:induction false} RunKeepsValid(s: State, cfg: Config, evs: seq<Event>)
    requires Valid(s)
    ensures Valid(Run(s, cfg, evs))
    decreases |evs|
  {
    if evs != [] {
      match evs[0] {
        case RecordCallback(audio) =>
        case UpdateTextWidget(now, transcribe, translate) =>
          TickKeepsValid(s, cfg, now, transcribe, translate);
      }
      RunKeepsValid(Apply(s, cfg, evs[0]), cfg, evs[1..]);
    }
  }

  /** Running one event and then a run. */
  lemma RunCons(s: State, cfg: Config, ev: Event, evs: seq<Event>)
    requires Parallel(s)
    ensures Run(s, cfg, [ev] + evs) == Run(Apply(s, cfg, ev), cfg, evs)
  {
    assert ([ev] + evs)[0] == ev && ([ev] + evs)[1..] == evs;
  }

  /** Running a run and then one more event. */
  lemma {:induction false} RunSnoc(s: State, cfg: Config, evs: seq<Event>, ev: Event)
    requires Parallel(s)
    ensures Run(s, cfg, evs + [ev]) == Apply(Run(s, cfg, evs), cfg, ev)
    decreases |evs|
  {
    if evs == [] {
      assert evs + [ev] == [ev];
      assert [ev][1..] == [];
    } else {
      assert (evs + [ev])[1..] == evs[1..] + [ev];
      RunSnoc(Apply(s, cfg, evs[0]), cfg, evs[1..], ev);
    }
  }

  // ---------------------------------------------------------------------
  // A captioning session: phrase timeout 3 s, display time 30 s, clock in
  // seconds.

  /** The engines' answers the scenario relies on: audio chunk 1 is heard as
      " hello", chunk 2 as "world\n", chunk 3 as "again", and the stripped
      texts translate to "cześć", "świat" and "znowu". */
  predicate ScenarioEngines(recognize: Transcriber, toPolish: Translator)
  {
    && recognize([1]) == Some(" hello") && recognize([2]) == Some("world\n") && recognize([3]) == Some("again")
    && toPolish("hello") == Some("cześć") && toPolish("world") == Some("świat") && toPolish("again") == Some("znowu")
  }

  /** Ticks at 0 s, 1 s and 5 s, each after one recorded chunk. */
  function ScenarioUntil5(recognize: Transcriber, toPolish: Translator): seq<Event>
  {
    [RecordCallback([1])] + ([UpdateTextWidget(0, recognize, toPolish)] +
    ([RecordCallback([2])] + ([UpdateTextWidget(1, recognize, toPolish)] +
    ([RecordCallback([3])] + [UpdateTextWidget(5, recognize, toPolish)]))))
  }

  /** ... followed by the silent tick at 31 s. */
  function Scenario(recognize: Transcriber, toPolish: Translator): seq<Event>
  {
    ScenarioUntil5(recognize, toPolish) + [UpdateTextWidget(31, recognize, toPolish)]
  }

  lemma ScenarioStripHello()
    ensures Strip(" hello") == "hello"
  {
    assert " hello"[0] == ' ' && " hello"[1..] == "hello" && "hello"[0] == 'h';
    assert StripStart(" hello") == "hello";
    assert "hello"[4] == 'o';
    assert StripEnd("hello") == "hello";
  }

  lemma ScenarioStripWorld()
    ensures Strip("world\n") == "world"
  {
    assert "world\n"[0] == 'w';
    assert StripStart("world\n") == "world\n";
    assert "world\n"[5] == '\n' && "world\n"[..5] == "world" && "world"[4] == 'd';
    assert StripEnd("world\n") == "world";
  }

  lemma ScenarioStripAgain()
    ensures Strip("again") == "again"
  {
    assert "again"[0] == 'a' && !IsSpace('a');
    assert StripStart("again") == "again";
    assert "again"[4] == 'n' && !IsSpace('n');
    assert StripEnd("again") == "again";
  }

  /** The tick at 0 s: no earlier phrase, so the first line opens. */
  lemma ScenarioTick0(recognize: Transcriber, toPolish: Translator)
    requires recognize([1]) == Some(" hello") && toPolish("hello") == Some("cześć")
    ensures Tick(State(None, [[1]], [], []), Config(3, 30), 0, recognize, toPolish).state
            == State(Some(0), [], ["cześć"], [0])
  {
    var s := State(None, [[1]], [], []);
    assert Recognize(Concat(s.queue), recognize, toPolish) == Some("cześć") by {
      ConcatSingle([1]);
      ScenarioStripHello();
    }
    NewLineTick(s, Config(3, 30), 0, recognize, toPolish, "cześć");
  }

  /** The tick at 1 s: a gap of 1 s continues the line. */
  lemma ScenarioTick1(recognize: Transcriber, toPolish: Translator)
    requires recognize([2]) == Some("world\n") && toPolish("world") == Some("świat")
    ensures Tick(State(Some(0), [[2]], ["cześć"], [0]), Config(3, 30), 1, recognize, toPolish).state
            == State(Some(1), [], ["cześć świat"], [0])
  {
    var s := State(Some(0), [[2]], ["cześć"], [0]);
    assert Evict(s, 1, 30) == s by { assert StaleCount([0], 1, 30) == 0; }
    assert Recognize(Concat(s.queue), recognize, toPolish) == Some("świat") by {
      ConcatSingle([2]);
      ScenarioStripWorld();
    }
    ContinuationTick(s, Config(3, 30), 1, recognize, toPolish, "świat");
    var r := Tick(s, Config(3, 30), 1, recognize, toPolish).state;
    assert |r.transcription| == 1 && r.transcription[0] == "cześć" + " " + "świat" == "cześć świat";
  }

  /** The tick at 5 s: a gap of 4 s opens a second line. */
  lemma ScenarioTick5(recognize: Transcriber, toPolish: Translator)
    requires recognize([3]) == Some("again") && toPolish("again") == Some("znowu")
    ensures Tick(State(Some(1), [[3]], ["cześć świat"], [0]), Config(3, 30), 5, recognize, toPolish).state
            == State(Some(5), [], ["cześć świat", "znowu"], [0, 5])
  {
    var s := State(Some(1), [[3]], ["cześć świat"], [0]);
    assert Evict(s, 5, 30) == s by { assert StaleCount([0], 5, 30) == 0; }
    assert Recognize(Concat(s.queue), recognize, toPolish) == Some("znowu") by {
      ConcatSingle([3]);
      ScenarioStripAgain();
    }
    NewLineTick(s, Config(3, 30), 5, recognize, toPolish, "znowu");
  }

  /** The tick at 31 s, with no audio: the line of 0 s goes, the line of 5 s stays. */
  lemma ScenarioTick31(recognize: Transcriber, toPolish: Translator)
    ensures Tick(State(Some(5), [], ["cześć świat", "znowu"], [0, 5]), Config(3, 30), 31, recognize, toPolish).state
            == State(Some(5), [], ["znowu"], [5])
  {
    var s := State(Some(5), [], ["cześć świat", "znowu"], [0, 5]);
    assert StaleCount([0, 5], 31, 30) == 1;
    EmptyQueueTick(s, Config(3, 30), 31, recognize, toPolish);
  }

  lemma RunPush(s: State, cfg: Config, audio: Chunk, evs: seq<Event>, s': State)
    requires Parallel(s) && Push(s, audio) == s'
    ensures Run(s, cfg, [RecordCallback(audio)] + evs) == Run(s', cfg, evs)
  {
    RunCons(s, cfg, RecordCallback(audio), evs);
  }

  lemma RunTick(s: State, cfg: Config, now: nat, transcribe: Transcriber, translate: Translator,
                evs: seq<Event>, s': State)
    requires Parallel(s) && Tick(s, cfg, now, transcribe, translate).state == s'
    ensures Run(s, cfg, [UpdateTextWidget(now, transcribe, translate)] + evs) == Run(s', cfg, evs)
  {
    RunCons(s, cfg, UpdateTextWidget(now, transcribe, translate), evs);
  }

  /** A captioning session (phrase timeout 3 s, display time 30 s; audio at
      0, 1 and 5 s, a silent tick at 31 s), for any engines that answer as
      `ScenarioEngines` says: at 0 s the first line opens; at 1 s (gap 1 s) it
      is continued; at 5 s (gap 4 s) a second line opens; at 31 s the first
      line (age 31 s) is evicted and the second (age 26 s) stays. */
  lemma CaptionScenario(recognize: Transcriber, toPolish: Translator)
    requires ScenarioEngines(recognize, toPolish)
    ensures Run(Initial(), Config(3, 30), ScenarioUntil5(recognize, toPolish)).transcription == ["cześć świat", "znowu"]
    ensures Run(Initial(), Config(3, 30), ScenarioUntil5(recognize, toPolish)).timestamps == [0, 5]
    ensures Run(Initial(), Config(3, 30), Scenario(recognize, toPolish)).transcription == ["znowu"]
    ensures Run(Initial(), Config(3, 30), Scenario(recognize, toPolish)).timestamps == [5]
  {
    var cfg := Config(3, 30);
    var s6 := State(Some(5), [], ["cześć świat", "znowu"], [0, 5]);
    assert Run(Initial(), cfg, ScenarioUntil5(recognize, toPolish)) == s6 by {
      ScenarioRunUntil5(recognize, toPolish);
    }
    RunSnoc(Initial(), cfg, ScenarioUntil5(recognize, toPolish), UpdateTextWidget(31, recognize, toPolish));
    ScenarioTick31(recognize, toPolish);
  }

  lemma ScenarioRunUntil5(recognize: Transcriber, toPolish: Translator)
    requires ScenarioEngines(recognize, toPolish)
    ensures Run(Initial(), Config(3, 30), ScenarioUntil5(recognize, toPolish))
            == State(Some(5), [], ["cześć świat", "znowu"], [0, 5])
  {
    var cfg := Config(3, 30);
    var e1 := UpdateTextWidget(0, recognize, toPolish);
    var e3 := UpdateTextWidget(1, recognize, toPolish);
    var e5 := UpdateTextWidget(5, recognize, toPolish);
    var none: seq<Chunk> := [];
    var s1 := State(None, [[1]], [], []);
    var s2 := State(Some(0), [], ["cześć"], [0]);
    var s3 := State(Some(0), [[2]], ["cześć"], [0]);
    var s4 := State(Some(1), [], ["cześć świat"], [0]);
    var s5 := State(Some(1), [[3]], ["cześć świat"], [0]);
    var s6 := State(Some(5), [], ["cześć świat", "znowu"], [0, 5]);
    assert none + [[1]] == [[1]] && none + [[2]] == [[2]] && none + [[3]] == [[3]];
    RunPush(Initial(), cfg, [1], [e1] + ([RecordCallback([2])] + ([e3] + ([RecordCallback([3])] + [e5]))), s1);
    ScenarioTick0(recognize, toPolish);
    RunTick(s1, cfg, 0, recognize, toPolish, [RecordCallback([2])] + ([e3] + ([RecordCallback([3])] + [e5])), s2);
    RunPush(s2, cfg, [2], [e3] + ([RecordCallback([3])] + [e5]), s3);
    ScenarioTick1(recognize, toPolish);
    RunTick(s3, cfg, 1, recognize, toPolish, [RecordCallback([3])] + [e5], s4);
    RunPush(s4, cfg, [3], [e5], s5);
    ScenarioTick5(recognize, toPolish);
    RunTick(s5, cfg, 5, recognize, toPolish, [], s6);
    assert [e5] + [] == [e5];
  }
}
