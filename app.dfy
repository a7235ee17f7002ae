/** `TranslatorApp` with the fields the timer and the recording callback
    update in place. The user interface, the microphone and the models are
    not part of this module: the engines are passed to each tick and the
    display text is returned instead of being set on a widget. */
module App {

  import opened Wrappers
  import opened Chunks
  import opened Text
  import opened Transcript

  class TranslatorApp {

    var phraseTime: Option<nat>
    var dataQueue: seq<Chunk>
    var transcription: seq<string>
    var timestamps: seq<nat>
    const phraseTimeout: nat
    const maxDisplayTime: nat

    /** The fields as a value of the pipeline's state. */
    function Snapshot(): State
      reads this
    {
      State(phraseTime, dataQueue, transcription, timestamps)
    }

    function Settings(): Config
    {
      Config(phraseTimeout, maxDisplayTime)
    }

    /** The two lists stay parallel and no line exists before the first
        audio tick. */
    predicate Valid()
      reads this
    {
      Transcript.Valid(Snapshot())
    }

    /** `__init__`, as far as the pipeline's state goes: no phrase yet, an
        empty queue and an empty transcript. */
    constructor (phraseTimeout: nat, maxDisplayTime: nat)
      ensures Valid()
      ensures Snapshot() == Initial()
      ensures Settings() == Config(phraseTimeout, maxDisplayTime)
    {
      this.phraseTimeout := phraseTimeout;
      this.maxDisplayTime := maxDisplayTime;
      phraseTime := None;
      dataQueue := [];
      transcription := [];
      timestamps := [];
    }

    /** `record_callback`: the chunk joins the tail of the queue and nothing
        else changes. */
    method RecordCallback(audio: Chunk)
      requires Valid()
      modifies this`dataQueue
      ensures Valid()
      ensures dataQueue == old(dataQueue) + [audio]
      ensures Snapshot() == Push(old(Snapshot()), audio)
    {
      dataQueue := dataQueue + [audio];
    }

    /** The "remove old lines" loop of `update_text_widget`: pop the oldest
        line from both lists while it is older than `maxDisplayTime`. */
    method RemoveOldLines(now: nat)
      requires Valid()
      modifies this`transcription, this`timestamps
      ensures Valid()
      ensures Snapshot() == Evict(old(Snapshot()), now, maxDisplayTime)
    {
      ghost var popped := 0;
      while timestamps != [] && now - timestamps[0] > maxDisplayTime
        invariant popped <= StaleCount(old(timestamps), now, maxDisplayTime)
        invariant timestamps == old(timestamps)[popped..]
        invariant transcription == old(transcription)[popped..]
        decreases |timestamps|
      {
        timestamps := timestamps[1..];
        transcription := transcription[1..];
        popped := popped + 1;
      }
    }

    /** `update_text_widget` at time `now`: the new fields and the display
        update are those of one tick of the pipeline. */
    method UpdateTextWidget(now: nat, transcribe: Transcriber, translate: Translator) returns (outcome: Outcome)
      requires Valid()
      modifies this
      ensures Valid()
      ensures Step(Snapshot(), outcome) == Tick(old(Snapshot()), Settings(), now, transcribe, translate)
    {
      RemoveOldLines(now);
      ghost var evicted := Snapshot();

      if dataQueue == [] {
        outcome := Idle;
        return;
      }
      var phraseComplete := false;
      if phraseTime.Some? && now - phraseTime.value > phraseTimeout {
        phraseComplete := true;
      }
      assert phraseComplete == PhraseComplete(evicted.phraseTime, now, phraseTimeout);
      phraseTime := Some(now);

      var audioData := Concat(dataQueue);
      dataQueue := [];
      ghost var drained := Snapshot();

      var result := transcribe(audioData);
      if result.None? {
        outcome := Aborted;
        return;
      }
      var text := Strip(result.value);
      var translated := translate(text);
      if translated.None? {
        outcome := Aborted;
        return;
      }
      var translatedText := translated.value;
      assert Recognize(audioData, transcribe, translate) == Some(translatedText);

      if phraseComplete {
        transcription := transcription + [translatedText];
        timestamps := timestamps + [now];
      } else if transcription != [] {
        var last := |transcription| - 1;
        transcription := transcription[last := transcription[last] + " " + translatedText];
      } else {
        transcription := transcription + [translatedText];
        timestamps := timestamps + [now];
      }
      assert Snapshot() == Assemble(drained, translatedText, phraseComplete, now);
      outcome := Shown(JoinLines(transcription));
    }
  }
}
