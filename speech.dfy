/**
 * The browser speech wrappers of `src/services/speech.ts`. The recognition
 * and synthesis engines are abstract: what the wrappers ask of them is kept in
 * a ghost log of engine calls, and what the engines report arrives as events
 * (start, end, result, error; utterance start, end and error).
 */
module Speech {
  import opened Wrappers
  import opened Text

  /** A callback registered by a client, known by the token the client chose. */
  datatype Handler = Handler(token: nat)

  /** The wrapper's `callbacks` record: at most one callback of each kind. */
  datatype Callbacks = Callbacks(onResult: Option<Handler>, onStart: Option<Handler>,
                                 onEnd: Option<Handler>, onError: Option<Handler>)

  const NoCallbacks := Callbacks(None, None, None, None)

  /** One recognition hypothesis; the confidence is passed through unchanged. */
  datatype Alternative = Alternative(transcript: string, confidence: real)

  /** One entry of a recognition event's result list. */
  datatype RecognitionResult = RecognitionResult(isFinal: bool, alternatives: seq<Alternative>)

  /** What the wrapper reports to its `onResult` callback. */
  datatype SpeechResult = SpeechResult(transcript: string, confidence: real, isFinal: bool)

  datatype Payload = NoPayload | ResultPayload(result: SpeechResult) | ErrorPayload(code: string)

  /** A callback invocation caused by an engine event. */
  datatype Notification = Notified(handler: Handler, payload: Payload)

  /** `callback?.(payload)`: nothing happens when no callback is registered. */
  function Deliver(h: Option<Handler>, p: Payload): (n: Option<Notification>)
    ensures n.Some? <==> h.Some?
    ensures n.Some? ==> n.value.handler == h.value && n.value.payload == p
  {
    match h
    case Some(handler) => Some(Notified(handler, p))
    case None => None
  }

  /**
   * The result the recognition `onresult` handler reports: the first
   * alternative of the last entry, its transcript trimmed, its finality kept.
   * An event without such an alternative makes the handler throw before it
   * reports anything. A reported transcript is already trimmed, so a
   * non-empty one is never blank: clients never see a transcript that has
   * length but only white space.
   */
  function LastResult(results: seq<RecognitionResult>): (r: Option<SpeechResult>)
    ensures r.Some? <==> |results| > 0 && |results[|results| - 1].alternatives| > 0
    ensures r.Some? ==>
              var last := results[|results| - 1];
              && r.value.transcript == Trim(last.alternatives[0].transcript)
              && r.value.confidence == last.alternatives[0].confidence
              && r.value.isFinal == last.isFinal
    ensures r.Some? ==> Trim(r.value.transcript) == r.value.transcript
    ensures r.Some? ==> (|r.value.transcript| > 0 <==> Trim(r.value.transcript) != [])
  {
    if |results| == 0 || |results[|results| - 1].alternatives| == 0 then None
    else
      var last := results[|results| - 1];
      TrimIdempotent(last.alternatives[0].transcript);
      Some(SpeechResult(Trim(last.alternatives[0].transcript), last.alternatives[0].confidence, last.isFinal))
  }

  datatype RecognitionCall = StartCall | StopCall

  /**
   * `SpeechRecognitionService`. `supported` is fixed at construction (the
   * recognition object exists exactly when the browser provides the API);
   * `listening` follows the engine's start and end events only.
   */
  class Recognizer {
    const supported: bool
    var listening: bool
    var callbacks: Callbacks
    ghost var engineCalls: seq<RecognitionCall>

    /** Feature detection: without the API nothing is set up and `isSupported` stays false. */
    constructor (apiPresent: bool)
      ensures supported == apiPresent
      ensures !listening && callbacks == NoCallbacks && engineCalls == []
    {
      supported := apiPresent;
      listening := false;
      callbacks := NoCallbacks;
      engineCalls := [];
    }

    /**
     * `startListening()`: false and no effect without the API; true without
     * restarting while already listening; otherwise asks the engine to start
     * and answers whether that call returned normally (`startThrows` is the
     * engine's refusal). Listening itself begins only with the start event.
     */
    method StartListening(startThrows: bool) returns (ok: bool)
      modifies this
      ensures listening == old(listening) && callbacks == old(callbacks)
      ensures !supported ==> !ok && engineCalls == old(engineCalls)
      ensures supported && old(listening) ==> ok && engineCalls == old(engineCalls)
      ensures supported && !old(listening) ==> ok == !startThrows && engineCalls == old(engineCalls) + [StartCall]
    {
      if !supported {
        return false;
      }
      if listening {
        return true;
      }
      engineCalls := engineCalls + [StartCall];
      ok := !startThrows;
    }

    /** `stopListening()`: asks the engine to stop only while listening, so it is safe at any time. */
    method StopListening()
      modifies this
      ensures listening == old(listening) && callbacks == old(callbacks)
      ensures engineCalls == old(engineCalls) + (if supported && old(listening) then [StopCall] else [])
    {
      if supported && listening {
        engineCalls := engineCalls + [StopCall];
      }
    }

    /** The engine's start event: listening begins and `onStart` is told. */
    method HandleStart() returns (n: Option<Notification>)
      modifies this
      ensures callbacks == old(callbacks) && engineCalls == old(engineCalls)
      ensures supported ==> listening && n == Deliver(callbacks.onStart, NoPayload)
      ensures !supported ==> listening == old(listening) && n == None
    {
      n := None;
      if supported {
        listening := true;
        n := Deliver(callbacks.onStart, NoPayload);
      }
    }

    /** The engine's end event: listening ends and `onEnd` is told. */
    method HandleEnd() returns (n: Option<Notification>)
      modifies this
      ensures callbacks == old(callbacks) && engineCalls == old(engineCalls)
      ensures supported ==> !listening && n == Deliver(callbacks.onEnd, NoPayload)
      ensures !supported ==> listening == old(listening) && n == None
    {
      n := None;
      if supported {
        listening := false;
        n := Deliver(callbacks.onEnd, NoPayload);
      }
    }

    /** The engine's result event: `onResult` gets the last result, trimmed; the flags do not move. */
    method HandleResult(results: seq<RecognitionResult>) returns (n: Option<Notification>)
      ensures supported && LastResult(results).Some? ==>
                n == Deliver(callbacks.onResult, ResultPayload(LastResult(results).value))
      ensures !supported || LastResult(results).None? ==> n == None
    {
      n := None;
      if supported {
        var r := LastResult(results);
        if r.Some? {
          n := Deliver(callbacks.onResult, ResultPayload(r.value));
        }
      }
    }

    /** The engine's error event: `onError` gets the code; `listening` is left as it was. */
    method HandleError(code: string) returns (n: Option<Notification>)
      ensures n == if supported then Deliver(callbacks.onError, ErrorPayload(code)) else None
    {
      n := if supported then Deliver(callbacks.onError, ErrorPayload(code)) else None;
    }

    /** `onResult(cb)`: replaces any earlier result callback and nothing else. */
    method OnResult(h: Handler)
      modifies this
      ensures callbacks == old(callbacks).(onResult := Some(h))
      ensures listening == old(listening) && engineCalls == old(engineCalls)
    {
      callbacks := callbacks.(onResult := Some(h));
    }

    /** `onStart(cb)`: replaces any earlier start callback and nothing else. */
    method OnStart(h: Handler)
      modifies this
      ensures callbacks == old(callbacks).(onStart := Some(h))
      ensures listening == old(listening) && engineCalls == old(engineCalls)
    {
      callbacks := callbacks.(onStart := Some(h));
    }

    /** `onEnd(cb)`: replaces any earlier end callback and nothing else. */
    method OnEnd(h: Handler)
      modifies this
      ensures callbacks == old(callbacks).(onEnd := Some(h))
      ensures listening == old(listening) && engineCalls == old(engineCalls)
    {
      callbacks := callbacks.(onEnd := Some(h));
    }

    /** `onError(cb)`: replaces any earlier error callback and nothing else. */
    method OnError(h: Handler)
      modifies this
      ensures callbacks == old(callbacks).(onError := Some(h))
      ensures listening == old(listening) && engineCalls == old(engineCalls)
    {
      callbacks := callbacks.(onError := Some(h));
    }
  }

  // ---------------------------------------------------------------------------
  // Speech synthesis.

  datatype Voice = Voice(name: string, lang: string)

  /** The tests of the voice `find` chain, and the by-name test of `setVoice`. */
  datatype VoiceTest = GoogleEnglish | FemaleEnglish | AnyEnglish | NamedExactly(name: string)

  predicate Passes(v: Voice, test: VoiceTest) {
    match test
    case GoogleEnglish => Includes(v.name, "Google") && StartsWith(v.lang, "en")
    case FemaleEnglish => StartsWith(v.lang, "en") && Includes(v.name, "Female")
    case AnyEnglish => StartsWith(v.lang, "en")
    case NamedExactly(name) => v.name == name
  }

  /** Index of the first voice at or after `i` that passes `test`, or `|voices|`. */
  function FindIndex(voices: seq<Voice>, test: VoiceTest, i: nat): (k: nat)
    requires i <= |voices|
    ensures i <= k <= |voices|
    ensures forall j :: i <= j < k ==> !Passes(voices[j], test)
    ensures k < |voices| ==> Passes(voices[k], test)
    decreases |voices| - i
  {
    if i == |voices| || Passes(voices[i], test) then i else FindIndex(voices, test, i + 1)
  }

  /** `voices.find(test)`: a listed voice that passes the test, or none when no voice does. */
  function Find(voices: seq<Voice>, test: VoiceTest): (f: Option<Voice>)
    ensures f.Some? ==> f.value in voices && Passes(f.value, test)
    ensures f.None? ==> forall j :: 0 <= j < |voices| ==> !Passes(voices[j], test)
  {
    var k := FindIndex(voices, test, 0);
    if k < |voices| then Some(voices[k]) else None
  }

  /** `Find` is the first passing voice, and finds nothing only when no voice passes. */
  lemma FindIsFirst(voices: seq<Voice>, test: VoiceTest)
    ensures Find(voices, test).None? <==> forall j :: 0 <= j < |voices| ==> !Passes(voices[j], test)
    ensures Find(voices, test).Some? ==>
              exists k :: 0 <= k < |voices| && Find(voices, test).value == voices[k] && Passes(voices[k], test)
                          && forall j :: 0 <= j < k ==> !Passes(voices[j], test)
  {
    var k := FindIndex(voices, test, 0);
    if k < |voices| {
      assert Find(voices, test).value == voices[k];
    }
  }

  /**
   * The voice choice of `setupVoice`: a Google English voice, else an English
   * voice named "Female", else any English voice, else the first voice, else
   * none: a listed voice is chosen exactly when there is one.
   */
  function ChooseVoice(voices: seq<Voice>): (c: Option<Voice>)
    ensures c.None? <==> voices == []
    ensures c.Some? ==> c.value in voices
  {
    var google := Find(voices, GoogleEnglish);
    if google.Some? then google
    else
      var female := Find(voices, FemaleEnglish);
      if female.Some? then female
      else
        var english := Find(voices, AnyEnglish);
        if english.Some? then english
        else if |voices| > 0 then Some(voices[0])
        else None
  }

  /** `voices` holds a voice passing `test`. */
  predicate Offers(voices: seq<Voice>, test: VoiceTest) {
    exists j :: 0 <= j < |voices| && Passes(voices[j], test)
  }

  /**
   * The fallback chain: a voice is chosen exactly when there is one, it is one
   * of the voices, it is the first of the earliest preference the catalog can
   * satisfy, and with any English voice on offer an English voice is chosen.
   */
  lemma ChooseVoicePreference(voices: seq<Voice>)
    ensures ChooseVoice(voices).None? <==> voices == []
    ensures ChooseVoice(voices).Some? ==> ChooseVoice(voices).value in voices
    ensures Offers(voices, GoogleEnglish) ==> ChooseVoice(voices) == Find(voices, GoogleEnglish)
    ensures !Offers(voices, GoogleEnglish) && Offers(voices, FemaleEnglish) ==>
              ChooseVoice(voices) == Find(voices, FemaleEnglish)
    ensures !Offers(voices, GoogleEnglish) && !Offers(voices, FemaleEnglish) && Offers(voices, AnyEnglish) ==>
              ChooseVoice(voices) == Find(voices, AnyEnglish)
    ensures !Offers(voices, AnyEnglish) && voices != [] ==> ChooseVoice(voices) == Some(voices[0])
    ensures Offers(voices, AnyEnglish) ==> Passes(ChooseVoice(voices).value, AnyEnglish)
  {
    FindIsFirst(voices, GoogleEnglish);
    FindIsFirst(voices, FemaleEnglish);
    FindIsFirst(voices, AnyEnglish);
    if Offers(voices, AnyEnglish) {
      var j :| 0 <= j < |voices| && Passes(voices[j], AnyEnglish);
      assert Find(voices, AnyEnglish).Some?;
    }
    if !Offers(voices, AnyEnglish) {
      forall j | 0 <= j < |voices| ensures !Passes(voices[j], GoogleEnglish) && !Passes(voices[j], FemaleEnglish) {
        assert !Passes(voices[j], AnyEnglish);
      }
    }
  }

  /** An utterance handed to the engine, with the callbacks its options carry. */
  datatype Utterance = Utterance(text: string, voice: Option<Voice>, onStart: Option<Handler>, onEnd: Option<Handler>)

  datatype SynthesisCall = SpeakCall(utterance: Utterance) | Cancel | Pause | Resume

  /**
   * `TextToSpeechService`. `speaking` follows the utterance events; the voice
   * is chosen from the catalog at construction, or when the catalog changes if
   * it was empty then.
   */
  class Synthesizer {
    var voice: Option<Voice>
    var speaking: bool
    const awaitingVoices: bool
    ghost var engineCalls: seq<SynthesisCall>

    constructor (voices: seq<Voice>)
      ensures voice == (if voices != [] then ChooseVoice(voices) else None)
      ensures awaitingVoices == (voices == [])
      ensures !speaking && engineCalls == []
    {
      voice := if voices != [] then ChooseVoice(voices) else None;
      awaitingVoices := voices == [];
      speaking := false;
      engineCalls := [];
    }

    /** The `voiceschanged` event: only heard when the catalog was empty at construction. */
    method HandleVoicesChanged(voices: seq<Voice>)
      modifies this
      ensures voice == if awaitingVoices then ChooseVoice(voices) else old(voice)
      ensures speaking == old(speaking) && engineCalls == old(engineCalls)
    {
      if awaitingVoices {
        voice := ChooseVoice(voices);
      }
    }

    /**
     * `speak(text, options)`: always cancels first, which clears `speaking`,
     * then hands the engine one utterance with the current voice and the
     * caller's callbacks. (Rate, pitch and volume are not modelled.)
     */
    method Speak(text: string, onStart: Option<Handler>, onEnd: Option<Handler>)
      modifies this
      ensures !speaking && voice == old(voice)
      ensures engineCalls == old(engineCalls) + [Cancel, SpeakCall(Utterance(text, old(voice), onStart, onEnd))]
    {
      Stop();
      engineCalls := engineCalls + [SpeakCall(Utterance(text, voice, onStart, onEnd))];
    }

    /** `stop()`: cancels everything queued or playing and clears `speaking`. */
    method Stop()
      modifies this
      ensures !speaking && voice == old(voice)
      ensures engineCalls == old(engineCalls) + [Cancel]
    {
      engineCalls := engineCalls + [Cancel];
      speaking := false;
    }

    /** `pause()`: passed to the engine; `speaking` is not touched. */
    method PauseSpeech()
      modifies this
      ensures speaking == old(speaking) && voice == old(voice)
      ensures engineCalls == old(engineCalls) + [Pause]
    {
      engineCalls := engineCalls + [Pause];
    }

    /** `resume()`: passed to the engine; `speaking` is not touched. */
    method ResumeSpeech()
      modifies this
      ensures speaking == old(speaking) && voice == old(voice)
      ensures engineCalls == old(engineCalls) + [Resume]
    {
      engineCalls := engineCalls + [Resume];
    }

    /** An utterance's start event (only for an utterance handed to the engine): speaking begins and its `onStart` is told. */
    method HandleUtteranceStart(u: Utterance) returns (n: Option<Handler>)
      requires SpeakCall(u) in engineCalls
      modifies this
      ensures speaking && n == u.onStart
      ensures voice == old(voice) && engineCalls == old(engineCalls)
    {
      speaking := true;
      n := u.onStart;
    }

    /**
     * An utterance's end event: speaking ends and its `onEnd` is told. The
     * handler does not check which utterance ended, so this also happens for
     * an utterance that a later `speak` has already replaced.
     */
    method HandleUtteranceEnd(u: Utterance) returns (n: Option<Handler>)
      requires SpeakCall(u) in engineCalls
      modifies this
      ensures !speaking && n == u.onEnd
      ensures voice == old(voice) && engineCalls == old(engineCalls)
    {
      speaking := false;
      n := u.onEnd;
    }

    /** An utterance's error event is handled like its end: speaking ends and `onEnd` is told. */
    method HandleUtteranceError(u: Utterance) returns (n: Option<Handler>)
      requires SpeakCall(u) in engineCalls
      modifies this
      ensures !speaking && n == u.onEnd
      ensures voice == old(voice) && engineCalls == old(engineCalls)
    {
      speaking := false;
      n := u.onEnd;
    }

    /** `setVoice(name)`: the first voice of that exact name, or the current voice when none has it. */
    method SetVoice(name: string, voices: seq<Voice>)
      modifies this
      ensures voice == if Find(voices, NamedExactly(name)).Some? then Find(voices, NamedExactly(name)) else old(voice)
      ensures speaking == old(speaking) && engineCalls == old(engineCalls)
    {
      var found := Find(voices, NamedExactly(name));
      if found.Some? {
        voice := found;
      }
    }

    /** `getIsSpeaking()`. */
    function IsSpeaking(): (b: bool)
      reads this
      ensures b <==> speaking
    {
      speaking
    }
  }

  /**
   * Two `speak` calls in a row, then the end event of the first utterance,
   * which the second call cancelled, arriving after the second has started:
   * `speaking` is cleared while the second is still queued last, and the
   * first call's `onEnd` is told.
   */
  method SupersededUtteranceEnds(s: Synthesizer, first: string, second: string, h1: Handler, h2: Handler)
    returns (told: Option<Handler>)
    modifies s
    ensures !s.speaking && told == Some(h1)
    ensures s.engineCalls == old(s.engineCalls) +
              [Cancel, SpeakCall(Utterance(first, old(s.voice), None, Some(h1))),
               Cancel, SpeakCall(Utterance(second, old(s.voice), None, Some(h2)))]
  {
    var v := s.voice;
    s.Speak(first, None, Some(h1));
    s.Speak(second, None, Some(h2));
    var started := s.HandleUtteranceStart(Utterance(second, v, None, Some(h2)));
    assert s.speaking;
    told := s.HandleUtteranceEnd(Utterance(first, v, None, Some(h1)));
  }
}
