/** The decisions the relay takes for one frame: the dispatch of `_receiver_loop` on
    an inbound Voice Live event, and the silence filter of `acs_to_voicelive` on an
    inbound caller frame. Then what a run of the receiver loop over a sequence of
    events writes to each side. */
module Events {
  import opened Wrappers
  import opened Json
  import opened Base64
  import opened Messages
  import opened Tools

  /** What handling one inbound Voice Live frame amounts to. */
  datatype Reaction =
      /** Only logged. */
    | Log
      /** One message for the caller, through `send_message`. */
    | ToCaller(data: Data)
      /** Messages written to Voice Live with `_send_json`, in order. */
    | ToVoiceLive(msgs: seq<Upstream>)
      /** An exception escapes the `match`: the loop ends. */
    | Fail

  /** `event.get(key)` on a decoded object. */
  function Field(members: seq<Member>, key: string): Json {
    Lookup(members, key).GetOr(Null)
  }

  /** One turn of `_receiver_loop`: decode the frame, then dispatch on its "type". */
  function React(frame: string, rawAudio: bool, loads: string -> Outcome<Json>, tools: Collaborators): (r: Reaction)
    ensures !r.Fail? ==> loads(frame).Ok? && loads(frame).value.Obj?
  {
    match loads(frame)
    case Raise(_) => Fail
    case Ok(event) =>
      if event.Obj? then Dispatch(event.members, rawAudio, loads, tools)
      else Fail // `event.get` raises AttributeError
  }

  function Dispatch(event: seq<Member>, rawAudio: bool, loads: string -> Outcome<Json>, tools: Collaborators): (r: Reaction)
    ensures !Acted(Field(event, "type")) ==> r == Log
    ensures r.ToVoiceLive? ==> Field(event, "type") == Str("response.function_call_arguments.done")
    ensures r.ToCaller? ==> Field(event, "type") in {Str("input_audio_buffer.speech_started"),
                                                     Str("response.audio_transcript.done"), Str("response.audio.delta")}
    ensures r.Fail? ==> Field(event, "type") in {Str("session.created"), Str("response.done"), Str("response.audio.delta")}
  {
    var kind := Field(event, "type");
    if kind == Str("session.created") then
      // event.get("session", {}).get("id")
      if Lookup(event, "session").GetOr(Obj([])).Obj? then Log else Fail
    else if kind == Str("input_audio_buffer.speech_started") then
      ToCaller(Text(Dumps(StopAudioEnvelope())))
    else if kind == Str("response.done") then
      // event.get("response", {}).get("id")
      if Lookup(event, "response").GetOr(Obj([])).Obj? then Log else Fail
    else if kind == Str("response.function_call_arguments.done") then
      ToVoiceLive(ToolReply(Field(event, "name"), Field(event, "arguments"), Field(event, "call_id"), loads, tools))
    else if kind == Str("response.audio_transcript.done") then
      ToCaller(Text(Dumps(TranscriptionEnvelope(Field(event, "transcript")))))
    else if kind == Str("response.audio.delta") then
      AudioDelta(Field(event, "delta"), rawAudio)
    else
      // input_audio_buffer.cleared, input_audio_buffer.speech_stopped, the two
      // input transcription events, "error" and every other type are only logged
      Log
  }

  /** A `response.audio.delta`: raw mode writes `base64.b64decode(delta)` (which
      raises for anything but an ASCII string of valid base 64), enveloped mode
      (`voicelive_to_acs`) writes the AudioData envelope around the delta as it is. */
  function AudioDelta(delta: Json, rawAudio: bool): (r: Reaction)
    ensures r.ToCaller? || r.Fail?
    ensures r.Fail? <==> rawAudio && (!delta.Str? || Decode(delta.s).None?)
    ensures r.ToCaller? ==> (r.data.Binary? <==> rawAudio)
  {
    if !rawAudio then ToCaller(Text(Dumps(AudioDataEnvelope(delta))))
    else if delta.Str? then
      match Decode(delta.s)
      case Some(bytes) => ToCaller(Binary(bytes))
      case None => Fail
    else Fail
  }

  /** The event types the loop has a `case` for that do more than log. */
  predicate Acted(kind: Json) {
    || kind == Str("session.created")
    || kind == Str("input_audio_buffer.speech_started")
    || kind == Str("response.done")
    || kind == Str("response.function_call_arguments.done")
    || kind == Str("response.audio_transcript.done")
    || kind == Str("response.audio.delta")
  }

  // ---------------------------------------------------------------------------
  // Properties of one event

  /** A frame that `json.loads` rejects, or that is not a JSON object, ends the loop. */
  lemma MalformedFrameEndsLoop(frame: string, rawAudio: bool, loads: string -> Outcome<Json>, tools: Collaborators)
    requires loads(frame).Raise? || !loads(frame).value.Obj?
    ensures React(frame, rawAudio, loads, tools) == Fail
  {
  }

  /** "error" events and types without a case of their own are logged, and the loop
      goes on. */
  lemma OtherEventsOnlyLog(frame: string, event: seq<Member>, rawAudio: bool, loads: string -> Outcome<Json>, tools: Collaborators)
    requires loads(frame) == Ok(Obj(event))
    requires Field(event, "type") == Str("error") || !Acted(Field(event, "type"))
    ensures React(frame, rawAudio, loads, tools) == Log
  {
  }

  /** A session.created event is only logged when its "session" is absent or an
      object; any other "session" value makes `.get("id")` raise and ends the loop. */
  lemma SessionCreatedLogs(frame: string, event: seq<Member>, rawAudio: bool, loads: string -> Outcome<Json>, tools: Collaborators)
    requires loads(frame) == Ok(Obj(event))
    requires Field(event, "type") == Str("session.created")
    ensures Lookup(event, "session").None? ==> React(frame, rawAudio, loads, tools) == Log
    ensures React(frame, rawAudio, loads, tools)
         == if Lookup(event, "session").GetOr(Obj([])).Obj? then Log else Fail
  {
  }

  /** The same for response.done and its "response"; the `status_details` it may log
      are JSON-decoded, so `json.dumps` of them cannot raise. */
  lemma ResponseDoneLogs(frame: string, event: seq<Member>, rawAudio: bool, loads: string -> Outcome<Json>, tools: Collaborators)
    requires loads(frame) == Ok(Obj(event))
    requires Field(event, "type") == Str("response.done")
    ensures Lookup(event, "response").None? ==> React(frame, rawAudio, loads, tools) == Log
    ensures React(frame, rawAudio, loads, tools)
         == if Lookup(event, "response").GetOr(Obj([])).Obj? then Log else Fail
  {
  }

  /** Barge-in: a speech_started event sends exactly the StopAudio message to the
      caller, whichever the audio mode. */
  lemma SpeechStartedStopsAudio(frame: string, event: seq<Member>, rawAudio: bool, loads: string -> Outcome<Json>, tools: Collaborators)
    requires loads(frame) == Ok(Obj(event))
    requires Field(event, "type") == Str("input_audio_buffer.speech_started")
    ensures React(frame, rawAudio, loads, tools)
         == ToCaller(Text("{\"Kind\": \"StopAudio\", \"AudioData\": null, \"StopAudio\": {}}"))
  {
    StopAudioText();
  }

  /** The assistant's transcript goes to the caller in a Transcription message,
      whichever the audio mode; a missing transcript is written as null. */
  lemma TranscriptIsForwarded(frame: string, event: seq<Member>, rawAudio: bool, loads: string -> Outcome<Json>, tools: Collaborators)
    requires loads(frame) == Ok(Obj(event))
    requires Field(event, "type") == Str("response.audio_transcript.done")
    ensures React(frame, rawAudio, loads, tools)
         == ToCaller(Text("{\"Kind\": \"Transcription\", \"Text\": " + Dumps(Field(event, "transcript")) + "}"))
  {
    var t := Field(event, "transcript");
    assert React(frame, rawAudio, loads, tools) == ToCaller(Text(Dumps(TranscriptionEnvelope(t))));
    TranscriptionText(t);
  }

  /** Enveloped mode: a delta is written to the caller inside an AudioData message,
      unchanged, whatever it is. */
  lemma EnvelopedDelta(frame: string, event: seq<Member>, loads: string -> Outcome<Json>, tools: Collaborators)
    requires loads(frame) == Ok(Obj(event))
    requires Field(event, "type") == Str("response.audio.delta")
    ensures React(frame, false, loads, tools)
         == ToCaller(Text("{\"Kind\": \"AudioData\", \"AudioData\": {\"Data\": " + Dumps(Field(event, "delta")) + "}, \"StopAudio\": null}"))
  {
    var delta := Field(event, "delta");
    assert React(frame, false, loads, tools) == AudioDelta(delta, false);
    AudioDataText(delta);
  }

  /** Raw mode: a delta is written as the bytes it decodes to; one that does not
      decode ends the loop. */
  lemma RawDelta(frame: string, event: seq<Member>, loads: string -> Outcome<Json>, tools: Collaborators)
    requires loads(frame) == Ok(Obj(event))
    requires Field(event, "type") == Str("response.audio.delta")
    ensures var delta := Field(event, "delta");
            React(frame, true, loads, tools)
            == if delta.Str? && Decode(delta.s).Some? then ToCaller(Binary(Decode(delta.s).value)) else Fail
  {
  }

  /** Raw mode carries audio bytes through base 64 unchanged: a delta holding the
      encoding of some bytes reaches the caller as exactly those bytes. */
  lemma RawDeltaOfEncodedAudio(frame: string, event: seq<Member>, audio: seq<uint8>, loads: string -> Outcome<Json>, tools: Collaborators)
    requires loads(frame) == Ok(Obj(event))
    requires Field(event, "type") == Str("response.audio.delta")
    requires Field(event, "delta") == Str(Encode(audio))
    ensures React(frame, true, loads, tools) == ToCaller(Binary(audio))
  {
    DecodeEncode(audio);
  }

  /** A function-call event is answered with the router's reply, which is empty for a
      name the router has no branch for. */
  lemma FunctionCallIsRouted(frame: string, event: seq<Member>, rawAudio: bool, loads: string -> Outcome<Json>, tools: Collaborators)
    requires loads(frame) == Ok(Obj(event))
    requires Field(event, "type") == Str("response.function_call_arguments.done")
    ensures React(frame, rawAudio, loads, tools)
         == ToVoiceLive(ToolReply(Field(event, "name"), Field(event, "arguments"), Field(event, "call_id"), loads, tools))
    ensures !Routed(Field(event, "name")) ==> React(frame, rawAudio, loads, tools) == ToVoiceLive([])
  {
  }

  // ---------------------------------------------------------------------------
  // The silence filter of acs_to_voicelive

  /** A caller frame, once decoded, that carries speech: of kind "AudioData", with
      an "audioData" object (an absent one counts as `{}`) whose "silent" member is
      present and false in Python's sense (false, null, 0, "", [] or {}). */
  predicate Speaking(data: Json) {
    && data.Obj?
    && Lookup(data.members, "kind") == Some(Str("AudioData"))
    && var audioData := Lookup(data.members, "audioData").GetOr(Obj([]));
    && audioData.Obj?
    && Lookup(audioData.members, "silent").Some?
    && !Truthy(Lookup(audioData.members, "silent").value)
  }

  /** What `acs_to_voicelive` forwards for a caller frame, if anything. Every
      exception on the way is caught, so a frame never ends the caller loop. */
  function CallerAudio(frame: string, loads: string -> Outcome<Json>): (r: Option<Json>)
    ensures r.Some? <==> loads(frame).Ok? && Speaking(loads(frame).value)
    ensures r.Some? ==>
      var audioData := Lookup(loads(frame).value.members, "audioData").GetOr(Obj([]));
      r.value == Lookup(audioData.members, "data").GetOr(Null)
  {
    match loads(frame)
    case Raise(_) => None
    case Ok(data) =>
      match Get(data, "kind", Null)
      case Raise(_) => None
      case Ok(kind) =>
        if kind != Str("AudioData") then None
        else
          match Get(data, "audioData", Obj([]))
          case Raise(_) => None
          case Ok(audioData) =>
            match Get(audioData, "silent", Bool(true))
            case Raise(_) => None
            case Ok(silent) =>
              if Truthy(silent) then None
              else
                match Get(audioData, "data", Null)
                case Raise(_) => None
                case Ok(d) => Some(d)
  }

  // ---------------------------------------------------------------------------
  // A run of the receiver loop

  /** The reactions to a sequence of frames, one each. */
  function Reactions(frames: seq<string>, rawAudio: bool, loads: string -> Outcome<Json>, tools: Collaborators)
    : (rs: seq<Reaction>)
    ensures |rs| == |frames|
    ensures forall k :: 0 <= k < |frames| ==> rs[k] == React(frames[k], rawAudio, loads, tools)
  {
    seq(|frames|, k requires 0 <= k < |frames| => React(frames[k], rawAudio, loads, tools))
  }

  /** What one reaction sends to the caller. */
  function Downward(r: Reaction): seq<Data> {
    if r.ToCaller? then [r.data] else []
  }

  /** What one reaction sends to Voice Live. */
  function Upward(r: Reaction): seq<Upstream> {
    if r.ToVoiceLive? then r.msgs else []
  }

  /** Everything a sequence of reactions sends to the caller, in order. */
  function CallerOutput(rs: seq<Reaction>): seq<Data>
    decreases |rs|
  {
    if rs == [] then [] else CallerOutput(rs[..|rs| - 1]) + Downward(rs[|rs| - 1])
  }

  /** Everything a sequence of reactions sends to Voice Live, in order. */
  function VoiceLiveOutput(rs: seq<Reaction>): seq<Upstream>
    decreases |rs|
  {
    if rs == [] then [] else VoiceLiveOutput(rs[..|rs| - 1]) + Upward(rs[|rs| - 1])
  }

  /** The loop gets through these reactions when none of them raises and the Voice
      Live socket accepts every message they write (`budget` is how many writes it
      still accepts). A failed write to the caller is swallowed and does not count. */
  predicate Completes(rs: seq<Reaction>, budget: nat) {
    (forall k :: 0 <= k < |rs| ==> !rs[k].Fail?) && |VoiceLiveOutput(rs)| <= budget
  }

  /** The first `n` elements of `s`, or all of it. */
  function Take<T>(s: seq<T>, n: nat): (r: seq<T>)
    ensures |r| == if |s| <= n then |s| else n
    ensures r <= s
  {
    if |s| <= n then s else s[..n]
  }

  lemma TakeAppend<T>(a: seq<T>, b: seq<T>, n: nat)
    ensures Take(a + b, n) == if |a| <= n then a + Take(b, n - |a|) else Take(a, n)
  {
    if |a| <= n {
      if |a + b| > n {
        assert (a + b)[..n] == a + b[..n - |a|];
      }
    } else {
      assert (a + b)[..n] == a[..n];
    }
  }

  lemma OutputStep(rs: seq<Reaction>, n: nat)
    requires n < |rs|
    ensures CallerOutput(rs[..n + 1]) == CallerOutput(rs[..n]) + Downward(rs[n])
    ensures VoiceLiveOutput(rs[..n + 1]) == VoiceLiveOutput(rs[..n]) + Upward(rs[n])
  {
    assert rs[..n + 1][..n] == rs[..n];
  }

  lemma CompletesStep(rs: seq<Reaction>, n: nat, budget: nat)
    requires n < |rs|
    ensures Completes(rs[..n + 1], budget)
        <==> Completes(rs[..n], budget) && !rs[n].Fail?
             && |VoiceLiveOutput(rs[..n])| + |Upward(rs[n])| <= budget
  {
    OutputStep(rs, n);
    assert rs[..n + 1][n] == rs[n];
    forall k | 0 <= k < n ensures rs[..n + 1][k] == rs[..n][k] { }
  }

  /** One more frame handled while Voice Live still accepts writes: its writes are
      added to what was sent, cut at the remaining budget. */
  lemma UpStep(rs: seq<Reaction>, n: nat, budget: nat, before: seq<Upstream>, sent: seq<Upstream>)
    requires n < |rs| && |VoiceLiveOutput(rs[..n])| <= budget
    requires sent == before + Take(VoiceLiveOutput(rs[..n]), budget)
    ensures sent + Take(Upward(rs[n]), budget - |VoiceLiveOutput(rs[..n])|)
         == before + Take(VoiceLiveOutput(rs[..n + 1]), budget)
    ensures var left := budget - |VoiceLiveOutput(rs[..n])|;
      (if |Upward(rs[n])| <= left then left - |Upward(rs[n])| else 0)
        == if |VoiceLiveOutput(rs[..n + 1])| <= budget then budget - |VoiceLiveOutput(rs[..n + 1])| else 0
  {
    var done := VoiceLiveOutput(rs[..n]);
    OutputStep(rs, n);
    TakeAppend(done, Upward(rs[n]), budget);
    assert sent == before + done;
  }

  /** One more frame handled, on the caller's side: a socket that accepts
      `healthy` more writes gets the frame's message if any is left. */
  lemma DownStep(rs: seq<Reaction>, n: nat, budget: nat, before: seq<Data>, sent: seq<Data>, healthy: nat)
    requires n < |rs|
    requires sent == before + Take(CallerOutput(rs[..n]), budget)
    requires healthy == if |CallerOutput(rs[..n])| <= budget then budget - |CallerOutput(rs[..n])| else 0
    ensures sent + Take(Downward(rs[n]), healthy) == before + Take(CallerOutput(rs[..n + 1]), budget)
    ensures (if |Downward(rs[n])| <= healthy then healthy - |Downward(rs[n])| else 0)
         == if |CallerOutput(rs[..n + 1])| <= budget then budget - |CallerOutput(rs[..n + 1])| else 0
  {
    var done := CallerOutput(rs[..n]);
    OutputStep(rs, n);
    TakeAppend(done, Downward(rs[n]), budget);
    if |done| > budget {
      assert Take(Downward(rs[n]), healthy) == [];
    }
  }

  /** What the Voice Live socket holds after the first `n` reactions of a run that
      started with `before` written and `budget` writes left: whether the run
      failed, what was written and how many writes are left. */
  ghost predicate VoiceLiveAfter(rs: seq<Reaction>, n: nat, failed: bool, budget: nat,
                                 before: seq<Upstream>, sent: seq<Upstream>, healthy: nat)
    requires n <= |rs|
  {
    && (failed <==> !Completes(rs[..n], budget))
    && (n > 0 ==> Completes(rs[..n - 1], budget))
    && sent == before + Take(VoiceLiveOutput(rs[..n]), budget)
    && healthy == (if |VoiceLiveOutput(rs[..n])| <= budget then budget - |VoiceLiveOutput(rs[..n])| else 0)
  }

  /** What the caller's socket holds after the first `n` reactions. */
  ghost predicate CallerAfter(rs: seq<Reaction>, n: nat, budget: nat, before: seq<Data>, sent: seq<Data>, healthy: nat)
    requires n <= |rs|
  {
    && sent == before + Take(CallerOutput(rs[..n]), budget)
    && healthy == (if |CallerOutput(rs[..n])| <= budget then budget - |CallerOutput(rs[..n])| else 0)
  }

  /** Handling reaction `n` of a run that has not failed, as one turn of the loop
      does it, takes the Voice Live socket to its state after `n + 1` reactions. */
  lemma VoiceLiveStep(rs: seq<Reaction>, n: nat, budget: nat, before: seq<Upstream>,
                      sent: seq<Upstream>, healthy: nat, failed: bool, sent': seq<Upstream>, healthy': nat)
    requires n < |rs| && VoiceLiveAfter(rs, n, false, budget, before, sent, healthy)
    requires failed <==> rs[n].Fail? || |Upward(rs[n])| > healthy
    requires sent' == sent + Take(Upward(rs[n]), healthy)
    requires healthy' == if |Upward(rs[n])| <= healthy then healthy - |Upward(rs[n])| else 0
    ensures VoiceLiveAfter(rs, n + 1, failed, budget, before, sent', healthy')
  {
    CompletesStep(rs, n, budget);
    UpStep(rs, n, budget, before, sent);
  }

  /** The same on the caller's side. */
  lemma CallerStep(rs: seq<Reaction>, n: nat, budget: nat, before: seq<Data>,
                   sent: seq<Data>, healthy: nat, sent': seq<Data>, healthy': nat)
    requires n < |rs| && CallerAfter(rs, n, budget, before, sent, healthy)
    requires sent' == sent + Take(Downward(rs[n]), healthy)
    requires healthy' == if |Downward(rs[n])| <= healthy then healthy - |Downward(rs[n])| else 0
    ensures CallerAfter(rs, n + 1, budget, before, sent', healthy')
  {
    DownStep(rs, n, budget, before, sent, healthy);
  }

  /** Output order: what the caller is sent for the first `i` frames comes before
      anything sent for later frames. */
  lemma {:induction false} CallerOutputPrefix(rs: seq<Reaction>, i: nat, j: nat)
    requires i <= j <= |rs|
    ensures CallerOutput(rs[..i]) <= CallerOutput(rs[..j])
    decreases j - i
  {
    if i < j {
      CallerOutputPrefix(rs, i, j - 1);
      OutputStep(rs, j - 1);
    }
  }

  /** Barge-in ordering: once frame `i` has sent the caller a message (StopAudio for a
      speech_started event), everything sent for frames after it comes after that
      message. */
  lemma BargeInComesFirst(rs: seq<Reaction>, i: nat, j: nat)
    requires i < j <= |rs| && rs[i].ToCaller?
    ensures CallerOutput(rs[..i]) + [rs[i].data] <= CallerOutput(rs[..j])
  {
    OutputStep(rs, i);
    CallerOutputPrefix(rs, i + 1, j);
  }
}
