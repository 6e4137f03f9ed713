/** The messages the relay writes: to the Voice Live socket (upstream) and to the
    caller's socket (downstream), and the tool declarations it sends in its
    session configuration. */
module Messages {
  import opened Json
  import opened Base64

  /** A message written to the Voice Live socket. Each stands for the JSON
      object in its comment; the socket carries `json.dumps` of it. */
  datatype Upstream =
      /** {"type": "session.update", "session": {"instructions": ..., "tools": [...], "turn_detection": ...,
          "input_audio_noise_reduction": ..., "input_audio_echo_cancellation": ..., "voice": ...}} */
    | SessionUpdate(tools: seq<ToolSchema>)
      /** {"type": "response.create"} */
    | ResponseCreate
      /** {"type": "input_audio_buffer.append", "audio": audio} */
    | AppendAudio(audio: Json)
      /** {"type": "conversation.item.create",
          "item": {"type": "function_call_output", "call_id": callId, "output": output}} */
    | FunctionCallOutput(callId: Json, output: string)

  /** One entry of the session's "tools" array: {"type": "function", "name": name,
      "description": ..., "parameters": {"type": "object", "properties": {p: {"type": "string", ...}
      for p in properties}, "required": required}}. */
  datatype ToolSchema = ToolSchema(name: string, properties: seq<string>, required: seq<string>)

  const GetClientProducts: string := "get_client_products_by_client_id"
  const CreateSupportCase: string := "create_support_case"
  const SendConversationSummary: string := "send_conversation_summary"

  /** The names a list of tool declarations declares. */
  function ToolNames(tools: seq<ToolSchema>): set<string> {
    set t | t in tools :: t.name
  }

  /** The tool declarations of `session_config()`, in order. */
  function SessionTools(): (tools: seq<ToolSchema>)
    ensures |tools| == 3
    ensures forall t :: t in tools ==> t.required == t.properties && "client_id" in t.required
    ensures ToolNames(tools) == {GetClientProducts, CreateSupportCase, SendConversationSummary}
  {
    [ ToolSchema(GetClientProducts, ["client_id"], ["client_id"]),
      ToolSchema(CreateSupportCase, ["client_id", "description"], ["client_id", "description"]),
      ToolSchema(SendConversationSummary, ["client_id", "conversation_summary"], ["client_id", "conversation_summary"]) ]
  }

  /** `session_config()`: the session.update message, of which the tool
      declarations are modelled. */
  function SessionConfig(): (u: Upstream)
    ensures u.SessionUpdate?
    ensures ToolNames(u.tools) == {GetClientProducts, CreateSupportCase, SendConversationSummary}
  {
    SessionUpdate(SessionTools())
  }

  /** A frame written to the caller's socket: a str or a bytes object. */
  datatype Data = Text(text: string) | Binary(bytes: seq<uint8>)

  /** The enveloped-mode audio message. */
  function AudioDataEnvelope(data: Json): Json {
    Obj([Member("Kind", Str("AudioData")), Member("AudioData", Obj([Member("Data", data)])), Member("StopAudio", Null)])
  }

  /** The barge-in message: stop playing what was sent so far. */
  function StopAudioEnvelope(): Json {
    Obj([Member("Kind", Str("StopAudio")), Member("AudioData", Null), Member("StopAudio", Obj([]))])
  }

  /** The transcript of what the assistant said. */
  function TranscriptionEnvelope(text: Json): Json {
    Obj([Member("Kind", Str("Transcription")), Member("Text", text)])
  }

  // ---------------------------------------------------------------------------
  // The exact text of the envelopes. The structure is worked out over symbolic
  // keys first; the literal keys are put in only at the end, one piece at a time.

  /** The text of an object member whose key needs no escaping. */
  function MemberText(key: string, valueText: string): (r: string)
    ensures |r| == |key| + |valueText| + 4
  {
    ("\"" + key + "\"") + ": " + valueText
  }

  lemma DumpsPlainMember(key: string, value: Json)
    requires Plain(key)
    ensures DumpsMember(Member(key, value)) == MemberText(key, Dumps(value))
  {
    QuotePlain(key);
  }

  lemma DumpsSingleton(k: string, v: Json)
    requires Plain(k)
    ensures Dumps(Obj([Member(k, v)])) == "{" + MemberText(k, Dumps(v)) + "}"
  {
    DumpsPlainMember(k, v);
    assert DumpsMembers([Member(k, v)]) == DumpsMember(Member(k, v));
  }

  lemma DumpsTaggedPair(k1: string, tag: string, k2: string, v2: Json)
    requires Plain(k1) && Plain(tag) && Plain(k2)
    ensures Dumps(Obj([Member(k1, Str(tag)), Member(k2, v2)]))
         == "{" + (MemberText(k1, "\"" + tag + "\"") + ", " + MemberText(k2, Dumps(v2))) + "}"
  {
    QuotePlain(tag); DumpsPlainMember(k1, Str(tag)); DumpsPlainMember(k2, v2);
    var ms := [Member(k1, Str(tag)), Member(k2, v2)];
    assert ms[1..] == [Member(k2, v2)];
    assert DumpsMembers(ms[1..]) == DumpsMember(Member(k2, v2));
    assert DumpsMembers(ms) == DumpsMember(ms[0]) + ", " + DumpsMembers(ms[1..]);
  }

  lemma DumpsTaggedTriple(k1: string, tag: string, k2: string, v2: Json, k3: string, v3: Json)
    requires Plain(k1) && Plain(tag) && Plain(k2) && Plain(k3)
    ensures Dumps(Obj([Member(k1, Str(tag)), Member(k2, v2), Member(k3, v3)]))
         == "{" + (MemberText(k1, "\"" + tag + "\"") + ", "
                + (MemberText(k2, Dumps(v2)) + ", " + MemberText(k3, Dumps(v3)))) + "}"
  {
    QuotePlain(tag); DumpsPlainMember(k1, Str(tag)); DumpsPlainMember(k2, v2); DumpsPlainMember(k3, v3);
    var ms := [Member(k1, Str(tag)), Member(k2, v2), Member(k3, v3)];
    assert ms[1..][1..] == [Member(k3, v3)];
    assert DumpsMembers(ms[1..][1..]) == DumpsMember(Member(k3, v3));
    assert DumpsMembers(ms[1..]) == DumpsMember(ms[1]) + ", " + DumpsMembers(ms[1..][1..]);
    assert DumpsMembers(ms) == DumpsMember(ms[0]) + ", " + DumpsMembers(ms[1..]);
  }

  // The lemmas from here to TranscriptionText pin each key and tag with a
  // `requires k == "..."` instead of writing the literal in the formula. The
  // verifier then joins the pieces of an envelope's text symbolically rather than
  // unfolding every literal into its characters, which keeps each proof small.
  // The three `*Text` lemmas apply them to the literals and state the result.

  lemma Regroup(a: string, b: string, c: string)
    ensures "{" + (a + ", " + (b + ", " + c)) + "}" == ("{" + a + ", ") + (b + ", " + c + "}")
  {
  }

  lemma KindPrefix(k: string, tag: string, text: string)
    requires k == "Kind" && (tag == "StopAudio" || tag == "AudioData")
    requires text == if tag == "StopAudio" then "{\"Kind\": \"StopAudio\", " else "{\"Kind\": \"AudioData\", "
    ensures "{" + MemberText(k, "\"" + tag + "\"") + ", " == text
  {
  }

  lemma StopAudioTail(k2: string, d2: string, k3: string, d3: string)
    requires k2 == "AudioData" && d2 == "null" && k3 == "StopAudio" && d3 == "{}"
    ensures MemberText(k2, d2) + ", " + MemberText(k3, d3) + "}" == "\"AudioData\": null, \"StopAudio\": {}}"
  {
  }

  lemma StopAudioJoin()
    ensures "{\"Kind\": \"StopAudio\", " + "\"AudioData\": null, \"StopAudio\": {}}"
         == "{\"Kind\": \"StopAudio\", \"AudioData\": null, \"StopAudio\": {}}"
  {
  }

  lemma StopAudioTextOver(k1: string, tag: string, k2: string, k3: string)
    requires k1 == "Kind" && tag == "StopAudio" && k2 == "AudioData" && k3 == "StopAudio"
    ensures Dumps(Obj([Member(k1, Str(tag)), Member(k2, Null), Member(k3, Obj([]))]))
         == "{\"Kind\": \"StopAudio\", \"AudioData\": null, \"StopAudio\": {}}"
  {
    DumpsTaggedTriple(k1, tag, k2, Null, k3, Obj([]));
    KindPrefix(k1, tag, "{\"Kind\": \"StopAudio\", ");
    StopAudioTail(k2, Dumps(Null), k3, Dumps(Obj([])));
    Regroup(MemberText(k1, "\"" + tag + "\""), MemberText(k2, Dumps(Null)), MemberText(k3, Dumps(Obj([]))));
    StopAudioJoin();
  }

  /** The barge-in message goes out as exactly this text. */
  lemma StopAudioText()
    ensures Dumps(StopAudioEnvelope()) == "{\"Kind\": \"StopAudio\", \"AudioData\": null, \"StopAudio\": {}}"
  {
    StopAudioTextOver("Kind", "StopAudio", "AudioData", "StopAudio");
  }

  lemma AudioDataInner(k2: string, k4: string, d: string)
    requires k2 == "AudioData" && k4 == "Data"
    ensures MemberText(k2, "{" + MemberText(k4, d) + "}") == "\"AudioData\": {\"Data\": " + d + "}"
  {
  }

  lemma StopAudioNull(k3: string, d3: string)
    requires k3 == "StopAudio" && d3 == "null"
    ensures ", " + MemberText(k3, d3) + "}" == ", \"StopAudio\": null}"
  {
  }

  lemma AudioDataTail(k2: string, k4: string, d: string, k3: string, d3: string)
    requires k2 == "AudioData" && k4 == "Data" && k3 == "StopAudio" && d3 == "null"
    ensures MemberText(k2, "{" + MemberText(k4, d) + "}") + ", " + MemberText(k3, d3) + "}"
         == "\"AudioData\": {\"Data\": " + d + "}, \"StopAudio\": null}"
  {
    var inner := MemberText(k2, "{" + MemberText(k4, d) + "}");
    var tail := MemberText(k3, d3);
    AudioDataInner(k2, k4, d);
    StopAudioNull(k3, d3);
    assert inner + ", " + tail + "}" == inner + (", " + tail + "}");
    assert ("\"AudioData\": {\"Data\": " + d + "}") + ", \"StopAudio\": null}"
        == "\"AudioData\": {\"Data\": " + d + "}, \"StopAudio\": null}";
  }

  lemma AudioDataJoin(d: string)
    ensures "{\"Kind\": \"AudioData\", " + ("\"AudioData\": {\"Data\": " + d + "}, \"StopAudio\": null}")
         == "{\"Kind\": \"AudioData\", \"AudioData\": {\"Data\": " + d + "}, \"StopAudio\": null}"
  {
  }

  lemma AudioDataTextOver(k1: string, tag: string, k2: string, k4: string, k3: string, data: Json)
    requires k1 == "Kind" && tag == "AudioData" && k2 == "AudioData" && k4 == "Data" && k3 == "StopAudio"
    ensures Dumps(Obj([Member(k1, Str(tag)), Member(k2, Obj([Member(k4, data)])), Member(k3, Null)]))
         == "{\"Kind\": \"AudioData\", \"AudioData\": {\"Data\": " + Dumps(data) + "}, \"StopAudio\": null}"
  {
    DumpsSingleton(k4, data);
    DumpsTaggedTriple(k1, tag, k2, Obj([Member(k4, data)]), k3, Null);
    KindPrefix(k1, tag, "{\"Kind\": \"AudioData\", ");
    AudioDataTail(k2, k4, Dumps(data), k3, Dumps(Null));
    Regroup(MemberText(k1, "\"" + tag + "\""), MemberText(k2, Dumps(Obj([Member(k4, data)]))), MemberText(k3, Dumps(Null)));
    AudioDataJoin(Dumps(data));
  }

  /** An enveloped audio message carries the delta's JSON text unchanged. */
  lemma AudioDataText(data: Json)
    ensures Dumps(AudioDataEnvelope(data))
         == "{\"Kind\": \"AudioData\", \"AudioData\": {\"Data\": " + Dumps(data) + "}, \"StopAudio\": null}"
  {
    AudioDataTextOver("Kind", "AudioData", "AudioData", "Data", "StopAudio", data);
  }

  lemma TranscriptionLiteral(k1: string, tag: string, k2: string, d: string)
    requires k1 == "Kind" && tag == "Transcription" && k2 == "Text"
    ensures "{" + (MemberText(k1, "\"" + tag + "\"") + ", " + MemberText(k2, d)) + "}"
         == "{\"Kind\": \"Transcription\", \"Text\": " + d + "}"
  {
  }

  /** A transcription message carries the transcript's JSON text unchanged. */
  lemma TranscriptionText(text: Json)
    ensures Dumps(TranscriptionEnvelope(text)) == "{\"Kind\": \"Transcription\", \"Text\": " + Dumps(text) + "}"
  {
    DumpsTaggedPair("Kind", "Transcription", "Text", text);
    TranscriptionLiteral("Kind", "Transcription", "Text", Dumps(text));
  }
}
