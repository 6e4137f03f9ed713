# ACS / Voice Live media relay in Dafny

This project models `ACSMediaHandler`, the media relay of a voice agent. On one
side is a caller. That is either Azure Communication Services, which speaks JSON
envelopes, or a web page, which sends raw PCM bytes. On the other side is the
Azure Voice Live realtime socket.

The model covers the following:

- **Connecting.** The realtime URL and the handshake headers. The first two
  messages are `session.update` and then `response.create`.
- **Caller to Voice Live.** The silence filter of `acs_to_voicelive`. The base 64
  encoding of `web_to_voicelive`. The send queue that `audio_to_voicelive` fills
  and `_sender_loop` drains.
- **Voice Live to caller.** The dispatch of `_receiver_loop` on the event
  `type`. The StopAudio, Transcription and AudioData envelopes. The raw-mode
  base 64 decoding of audio deltas.
- **Tool calls.** The router for the three functions the session declares. It
  parses the arguments, calls the function, and writes a `function_call_output`
  followed by `response.create`.
- **Two of the functions.** The result shaping of
  `send_conversation_summary` and `get_client_products_by_client_id`, with the
  database rows and the e-mail service's answer as inputs.

The model has these modules:

| module | holds |
|---|---|
| `Wrappers` | `Option`, and `Outcome`: a value or a raised exception's message. |
| `Json` | Decoded JSON values and `dict.get`. Truthiness. The exact text `json.dumps` writes (default separators, `ensure_ascii`). |
| `Base64` | `b64encode`. `b64decode` in its non-validating CPython form: non-alphabet characters are skipped, and decoding stops at the pad that completes a quantum. |
| `Messages` | The messages written to Voice Live (`Upstream`). The frames of the caller's socket (`Data`). The envelopes and their exact text. The tool declarations of `session_config`. |
| `Tools` | The tool-call router, with the three functions as parameters (`Collaborators`). |
| `Connection` | `connect`'s URL (`str.replace` of `https://` by `wss://`) and its headers. |
| `Events` | What one inbound Voice Live frame, or one caller frame, leads to. What a run of the receiver loop sends to each side. |
| `Relay` | The `ACSMediaHandler` class. Its fields are updated by its methods. Both sockets are objects recording what was written to them. |
| `Functions` | The result shaping of the summary and products functions. |

The two sockets are objects of class `Relay.Socket`:

- `sent` is the trace of messages written so far.
- `healthy` is how many more writes succeed. Once a write raises, the socket is
  closed and every later write raises too.

Every statement about a method is therefore a statement about the trace it
leaves. An example is "Voice Live receives the queue in order, cut where its
socket closed".

`json.loads` of a frame and the three functions are function-typed parameters.
So are the request id (uuid4), the bearer token and the opened socket.

The model follows the code as written:

- A tool reply is written straight to the socket with `_send_json`, not through
  the queue (acs_media_handler.py:557-558, :474-477).
- A function name outside the three known names gets no reply at all. The
  `if`/`elif` chain (:538-644) has no `else`.
- The silence filter uses Python truthiness. A frame whose `silent` member is
  present and false in Python's sense (`false`, `null`, `0`, `""`, `[]`, `{}`)
  is forwarded. A frame without a `silent` member is treated as silent (:701).
- A failed write of a tool reply raises again in the `except` branch, because
  the socket is closed by then. The exception leaves the receiver loop, which
  ends (:560-571, :668).
- `get_client_products_by_client_id` answers a client with no product rows with
  two empty lists, even when the cases query found open cases (:267-269).
- A NULL `created_date` makes `strftime` raise. That exception is reported as
  `{"error": "'NoneType' object has no attribute 'strftime'"}` (:257, :271-273).
- A missing `AZURE_USER_ASSIGNED_IDENTITY_CLIENT_ID` is modelled as the empty
  string. Both are false in the `if self.client_id:` test (:443).

## Model

| member | source | states |
|---|---|---|
| Connection.ReplaceAll | app/handler/acs_media_handler.py:439 | `str.replace` of a pattern by itself leaves the text unchanged. |
| Connection.RealtimeUrl | app/handler/acs_media_handler.py:438-439 | An endpoint with the `https://` scheme gives a URL with the `wss://` scheme. |
| Connection.RealtimeUrlOfHttpsEndpoint | app/handler/acs_media_handler.py:438-439 | For an endpoint `https://host` whose rest has no `https://`, the URL is exactly `wss://host/voice-live/realtime?api-version=2025-05-01-preview&model=<model>`. |
| Connection.RealtimeUrlIsNotHttps | app/handler/acs_media_handler.py:438-439 | Whatever the endpoint and model, no `https://` is left anywhere in the URL `connect` opens. |
| Connection.ReplaceAbsent | app/handler/acs_media_handler.py:439 | `str.replace(pat, with)` leaves a text in which `pat` does not occur unchanged. |
| Connection.NoHttpsLeft | app/handler/acs_media_handler.py:439 | After the left-to-right, non-overlapping replacement, no occurrence of `https://` remains, including one the replacement could have formed. |
| Connection.HandshakeHeaders | app/handler/acs_media_handler.py:441-452 | Exactly two headers. `x-ms-client-request-id` comes first. Then exactly one authenticating header: `Authorization: Bearer <token>` iff the client id is set (non-empty), otherwise `api-key: <key>`. |
| Messages.SessionTools | app/handler/acs_media_handler.py:346-399 | The session declares three tools named exactly `get_client_products_by_client_id`, `create_support_case` and `send_conversation_summary`. Each requires all its parameters, `client_id` among them. |
| Messages.SessionConfig | app/handler/acs_media_handler.py:340-416 | `session_config()` is a `session.update` message declaring exactly the three tools the router handles. |
| Messages.StopAudioText | app/handler/acs_media_handler.py:690-693 | The StopAudio message is exactly `{"Kind": "StopAudio", "AudioData": null, "StopAudio": {}}`. |
| Messages.AudioDataText | app/handler/acs_media_handler.py:678-686 | The AudioData message for delta `D` is exactly `{"Kind": "AudioData", "AudioData": {"Data": <dumps D>}, "StopAudio": null}`. |
| Messages.TranscriptionText | app/handler/acs_media_handler.py:646-651 | The Transcription message for transcript `t` is exactly `{"Kind": "Transcription", "Text": <dumps t>}`. |
| Json.Lookup | app/handler/acs_media_handler.py:494 | `event.get(key)` finds a value iff some member has the key, and the value found is one of that key's members. |
| Json.LookupLastWins | app/handler/acs_media_handler.py:492-494 | Of repeated keys the last one wins, as in the dict `json.loads` builds: no member after the one found has the same key. |
| Json.Dumps | app/handler/acs_media_handler.py:554 | `json.dumps` writes a non-empty text. A dict's text is enclosed in braces, a list's in brackets and a string's in double quotes. |
| Json.Get | app/handler/acs_media_handler.py:698-701 | `x.get(key, default)` raises iff `x` is not a dict, with Python's AttributeError message naming `x`'s type. |
| Json.DumpsPrintable | app/handler/acs_media_handler.py:554 | `json.dumps` with `ensure_ascii` writes only printable ASCII, whatever the strings in the value hold. |
| Base64.Encode | app/handler/acs_media_handler.py:708 | `b64encode` of `n` bytes is `4 * ceil(n / 3)` characters long. |
| Base64.Decode | app/handler/acs_media_handler.py:656 | `b64decode` of a str succeeds only if every character is ASCII. A non-ASCII character raises. |
| Base64.DecodeEncode | app/handler/acs_media_handler.py:708 | Round trip in the sense of section 4 of RFC 4648: `b64decode(b64encode(b)) == b` for every byte string. |
| Base64.EncodeAlphabet | app/handler/acs_media_handler.py:708 | `b64encode` writes `4 * ceil(n / 3)` characters, each in the alphabet or the pad `=`. |
| Tools.ParseArguments | app/handler/acs_media_handler.py:540 | Arguments that are not a string are used as they are. Only string arguments can fail to parse. |
| Tools.Invoke | app/handler/acs_media_handler.py:538-617 | A parse failure propagates unchanged. A call returns a result only when the arguments are, or parse to, a dict. |
| Tools.OutputText | app/handler/acs_media_handler.py:544-571 | The output text is printable ASCII. For a call that raised it is exactly `{"error": <quoted str(e)>}`. |
| Tools.ToolReply | app/handler/acs_media_handler.py:531-644 | A known function name gets exactly two writes: a `function_call_output` under the event's `call_id`, then `response.create`. Any other name gets none. |
| Tools.DeclaredToolsAreRouted | app/handler/acs_media_handler.py:538-644 | The router has a branch for a name iff the session declares a tool of that name. |
| Tools.ArgumentsParsedOrNot | app/handler/acs_media_handler.py:540 | Arguments given as JSON text and the same arguments already parsed get the same reply. |
| Tools.InvokeCallsCollaborator | app/handler/acs_media_handler.py:538-617 | Each branch calls its function with the arguments' `client_id`, and with `description` or `conversation_summary` where it takes one (None when missing). It returns what the function returns or raises. |
| Tools.ArgumentsNotADict | app/handler/acs_media_handler.py:540-541 | Arguments that are not a dict, given directly or as JSON text, make `args_dict.get` raise AttributeError. |
| Tools.ErrorText | app/handler/acs_media_handler.py:567 | The error report's text is exactly `{"error": <quoted str(e)>}`. |
| Tools.ResultIsForwarded | app/handler/acs_media_handler.py:544-558 | A call that returns gets `json.dumps(result)` as its output under the call id, then `response.create`. |
| Tools.FailureIsReported | app/handler/acs_media_handler.py:560-571 | A call that raises still gets an output under the call id, carrying `{"error": str(e)}`, then `response.create`. |
| Events.React | app/handler/acs_media_handler.py:491-494 | A frame is handled without raising only if `json.loads` accepts it and gives an object. |
| Events.Dispatch | app/handler/acs_media_handler.py:495-667 | Event types without a case are only logged. Only `response.function_call_arguments.done` writes to Voice Live. Only speech_started, transcript.done and audio.delta write to the caller. Only session.created, response.done and audio.delta can raise. |
| Events.AudioDelta | app/handler/acs_media_handler.py:653-659 | A delta goes to the caller or raises. It raises iff in raw mode it is not a string or does not decode. The caller gets bytes iff in raw mode, text otherwise. |
| Events.MalformedFrameEndsLoop | app/handler/acs_media_handler.py:492-494 | A frame that `json.loads` rejects, or that is not an object, ends the receiver loop. |
| Events.SessionCreatedLogs | app/handler/acs_media_handler.py:497-499 | A session.created event is only logged when its `session` is absent or an object, and ends the loop otherwise. |
| Events.ResponseDoneLogs | app/handler/acs_media_handler.py:522-529 | A response.done event is only logged when its `response` is absent or an object, and ends the loop otherwise. |
| Events.OtherEventsOnlyLog | app/handler/acs_media_handler.py:661-667 | `error` events and event types without a case of their own are only logged. |
| Events.SpeechStartedStopsAudio | app/handler/acs_media_handler.py:504-509 | `input_audio_buffer.speech_started` sends the caller exactly the StopAudio text, in both modes. |
| Events.TranscriptIsForwarded | app/handler/acs_media_handler.py:646-651 | `response.audio_transcript.done` sends the caller exactly the Transcription text of its transcript, in both modes. |
| Events.EnvelopedDelta | app/handler/acs_media_handler.py:653-659 | In enveloped mode a delta reaches the caller unchanged inside exactly the AudioData text. |
| Events.RawDelta | app/handler/acs_media_handler.py:653-657 | In raw mode a delta reaches the caller as the bytes `b64decode` gives. A delta that does not decode, or is not a string, ends the loop. |
| Events.RawDeltaOfEncodedAudio | app/handler/acs_media_handler.py:655-657 | In raw mode the base 64 encoding of some audio reaches the caller as exactly that audio. |
| Events.FunctionCallIsRouted | app/handler/acs_media_handler.py:531-537 | `response.function_call_arguments.done` is answered with the router's reply to its name, arguments and call id. For an unknown name that reply is empty. |
| Events.CallerAudio | app/handler/acs_media_handler.py:695-704 | A caller frame is forwarded iff it decodes to an object with `kind == "AudioData"` whose `audioData.silent` is present and false. The forwarded audio is `audioData.data` unchanged. Nothing else is forwarded and nothing raises. |
| Events.CallerOutputPrefix | app/handler/acs_media_handler.py:491-509 | What the caller is sent for the first frames is a prefix of what it is sent for any longer run. |
| Events.BargeInComesFirst | app/handler/acs_media_handler.py:504-509 | Once a frame has sent the caller a message (StopAudio for speech_started), everything sent for later frames comes after it. |
| Relay.Socket.Send | app/handler/acs_media_handler.py:671-676 | A write succeeds iff the socket still accepts writes. It then appends the message to the trace and uses one write of the budget. A failed write closes the socket. |
| Relay.MediaHandler.constructor | app/handler/acs_media_handler.py:422-431 | The handler starts with an empty queue, no Voice Live socket, no sender task, no caller socket, and raw mode. |
| Relay.MediaHandler.InitIncomingWebsocket | app/handler/acs_media_handler.py:463-466 | Sets the caller socket and the mode, and nothing else. |
| Relay.MediaHandler.SendJson | app/handler/acs_media_handler.py:474-477 | Without a socket nothing happens. Otherwise the message is appended to the trace iff the socket still accepts writes, and a failed write closes it. |
| Relay.MediaHandler.Connect | app/handler/acs_media_handler.py:436-461 | Computes `RealtimeUrl` and `HandshakeHeaders`. Writes `session.update` then `response.create`, cut where the socket closes. Starts the sender task iff both writes succeed. The socket has two writes fewer left after success, and is closed after a failure. |
| Relay.MediaHandler.AudioToVoiceLive | app/handler/acs_media_handler.py:468-472 | Appends one `input_audio_buffer.append` message with the audio unchanged at the end of the queue. |
| Relay.MediaHandler.SenderLoop | app/handler/acs_media_handler.py:479-487 | The queue reaches Voice Live in order and unchanged. Without a socket, messages are taken off and dropped. The first failed write ends the task for good, losing the message being written. The rest stays queued. |
| Relay.MediaHandler.SendMessage | app/handler/acs_media_handler.py:671-676 | Appends to the caller's trace while its socket accepts writes. A failed write, or no socket, is swallowed. |
| Relay.MediaHandler.StopAudio | app/handler/acs_media_handler.py:690-693 | Sends the caller exactly `{"Kind": "StopAudio", "AudioData": null, "StopAudio": {}}`, cut where its socket is closed. The caller socket then has one write fewer left, or is closed. |
| Relay.MediaHandler.VoiceLiveToAcs | app/handler/acs_media_handler.py:678-688 | Sends the caller exactly the AudioData text around the delta, cut where its socket is closed. The caller socket then has one write fewer left, or is closed. |
| Relay.MediaHandler.AcsToVoiceLive | app/handler/acs_media_handler.py:695-704 | Queues exactly one append message iff `CallerAudio` forwards the frame, and nothing otherwise. |
| Relay.MediaHandler.WebToVoiceLive | app/handler/acs_media_handler.py:706-709 | A binary frame queues one append message carrying `b64encode` of its bytes. A text frame raises and queues nothing. |
| Relay.MediaHandler.SendAll | app/handler/acs_media_handler.py:557-571 | A tool reply's writes happen in order until the first that raises. It succeeds iff the socket accepts all of them. |
| Relay.MediaHandler.Handle | app/handler/acs_media_handler.py:495-667 | One dispatched event either sends its caller message (failures swallowed) or writes its Voice Live messages. It fails iff it raises or a Voice Live write fails. Each socket then has its accepted writes fewer left, or is closed once one of its writes failed. |
| Relay.MediaHandler.ReceiverLoop | app/handler/acs_media_handler.py:489-669 | The frames are handled in order, and the loop stops at the first one that raises or whose Voice Live write fails. Each socket's trace grows by exactly what the handled frames send it, cut where that socket closes. Caller-side failures do not stop the loop. Each socket ends with its budget less what it accepted, or closed. Without a Voice Live socket it ends at once. |
| Functions.SummaryResult | app/handler/acs_media_handler.py:145-176 | The result is a dict of one to three members. It has exactly one iff there is no address or sending fails. |
| Functions.NoRecipientNoEmail | app/handler/acs_media_handler.py:153-157 | A client not found, or with a NULL or empty e-mail, gets `{"error": "Client with ID <id> not found or no email registered"}`, whatever the e-mail service would answer. |
| Functions.SummaryErrorIff | app/handler/acs_media_handler.py:153-176 | The summary result reports an error iff there is no address or sending fails. A send failure is reported as `Error sending email: <error>`. |
| Functions.SummarySent | app/handler/acs_media_handler.py:168-173 | A sent summary reports `Summary sent successfully to <name> (<email>)`, operation id `pending`, and the e-mail's case id. |
| Functions.SerializedCases | app/handler/acs_media_handler.py:252-258 | The cases are copied one for one, in order, with their dates as text, unless some case has a NULL date. Then the AttributeError of `None.strftime` is raised. |
| Functions.SerializeCases | app/handler/acs_media_handler.py:252-258 | The loop over the open cases computes exactly `SerializedCases`. |
| Functions.DateTextReadsBack | app/handler/acs_media_handler.py:257 | `strftime('%Y-%m-%d %H:%M:%S')` writes 19 characters with the separators in place, and each field reads back as the date's own. |
| Functions.ProductsResult | app/handler/acs_media_handler.py:180-273 | The result is a dict. It has a single member iff a setting is missing, a query raises, or the client has products and an open case with a NULL date. |
| Functions.ProductsErrorIff | app/handler/acs_media_handler.py:193-273 | The products result is an error iff a MySQL setting is missing or empty, a query raises, or the client has products and an open case with a NULL date. |
| Functions.ProductsListed | app/handler/acs_media_handler.py:233-266 | A client with products gets the first row's client name, one `{name, type}` entry per product row in order, and every open case. |
| Functions.NoProductsNoCases | app/handler/acs_media_handler.py:267-269 | No product rows give `{"products": [], "open_cases": []}`, whatever cases were found. |

## Left out

- Concurrency is left out: the scheduling of the receiver and sender tasks
  (`asyncio.create_task`), and any interleaving of `_send_json` writes with
  sender-loop writes. The loops are modelled as runs over a given sequence of
  frames and a given queue.
- `json.loads` is a parameter, not a parser. Frames are `str`. Numbers with a
  fraction or an exponent (Python floats) are not represented.
- `session_config` is modelled as its tool declarations only. The instructions,
  turn detection, noise reduction, echo cancellation and voice settings
  (including the float constants) are not part of this model.
- The token request to `ManagedIdentityCredential`, `ws_connect`, and uuid4 are
  not modelled. Their results (token, socket, request id) are inputs.
- MySQL access, the SQL text and the e-mail client are not modelled. Their
  answers (`ClientRow`, `Query`, `Sending`) are inputs to `Functions`.
- `create_support_case`, `get_client_email_by_client_id` and
  `send_support_summary_email` are not modelled. The router treats every
  function as a parameter.
- Logging is not modelled. This includes the `json.dumps(..., indent=2)` of
  `status_details` for `response.done`, which cannot fail on decoded JSON.
- Json.Dumps: an object with repeated keys is written with every member, in
  text order. The dict `json.loads` builds keeps one entry per key, at the first
  occurrence's position with the last occurrence's value. For such a frame, a
  forwarded transcript or enveloped delta differs from the source's text. Lookup
  follows the dict.
- Relay.MediaHandler.AcsToVoiceLive: a binary frame from the caller (Quart's
  `receive()` may return bytes, which `json.loads` also accepts) is modelled as
  its text.
- Relay.MediaHandler.ReceiverLoop: a binary frame from Voice Live (which
  `json.loads` would also accept) is modelled as its text.
- Functions.SummaryResult: takes `str(client_id)` as text. Python's `str` of a
  list or dict argument is not modelled.
- Functions.DateTextReadsBack: is stated for years 1 to 9999. For years below
  1000, `%Y` is platform-dependent in Python. MySQL DATETIME values lie in
  1000-9999.
- `server.py` is not part of this model. Only its choice of mode is reflected in
  `InitIncomingWebsocket`: enveloped mode with `acs_to_voicelive` for ACS, raw
  mode with `web_to_voicelive` for the web client.
