/** `ACSMediaHandler`: the object that relays audio between the caller's socket and
    the Voice Live socket, with its outbound queue and its two loops. */
module Relay {
  import opened Wrappers
  import opened Json
  import opened Base64
  import opened Messages
  import opened Tools
  import opened Events
  import opened Connection

  /** A websocket as the relay sees it when writing: the messages written so far,
      and how many more writes succeed. Once a write fails the socket is closed and
      every later write fails too. */
  class Socket<M> {
    var sent: seq<M>
    var healthy: nat

    constructor (healthy: nat)
      ensures sent == [] && this.healthy == healthy
    {
      sent := [];
      this.healthy := healthy;
    }

    /** `await socket.send(m)`; `ok` is false when it raises. */
    method Send(m: M) returns (ok: bool)
      modifies this
      ensures ok <==> old(healthy) > 0
      ensures sent == if ok then old(sent) + [m] else old(sent)
      ensures healthy == if ok then old(healthy) - 1 else 0
    {
      if healthy > 0 {
        sent := sent + [m];
        healthy := healthy - 1;
        ok := true;
      } else {
        ok := false;
      }
    }
  }

  /** The state of the task running `_sender_loop`. */
  datatype SendTask = NotStarted | Running | Ended

  class MediaHandler {
    const endpoint: string
    const model: string
    const apiKey: string
    const clientId: string
    /** `send_queue`: messages waiting for the sender loop, oldest first. */
    var sendQueue: seq<Upstream>
    /** `ws`: the Voice Live socket, once connected. */
    var ws: Socket?<Upstream>
    /** `send_task`. */
    var sendTask: SendTask
    /** `incoming_websocket`: the caller's socket. */
    var incomingWebsocket: Socket?<Data>
    /** `is_raw_audio`: raw bytes to the caller (web clients) rather than JSON
        envelopes (Azure Communication Services). */
    var isRawAudio: bool

    constructor (endpoint: string, model: string, apiKey: string, clientId: string)
      ensures this.endpoint == endpoint && this.model == model
      ensures this.apiKey == apiKey && this.clientId == clientId
      ensures sendQueue == [] && ws == null && sendTask == NotStarted
      ensures incomingWebsocket == null && isRawAudio
    {
      this.endpoint := endpoint;
      this.model := model;
      this.apiKey := apiKey;
      this.clientId := clientId;
      sendQueue := [];
      ws := null;
      sendTask := NotStarted;
      incomingWebsocket := null;
      isRawAudio := true;
    }

    /** `init_incoming_websocket`. */
    method InitIncomingWebsocket(socket: Socket?<Data>, isRawAudio: bool)
      modifies this
      ensures incomingWebsocket == socket && this.isRawAudio == isRawAudio
      ensures sendQueue == old(sendQueue) && ws == old(ws) && sendTask == old(sendTask)
    {
      incomingWebsocket := socket;
      this.isRawAudio := isRawAudio;
    }

    /** `_send_json`: write a message to Voice Live if connected; `ok` is false when
        the write raises. */
    method SendJson(m: Upstream) returns (ok: bool)
      modifies ws
      ensures ws == null ==> ok
      ensures ws != null ==> (ok <==> old(ws.healthy) > 0)
      ensures ws != null ==> ws.sent == old(ws.sent) + (if ok then [m] else [])
      ensures ws != null ==> ws.healthy == if ok then old(ws.healthy) - 1 else 0
    {
      ok := true;
      if ws != null {
        ok := ws.Send(m);
      }
    }

    /** `connect`: open the socket at `RealtimeUrl` with `HandshakeHeaders`, write
        the session configuration and then response.create, then start the loops.
        The request id (uuid4), the token (from the identity service) and the opened
        socket are inputs. `ok` is false when a write raises, which ends `connect`
        before the tasks are created. */
    method Connect(requestId: string, token: string, socket: Socket<Upstream>)
      returns (url: string, headers: seq<Header>, ok: bool)
      modifies this, socket
      ensures url == RealtimeUrl(endpoint, model)
      ensures headers == HandshakeHeaders(requestId, clientId, token, apiKey)
      ensures ws == socket
      ensures socket.sent == old(socket.sent) + Take([SessionConfig(), ResponseCreate], old(socket.healthy))
      ensures ok <==> old(socket.healthy) >= 2
      ensures socket.healthy == if ok then old(socket.healthy) - 2 else 0
      ensures sendTask == if ok then Running else old(sendTask)
      ensures sendQueue == old(sendQueue) && incomingWebsocket == old(incomingWebsocket) && isRawAudio == old(isRawAudio)
    {
      url := RealtimeUrl(endpoint, model);
      headers := HandshakeHeaders(requestId, clientId, token, apiKey);
      ws := socket;
      ok := SendJson(SessionConfig());
      if ok {
        ok := SendJson(ResponseCreate);
        if ok {
          sendTask := Running;
        }
      }
    }

    /** `audio_to_voicelive`: queue an input_audio_buffer.append message. */
    method AudioToVoiceLive(audio: Json)
      modifies this
      ensures sendQueue == old(sendQueue) + [AppendAudio(audio)]
      ensures ws == old(ws) && sendTask == old(sendTask)
      ensures incomingWebsocket == old(incomingWebsocket) && isRawAudio == old(isRawAudio)
    {
      sendQueue := sendQueue + [AppendAudio(audio)];
    }

    /** `_sender_loop` draining what is queued: messages go to Voice Live in queue
        order and unchanged; while not connected they are taken off the queue and
        dropped; a failed write ends the task for good, with the message it was
        writing lost. */
    method SenderLoop()
      modifies this, ws
      ensures ws == old(ws) && incomingWebsocket == old(incomingWebsocket) && isRawAudio == old(isRawAudio)
      ensures old(sendTask) != Running ==> sendQueue == old(sendQueue) && sendTask == old(sendTask)
      ensures old(sendTask) != Running && ws != null ==> ws.sent == old(ws.sent) && ws.healthy == old(ws.healthy)
      ensures old(sendTask) == Running && ws == null ==> sendQueue == [] && sendTask == Running
      ensures old(sendTask) == Running && ws != null && |old(sendQueue)| <= old(ws.healthy) ==>
        && ws.sent == old(ws.sent) + old(sendQueue)
        && ws.healthy == old(ws.healthy) - |old(sendQueue)|
        && sendQueue == [] && sendTask == Running
      ensures old(sendTask) == Running && ws != null && |old(sendQueue)| > old(ws.healthy) ==>
        && ws.sent == old(ws.sent) + old(sendQueue)[..old(ws.healthy)]
        && ws.healthy == 0
        && sendQueue == old(sendQueue)[old(ws.healthy) + 1..] && sendTask == Ended
    {
      if sendTask != Running {
        return;
      }
      ghost var queue := sendQueue;
      ghost var taken := 0;
      while sendQueue != [] && sendTask == Running
        invariant ws == old(ws) && incomingWebsocket == old(incomingWebsocket) && isRawAudio == old(isRawAudio)
        invariant sendTask == Running || sendTask == Ended
        invariant 0 <= taken <= |queue| && sendQueue == queue[taken..]
        invariant sendTask == Running && ws != null ==>
          taken <= old(ws.healthy) && ws.sent == old(ws.sent) + queue[..taken] && ws.healthy == old(ws.healthy) - taken
        invariant sendTask == Ended ==>
          ws != null && taken == old(ws.healthy) + 1 && ws.sent == old(ws.sent) + queue[..taken - 1] && ws.healthy == 0
        decreases |sendQueue|
      {
        var msg := sendQueue[0];
        sendQueue := sendQueue[1..];
        if ws != null {
          var ok := ws.Send(msg);
          if !ok {
            sendTask := Ended;
          }
          assert queue[..taken + 1] == queue[..taken] + [msg];
        }
        taken := taken + 1;
      }
    }

    /** `send_message`: write to the caller; a failure (or no caller socket) is
        swallowed. */
    method SendMessage(d: Data)
      modifies incomingWebsocket
      ensures incomingWebsocket != null ==>
        && incomingWebsocket.sent == old(incomingWebsocket.sent) + Take([d], old(incomingWebsocket.healthy))
        && incomingWebsocket.healthy == if old(incomingWebsocket.healthy) > 0 then old(incomingWebsocket.healthy) - 1 else 0
    {
      if incomingWebsocket != null {
        var _ := incomingWebsocket.Send(d);
      }
    }

    /** `stop_audio`: tell the caller to stop playing. */
    method StopAudio()
      modifies incomingWebsocket
      ensures incomingWebsocket != null ==>
        incomingWebsocket.sent == old(incomingWebsocket.sent)
          + Take([Text("{\"Kind\": \"StopAudio\", \"AudioData\": null, \"StopAudio\": {}}")], old(incomingWebsocket.healthy))
      ensures incomingWebsocket != null ==>
        incomingWebsocket.healthy == if old(incomingWebsocket.healthy) > 0 then old(incomingWebsocket.healthy) - 1 else 0
    {
      StopAudioText();
      SendMessage(Text(Dumps(StopAudioEnvelope())));
    }

    /** `voicelive_to_acs`: an audio delta to the caller in an AudioData envelope. */
    method VoiceLiveToAcs(delta: Json)
      modifies incomingWebsocket
      ensures incomingWebsocket != null ==>
        incomingWebsocket.sent == old(incomingWebsocket.sent)
          + Take([Text("{\"Kind\": \"AudioData\", \"AudioData\": {\"Data\": " + Dumps(delta) + "}, \"StopAudio\": null}")],
                 old(incomingWebsocket.healthy))
      ensures incomingWebsocket != null ==>
        incomingWebsocket.healthy == if old(incomingWebsocket.healthy) > 0 then old(incomingWebsocket.healthy) - 1 else 0
    {
      AudioDataText(delta);
      SendMessage(Text(Dumps(AudioDataEnvelope(delta))));
    }

    /** `acs_to_voicelive`: queue the audio of a caller frame that carries speech;
        anything else (silence, other kinds, malformed JSON) queues nothing and
        raises nothing. */
    method AcsToVoiceLive(frame: string, loads: string -> Outcome<Json>)
      modifies this
      ensures var audio := CallerAudio(frame, loads);
              sendQueue == old(sendQueue) + (if audio.Some? then [AppendAudio(audio.value)] else [])
      ensures ws == old(ws) && sendTask == old(sendTask)
      ensures incomingWebsocket == old(incomingWebsocket) && isRawAudio == old(isRawAudio)
    {
      var audio := CallerAudio(frame, loads);
      if audio.Some? {
        AudioToVoiceLive(audio.value);
      }
    }

    /** `web_to_voicelive`: queue the base 64 text of a binary frame. A text frame
        makes `b64encode` raise (`ok` false), which ends the web client's loop. */
    method WebToVoiceLive(frame: Data) returns (ok: bool)
      modifies this
      ensures ok <==> frame.Binary?
      ensures ok ==> sendQueue == old(sendQueue) + [AppendAudio(Str(Encode(frame.bytes)))]
      ensures !ok ==> sendQueue == old(sendQueue)
      ensures ws == old(ws) && sendTask == old(sendTask)
      ensures incomingWebsocket == old(incomingWebsocket) && isRawAudio == old(isRawAudio)
    {
      if frame.Binary? {
        AudioToVoiceLive(Str(Encode(frame.bytes)));
        ok := true;
      } else {
        ok := false;
      }
    }

    /** The writes of one tool reply, in order, stopping at the first that raises.
        The `except` branch then writes an error report and response.create; the
        socket is closed by then, so the first of those raises too and the exception
        leaves the loop: nothing more is written. */
    method SendAll(msgs: seq<Upstream>) returns (ok: bool)
      requires ws != null
      modifies ws
      ensures ok <==> |msgs| <= old(ws.healthy)
      ensures ws.sent == old(ws.sent) + Take(msgs, old(ws.healthy))
      ensures ws.healthy == if ok then old(ws.healthy) - |msgs| else 0
    {
      ok := true;
      var j := 0;
      while j < |msgs| && ok
        invariant 0 <= j <= |msgs|
        invariant ok ==> j <= old(ws.healthy) && ws.sent == old(ws.sent) + msgs[..j] && ws.healthy == old(ws.healthy) - j
        invariant !ok ==> j == old(ws.healthy) + 1 && ws.sent == old(ws.sent) + msgs[..j - 1] && ws.healthy == 0
      {
        ok := SendJson(msgs[j]);
        if ok {
          assert msgs[..j + 1] == msgs[..j] + [msgs[j]];
        }
        j := j + 1;
      }
      if ok {
        assert msgs[..j] == msgs;
      }
    }

    /** One turn of `_receiver_loop` once the event is decoded and dispatched:
        `failed` when an exception leaves the `match`. */
    method Handle(r: Reaction) returns (failed: bool)
      requires ws != null
      modifies ws, incomingWebsocket
      ensures failed <==> r.Fail? || |Upward(r)| > old(ws.healthy)
      ensures ws.sent == old(ws.sent) + Take(Upward(r), old(ws.healthy))
      ensures ws.healthy == if |Upward(r)| <= old(ws.healthy) then old(ws.healthy) - |Upward(r)| else 0
      ensures incomingWebsocket != null ==>
        && incomingWebsocket.sent == old(incomingWebsocket.sent) + Take(Downward(r), old(incomingWebsocket.healthy))
        && incomingWebsocket.healthy
           == if |Downward(r)| <= old(incomingWebsocket.healthy) then old(incomingWebsocket.healthy) - |Downward(r)| else 0
    {
      failed := false;
      match r {
        case Log =>
        case ToCaller(d) =>
          SendMessage(d);
        case ToVoiceLive(msgs) =>
          var ok := SendAll(msgs);
          failed := !ok;
        case Fail =>
          failed := true;
      }
    }

    /** How far a run of the receiver loop has got after `n` of the reactions `rs`:
        whether it has failed, and what each socket has received beyond `up` and
        `down`, given the writes each accepted at the start. */
    ghost predicate Progress(rs: seq<Reaction>, n: nat, failed: bool,
                             up: seq<Upstream>, upBudget: nat, down: seq<Data>, downBudget: nat)
      requires ws != null && n <= |rs|
      reads this, ws, incomingWebsocket
    {
      && VoiceLiveAfter(rs, n, failed, upBudget, up, ws.sent, ws.healthy)
      && (incomingWebsocket != null ==>
            CallerAfter(rs, n, downBudget, down, incomingWebsocket.sent, incomingWebsocket.healthy))
    }

    /** One turn of the receiver loop: handle the next reaction. */
    method Step(ghost rs: seq<Reaction>, n: nat, r: Reaction,
                ghost up: seq<Upstream>, ghost upBudget: nat, ghost down: seq<Data>, ghost downBudget: nat)
      returns (failed: bool)
      requires ws != null && n < |rs| && r == rs[n]
      requires Progress(rs, n, false, up, upBudget, down, downBudget)
      modifies ws, incomingWebsocket
      ensures Progress(rs, n + 1, failed, up, upBudget, down, downBudget)
    {
      ghost var sent, healthy := ws.sent, ws.healthy;
      ghost var inSent, inHealthy := if incomingWebsocket != null then incomingWebsocket.sent else [],
                                     if incomingWebsocket != null then incomingWebsocket.healthy else 0;
      failed := Handle(r);
      VoiceLiveStep(rs, n, upBudget, up, sent, healthy, failed, ws.sent, ws.healthy);
      if incomingWebsocket != null {
        CallerStep(rs, n, downBudget, down, inSent, inHealthy, incomingWebsocket.sent, incomingWebsocket.healthy);
      }
    }

    /** `_receiver_loop` over the frames Voice Live delivers. `n` frames are handled:
        all of them, or up to and including the first whose handling raises (a
        decoding failure, a failed write to Voice Live), which ends the loop. Each
        side receives, in order, what the handled frames send it, cut short where its
        socket closes. Failed writes to the caller do not end the loop. Without a
        Voice Live socket the loop raises at once. */
    method ReceiverLoop(frames: seq<string>, loads: string -> Outcome<Json>, tools: Collaborators)
      returns (n: nat, failed: bool)
      modifies ws, incomingWebsocket
      ensures var rs := Reactions(frames, isRawAudio, loads, tools);
        && n <= |frames|
        && (ws == null ==> n == 0 && failed)
        && (ws != null ==>
             && (failed <==> !Completes(rs[..n], old(ws.healthy)))
             && (!failed ==> n == |frames|)
             && (n > 0 ==> Completes(rs[..n - 1], old(ws.healthy)))
             && ws.sent == old(ws.sent) + Take(VoiceLiveOutput(rs[..n]), old(ws.healthy))
             && ws.healthy == (if |VoiceLiveOutput(rs[..n])| <= old(ws.healthy)
                               then old(ws.healthy) - |VoiceLiveOutput(rs[..n])| else 0))
        && (incomingWebsocket != null ==>
             && incomingWebsocket.sent == old(incomingWebsocket.sent) + Take(CallerOutput(rs[..n]), old(incomingWebsocket.healthy))
             && incomingWebsocket.healthy == if |CallerOutput(rs[..n])| <= old(incomingWebsocket.healthy)
                                             then old(incomingWebsocket.healthy) - |CallerOutput(rs[..n])| else 0)
    {
      if ws == null {
        return 0, true;
      }
      ghost var rs := Reactions(frames, isRawAudio, loads, tools);
      ghost var up, upBudget := ws.sent, ws.healthy;
      ghost var down, downBudget := if incomingWebsocket != null then incomingWebsocket.sent else [],
                                    if incomingWebsocket != null then incomingWebsocket.healthy else 0;
      n := 0;
      failed := false;
      assert rs[..0] == [];
      while n < |frames| && !failed
        invariant n <= |frames|
        invariant Progress(rs, n, failed, up, upBudget, down, downBudget)
      {
        var r := React(frames[n], isRawAudio, loads, tools);
        failed := Step(rs, n, r, up, upBudget, down, downBudget);
        n := n + 1;
      }
    }
  }
}
