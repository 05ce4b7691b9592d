/**
 * The `/ws/voice` WebSocket endpoint (backend/api/routers/voice_ws.py): the
 * `on_response` dispatch that turns the agent's callback calls into JSON
 * frames for the browser, and the handler that builds an agent, starts it,
 * forwards every binary message upstream until the client disconnects or
 * sends a non-binary message, and stops the agent on every way out.
 *
 * What arrives while the handler runs is one sequence: client messages and
 * upstream agent events, interleaved in the order they happen. Its end is the
 * client's disconnect.
 */
module VoiceGateway {
  import opened Wrappers
  import opened PyText
  import opened VoiceSession

  /** One element of a JSON array built by `list(content)`: a byte value from
      `bytes`, or a one-character string from `str`. */
  datatype JsonItem = Num(n: int) | Chr(c: char)

  /** The JSON frames `on_response` sends to the browser. */
  datatype OutFrame =
    | AgentResponse(text: string)      // {"type": "agent_response", "text": …}
    | PartialTranscript(text: string)  // {"type": "partial_transcript", "text": …}
    | AgentAudio(audioData: seq<JsonItem>)  // {"type": "agent_audio", "audio_data": list(…)}

  /** `list(content)`. */
  function ListOf(p: Payload): seq<JsonItem> {
    match p
    case Bytes(d) => seq(|d|, i requires 0 <= i < |d| => Num(d[i] as int))
    case Text(t) => seq(|t|, i requires 0 <= i < |t| => Chr(t[i]))
  }

  /** `on_response(role, content)`: the frame sent, if any. A text frame whose
      content is bytes cannot be JSON-encoded; the coroutine then fails on the
      event loop and nothing is sent. */
  function OnResponse(m: Emission): (r: Option<OutFrame>)
    ensures r.Some? <==> m.role == "audio" || ((m.role == "assistant" || m.role == "user") && m.content.Text?)
  {
    if m.role == "assistant" then (if m.content.Text? then Some(AgentResponse(m.content.text)) else None)
    else if m.role == "user" then (if m.content.Text? then Some(PartialTranscript(m.content.text)) else None)
    else if m.role == "audio" then Some(AgentAudio(ListOf(m.content)))
    else None
  }

  /** The three roles that reach the browser, each with its own frame kind;
      every other role, "status", "error" and "audio_complete" among them,
      is dropped. */
  lemma OnResponseDispatch(role: string, text: string)
    ensures OnResponse(Emission(role, Text(text))).Some?
        <==> role == "assistant" || role == "user" || role == "audio"
    ensures role == "assistant" ==> OnResponse(Emission(role, Text(text))) == Some(AgentResponse(text))
    ensures role == "user" ==> OnResponse(Emission(role, Text(text))) == Some(PartialTranscript(text))
  {
  }

  /** An audio chunk becomes one `agent_audio` frame holding the same byte
      values, in the same order. */
  lemma AudioFrameKeepsBytes(d: seq<byte>)
    ensures OnResponse(Emission("audio", Bytes(d))).Some?
    ensures var f := OnResponse(Emission("audio", Bytes(d))).value;
      f.AgentAudio? && |f.audioData| == |d|
      && forall i :: 0 <= i < |d| ==> f.audioData[i] == Num(d[i] as int)
  {
  }

  /** Of what the agent posts, exactly the "user", "assistant" and "audio"
      pairs reach the browser. */
  lemma AgentEmissionsReachingClient(e: AgentEvent)
    ensures forall m | m in EventEmissions(e) :: OnResponse(m).Some? <==> m.role in ["user", "assistant", "audio"]
  {
    EmissionShape(e);
  }

  // ---------------------------------------------------------------------
  // The handler

  /** What happens while the handler runs. `sendRaises` says whether the
      upstream send of that chunk raises. */
  datatype Inbound =
    | Binary(data: seq<byte>, sendRaises: bool)
    | NonBinary
    | Upstream(e: AgentEvent)

  /** Code 1003 (unsupported data), section 7.4.1 of RFC 6455. */
  const UnsupportedData: int := 1003

  /** How the handler ends. `AgentInitFailed`: the agent constructor raised,
      the exception escapes and no `finally` runs. */
  datatype WsOutcome = AgentInitFailed | Closed(code: int) | Disconnected

  /** The index of the first non-binary message, or the length if there is none. */
  function FirstNonBinary(ins: seq<Inbound>): (k: nat)
    ensures k <= |ins|
    ensures forall j :: 0 <= j < k ==> !ins[j].NonBinary?
    ensures k < |ins| ==> ins[k].NonBinary?
  {
    if ins == [] || ins[0].NonBinary? then 0 else 1 + FirstNonBinary(ins[1..])
  }

  /** What the handler consumes: everything before the first non-binary message. */
  function Consumed(ins: seq<Inbound>): seq<Inbound> {
    ins[..FirstNonBinary(ins)]
  }

  /** The audio frames delivered upstream for the binary messages of `ins`. */
  function Forwarded(ins: seq<Inbound>): seq<Frame> {
    if ins == [] then []
    else
      var last := ins[|ins| - 1];
      Forwarded(ins[..|ins| - 1]) + (if last.Binary? && !last.sendRaises then [Audio(last.data)] else [])
  }

  /** The upstream events of `ins`, in order. */
  function EventsIn(ins: seq<Inbound>): seq<AgentEvent> {
    if ins == [] then []
    else
      var last := ins[|ins| - 1];
      EventsIn(ins[..|ins| - 1]) + (if last.Upstream? then [last.e] else [])
  }

  /** Everything a run of events posts to a callback with a loop. */
  function EmissionsOf(es: seq<AgentEvent>): seq<Emission> {
    if es == [] then [] else EmissionsOf(es[..|es| - 1]) + EventEmissions(es[|es| - 1])
  }

  /** The frames `on_response` sends for a series of callback calls. */
  function FramesOf(ms: seq<Emission>): seq<OutFrame> {
    if ms == [] then []
    else
      var f := OnResponse(ms[|ms| - 1]);
      FramesOf(ms[..|ms| - 1]) + (if f.Some? then [f.value] else [])
  }

  /** `FramesOf` distributes over appending at most one call. */
  lemma FramesOfSnoc(ms: seq<Emission>, more: seq<Emission>)
    requires |more| <= 1
    ensures FramesOf(ms + more) == FramesOf(ms) + FramesOf(more)
  {
    if |more| == 1 {
      assert (ms + more)[..|ms + more| - 1] == ms;
      assert more[..0] == [];
    } else {
      assert ms + more == ms;
    }
  }

  /** Extending the consumed prefix by one message extends each derived run by
      that message's contribution. */
  lemma InboundStep(ins: seq<Inbound>, i: nat)
    requires i < |ins|
    ensures var m := ins[i];
      Forwarded(ins[..i + 1]) == Forwarded(ins[..i]) + (if m.Binary? && !m.sendRaises then [Audio(m.data)] else [])
      && EventsIn(ins[..i + 1]) == EventsIn(ins[..i]) + (if m.Upstream? then [m.e] else [])
  {
    assert ins[..i + 1][..i] == ins[..i];
  }

  /** One more event: its emissions follow, and the buffer takes one more step. */
  lemma EventStep(es: seq<AgentEvent>, e: AgentEvent)
    ensures EmissionsOf(es + [e]) == EmissionsOf(es) + EventEmissions(e)
    ensures Replay([], es + [e]) == BufferAfter(e, Replay([], es))
  {
    assert (es + [e])[..|es|] == es;
  }

  /** One binary message or upstream event while the handler loops. */
  method Deliver(agent: VoiceAgent, m: Inbound, frames: seq<OutFrame>) returns (out: seq<OutFrame>)
    requires agent.Valid() && agent.hasCallback && agent.hasLoop && !m.NonBinary?
    requires frames == FramesOf(agent.emitted)
    modifies agent
    ensures agent.Valid() && agent.hasCallback && agent.hasLoop
    ensures agent.running == old(agent.running) && agent.connected == old(agent.connected)
    ensures agent.finishCount == old(agent.finishCount)
    ensures agent.sent == old(agent.sent)
      + (if m.Binary? && !m.sendRaises && agent.running && agent.connected then [Audio(m.data)] else [])
    ensures agent.emitted == old(agent.emitted) + (if m.Upstream? then EventEmissions(m.e) else [])
    ensures agent.buffer == if m.Upstream? then BufferAfter(m.e, old(agent.buffer)) else old(agent.buffer)
    ensures out == FramesOf(agent.emitted)
  {
    out := frames;
    match m {
      case Binary(data, raises) =>
        agent.SendAudio(data, raises);
      case Upstream(e) =>
        var before := agent.emitted;
        agent.HandleEvent(e);
        EmissionShape(e);
        FramesOfSnoc(before, EventEmissions(e));
        out := frames + FramesOf(EventEmissions(e));
    }
  }

  /** The `while True` receive loop: messages are consumed in order until the
      first non-binary one, which closes the socket with 1003, or the end of
      input (the disconnect). */
  method Pump(agent: VoiceAgent, ins: seq<Inbound>) returns (outcome: WsOutcome, frames: seq<OutFrame>)
    requires agent.Valid() && agent.hasCallback && agent.hasLoop
    requires agent.sent == [] && agent.emitted == [] && agent.buffer == []
    modifies agent
    ensures agent.Valid() && agent.hasCallback && agent.hasLoop
    ensures agent.running == old(agent.running) && agent.connected == old(agent.connected)
    ensures agent.finishCount == old(agent.finishCount)
    ensures outcome == (if FirstNonBinary(ins) < |ins| then Closed(UnsupportedData) else Disconnected)
    ensures agent.sent == (if agent.running then Forwarded(Consumed(ins)) else [])
    ensures agent.emitted == EmissionsOf(EventsIn(Consumed(ins)))
    ensures agent.buffer == Replay([], EventsIn(Consumed(ins)))
    ensures frames == FramesOf(agent.emitted)
  {
    frames := [];
    outcome := Disconnected;
    var i := 0;
    var stop := FirstNonBinary(ins);
    while i < |ins| && outcome == Disconnected
      invariant 0 <= i <= stop
      invariant outcome == Disconnected || (outcome == Closed(UnsupportedData) && i == stop < |ins|)
      invariant agent.Valid() && agent.hasCallback && agent.hasLoop
      invariant agent.running == old(agent.running) && agent.connected == old(agent.connected)
      invariant agent.finishCount == old(agent.finishCount)
      invariant agent.sent == (if agent.running then Forwarded(ins[..i]) else [])
      invariant agent.emitted == EmissionsOf(EventsIn(ins[..i]))
      invariant agent.buffer == Replay([], EventsIn(ins[..i]))
      invariant frames == FramesOf(agent.emitted)
      decreases |ins| - i, if outcome == Disconnected then 1 else 0
    {
      InboundStep(ins, i);
      if ins[i].NonBinary? {
        outcome := Closed(UnsupportedData);
      } else {
        if ins[i].Upstream? {
          EventStep(EventsIn(ins[..i]), ins[i].e);
        } else {
          assert EventsIn(ins[..i + 1]) == EventsIn(ins[..i]);
        }
        frames := Deliver(agent, ins[i], frames);
        i := i + 1;
      }
    }
    assert ins[..i] == Consumed(ins);
  }

  /** `voice_ws(websocket)`, from accept to return. When the API key is
      missing the constructor's error escapes before the `try`, and nothing is
      started or stopped. Otherwise the agent is started (its answer is not
      looked at), every binary message is handed to `send_audio` unchanged and
      in order until the first non-binary message, which closes the socket
      with 1003, or the end of input, which is the client's disconnect; the
      browser gets exactly the frames `on_response` makes of what the agent
      posted; and the agent is stopped on either way out. */
  method VoiceWs(apiKey: Option<string>, upstream: UpstreamStart, ins: seq<Inbound>)
    returns (outcome: WsOutcome, frames: seq<OutFrame>, agent: VoiceAgent?)
    ensures outcome == AgentInitFailed <==> apiKey.None? || apiKey.value == ""
    ensures agent == null <==> outcome == AgentInitFailed
    ensures agent == null ==> frames == []
    ensures agent != null ==> fresh(agent) && agent.Valid() && !agent.running
    ensures agent != null ==>
      outcome == (if FirstNonBinary(ins) < |ins| then Closed(UnsupportedData) else Disconnected)
    ensures agent != null ==>
      agent.sent == (if upstream.Accepted? then Forwarded(Consumed(ins)) else [])
    ensures agent != null ==> agent.emitted == EmissionsOf(EventsIn(Consumed(ins)))
    ensures agent != null ==> agent.buffer == Replay([], EventsIn(Consumed(ins)))
    ensures agent != null ==> frames == FramesOf(agent.emitted)
    ensures agent != null ==> agent.finishCount == (if upstream.Accepted? then 1 else 0)
  {
    var made := NewVoiceAgent(apiKey, true);
    if made.Err? {
      return AgentInitFailed, [], null;
    }
    agent := made.value;
    agent.CaptureLoop();
    var _ := agent.Start(upstream);
    outcome, frames := Pump(agent, ins);
    agent.Stop();
  }
}
