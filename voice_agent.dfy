/**
 * The voice session of `VoiceAgent` (backend/ai/Voice/voice_agent_class.py):
 * a running flag, the upstream speech-agent connection, the buffer of agent
 * audio, and the handlers that the upstream connection calls for each event.
 *
 * The speech service is abstract. What it answers to `start` is a parameter,
 * every event it delivers is one sequential call of `HandleEvent`, frames
 * sent to it are appended to `sent`, and every `(role, content)` pair posted
 * to the response callback on the captured event loop is appended to
 * `emitted`, in call order.
 */
module VoiceSession {
  import opened Wrappers
  import opened PyText

  /** A frame sent upstream: a chunk of microphone audio or a keep-alive message. */
  datatype Frame = Audio(data: seq<byte>) | KeepAlive

  /** The `content` half of a callback call: text, or raw audio bytes. */
  datatype Payload = Text(text: string) | Bytes(data: seq<byte>)

  /** One `response_callback(role, content)` call scheduled on the event loop. */
  datatype Emission = Emission(role: string, content: Payload)

  /** How the upstream connection answers `start`. `Raised` is an exception
      anywhere in the setup; `connectionCreated` says whether the connection
      object had already been assigned when it was raised. */
  datatype UpstreamStart = Accepted | Refused | Raised(connectionCreated: bool)

  /** The events the agent registers a handler for. `rendered` is `str(event)`;
      an absent `role` or `content` attribute is `None`. */
  datatype AgentEvent =
    | AudioData(chunk: seq<byte>)
    | AgentAudioDone
    | ConversationText(rendered: string, role: Option<string>, content: Option<string>)
    | Welcome
    | SettingsApplied
    | UserStartedSpeaking
    | AgentThinking
    | AgentStartedSpeaking
    | InjectUserMessage(rendered: string, content: Option<string>)
    | InjectAgentMessage(rendered: string, content: Option<string>)
    | Close
    | Error(rendered: string)
    | Unhandled
    | History

  // ---------------------------------------------------------------------
  // What one event does to the buffer and to the callback

  /** The events after which the buffer is empty. */
  predicate IsBoundary(e: AgentEvent) {
    e.AgentAudioDone? || e.UserStartedSpeaking? || e.AgentStartedSpeaking?
  }

  /** The audio an event carries (empty for every other kind of event). */
  function ChunkOf(e: AgentEvent): seq<byte> {
    if e.AudioData? then e.chunk else []
  }

  /** The buffer after one handler has run on buffer `b`. */
  function BufferAfter(e: AgentEvent, b: seq<byte>): seq<byte> {
    match e
    case AudioData(chunk) => b + chunk
    case AgentAudioDone => []
    case UserStartedSpeaking => []
    case AgentStartedSpeaking => []
    case _ => b
  }

  /** What one handler posts to the callback when a callback and a loop are both set. */
  function EventEmissions(e: AgentEvent): seq<Emission> {
    match e
    case AudioData(chunk) => [Emission("audio", Bytes(chunk))]
    case AgentAudioDone => [Emission("audio_complete", Text(""))]
    case ConversationText(rendered, role, content) =>
      if Contains(rendered, "History") then []
      else
        var r := role.GetOr("unknown");
        if r == "user" || r == "assistant" then [Emission(r, Text(content.GetOr(rendered)))] else []
    case Welcome => [Emission("status", Text("ready"))]
    case UserStartedSpeaking => [Emission("status", Text("listening"))]
    case AgentThinking => [Emission("status", Text("thinking"))]
    case AgentStartedSpeaking => [Emission("status", Text("speaking"))]
    case InjectUserMessage(rendered, content) => [Emission("user", Text(content.GetOr(rendered)))]
    case InjectAgentMessage(rendered, content) => [Emission("assistant", Text(content.GetOr(rendered)))]
    case Error(rendered) => [Emission("error", Text(rendered))]
    case _ => []
  }

  /** The roles the agent ever posts under. */
  predicate KnownRole(role: string) {
    role == "audio" || role == "audio_complete" || role == "user" || role == "assistant"
    || role == "status" || role == "error"
  }

  /** Every event posts at most one pair, under one of the six roles; audio
      comes only as bytes under "audio", and "user"/"assistant" only as text. */
  lemma EmissionShape(e: AgentEvent)
    ensures |EventEmissions(e)| <= 1
    ensures forall m | m in EventEmissions(e) :: KnownRole(m.role)
    ensures forall m | m in EventEmissions(e) :: m.content.Bytes? <==> m.role == "audio"
    ensures forall m | m in EventEmissions(e) :: m.role == "audio" ==> e == AudioData(m.content.data)
  {
  }

  /** Conversation text is forwarded exactly when its string form does not
      mention "History" and its role is "user" or "assistant"; the content
      attribute, or the string form when it is absent, is what is posted. */
  lemma ConversationTextForwarding(rendered: string, role: Option<string>, content: Option<string>)
    ensures EventEmissions(ConversationText(rendered, role, content)) != []
        <==> !Contains(rendered, "History") && role.Some? && (role.value == "user" || role.value == "assistant")
    ensures EventEmissions(ConversationText(rendered, role, content)) != [] ==>
        EventEmissions(ConversationText(rendered, role, content))
          == [Emission(role.value, Text(content.GetOr(rendered)))]
  {
  }

  /** History, settings-applied, close and unhandled events post nothing and
      leave the buffer alone. */
  lemma SilentEvents(e: AgentEvent, b: seq<byte>)
    requires e.History? || e.SettingsApplied? || e.Close? || e.Unhandled?
    ensures EventEmissions(e) == [] && BufferAfter(e, b) == b
  {
  }

  // ---------------------------------------------------------------------
  // A run of events

  /** The buffer after a run of events, starting from `b`. */
  function Replay(b: seq<byte>, es: seq<AgentEvent>): seq<byte> {
    if es == [] then b else BufferAfter(es[|es| - 1], Replay(b, es[..|es| - 1]))
  }

  /** All the audio a run of events carries, in order. */
  function AudioOf(es: seq<AgentEvent>): seq<byte> {
    if es == [] then [] else AudioOf(es[..|es| - 1]) + ChunkOf(es[|es| - 1])
  }

  /** The index just past the last boundary event of the run (0 if none). */
  function LastBoundaryEnd(es: seq<AgentEvent>): (k: nat)
    ensures k <= |es|
    ensures k > 0 ==> IsBoundary(es[k - 1])
    ensures forall i :: k <= i < |es| ==> !IsBoundary(es[i])
  {
    if es == [] then 0
    else if IsBoundary(es[|es| - 1]) then |es|
    else LastBoundaryEnd(es[..|es| - 1])
  }

  /** Some event of the run empties the buffer. */
  predicate HasBoundary(es: seq<AgentEvent>) {
    exists i :: 0 <= i < |es| && IsBoundary(es[i])
  }

  /** Appending an event that is not a boundary keeps `HasBoundary`. */
  lemma HasBoundarySnoc(init: seq<AgentEvent>, last: AgentEvent)
    requires !IsBoundary(last)
    ensures HasBoundary(init + [last]) == HasBoundary(init)
  {
    var es := init + [last];
    if HasBoundary(es) {
      var i :| 0 <= i < |es| && IsBoundary(es[i]);
      assert i < |init| && init[i] == es[i];
    }
    if HasBoundary(init) {
      var i :| 0 <= i < |init| && IsBoundary(init[i]);
      assert es[i] == init[i];
    }
  }

  /** After any run of events, the buffer holds exactly the audio received
      since the last "audio done", "user started speaking" or "agent started
      speaking" event; if there was none, that audio follows the initial buffer. */
  lemma {:induction false} BufferIsAudioSinceBoundary(b: seq<byte>, es: seq<AgentEvent>)
    ensures Replay(b, es) == (if HasBoundary(es) then [] else b) + AudioOf(es[LastBoundaryEnd(es)..])
  {
    if es != [] {
      var n := |es| - 1;
      var init, last := es[..n], es[n];
      assert es == init + [last];
      if IsBoundary(last) {
        BoundaryStep(b, init, last);
      } else {
        BufferIsAudioSinceBoundary(b, init);
        NonBoundaryStep(b, init, last);
      }
    }
  }

  /** The claim of `BufferIsAudioSinceBoundary` for a run ending in a boundary. */
  lemma BoundaryStep(b: seq<byte>, init: seq<AgentEvent>, last: AgentEvent)
    requires IsBoundary(last)
    ensures var es := init + [last];
      Replay(b, es) == (if HasBoundary(es) then [] else b) + AudioOf(es[LastBoundaryEnd(es)..])
  {
    var es := init + [last];
    assert es[..|es| - 1] == init && es[|es| - 1] == last;
    assert HasBoundary(es);
    assert es[|es|..] == [];
  }

  /** The claim of `BufferIsAudioSinceBoundary` carries over an appended event
      that is not a boundary. */
  lemma NonBoundaryStep(b: seq<byte>, init: seq<AgentEvent>, last: AgentEvent)
    requires !IsBoundary(last)
    requires Replay(b, init) == (if HasBoundary(init) then [] else b) + AudioOf(init[LastBoundaryEnd(init)..])
    ensures var es := init + [last];
      Replay(b, es) == (if HasBoundary(es) then [] else b) + AudioOf(es[LastBoundaryEnd(es)..])
  {
    var es := init + [last];
    HasBoundarySnoc(init, last);
    SnocUnfolds(b, init, last);
    var k := LastBoundaryEnd(init);
    var pre := if HasBoundary(init) then [] else b;
    calc {
      Replay(b, es);
      BufferAfter(last, Replay(b, init));
      { NonBoundaryAppends(last, Replay(b, init)); }
      (pre + AudioOf(init[k..])) + ChunkOf(last);
      pre + (AudioOf(init[k..]) + ChunkOf(last));
      { AudioOfSuffixSnoc(init, last, k); }
      pre + AudioOf(es[k..]);
    }
  }

  /** `Replay` and `LastBoundaryEnd` unfold once on a run with an event
      appended that is not a boundary. */
  lemma SnocUnfolds(b: seq<byte>, init: seq<AgentEvent>, last: AgentEvent)
    requires !IsBoundary(last)
    ensures Replay(b, init + [last]) == BufferAfter(last, Replay(b, init))
    ensures LastBoundaryEnd(init + [last]) == LastBoundaryEnd(init)
  {
    var es := init + [last];
    assert es[..|es| - 1] == init && es[|es| - 1] == last;
  }

  /** An event that is not a boundary appends its chunk to the buffer. */
  lemma NonBoundaryAppends(e: AgentEvent, b: seq<byte>)
    requires !IsBoundary(e)
    ensures BufferAfter(e, b) == b + ChunkOf(e)
  {
  }

  /** The audio of a suffix grows by the chunk of an event appended to the run. */
  lemma AudioOfSuffixSnoc(init: seq<AgentEvent>, last: AgentEvent, k: nat)
    requires k <= |init|
    ensures AudioOf((init + [last])[k..]) == AudioOf(init[k..]) + ChunkOf(last)
  {
    var tail := (init + [last])[k..];
    assert tail != [] && tail[..|tail| - 1] == init[k..] && tail[|tail| - 1] == last;
  }

  // ---------------------------------------------------------------------
  // The agent object

  class VoiceAgent {
    /** `running`. */
    var running: bool
    /** `connection is not None`: the upstream connection object exists. */
    var connected: bool
    /** `audio_buffer`. */
    var buffer: seq<byte>
    /** Every frame delivered upstream, in order. */
    var sent: seq<Frame>
    /** Every callback call scheduled on the event loop, in order. */
    var emitted: seq<Emission>
    /** `response_callback` is set. */
    var hasCallback: bool
    /** `_main_loop` is set. */
    var hasLoop: bool
    /** How many times `connection.finish()` was called. */
    var finishCount: nat
    /** How many keep-alive worker threads were launched. */
    var keepAliveWorkers: nat

    /** A running agent has a connection and a keep-alive worker. */
    predicate Valid()
      reads this
    {
      running ==> connected && keepAliveWorkers >= 1
    }

    /** `VoiceAgent(response_callback)` once the API key has been found. */
    constructor (hasCallback: bool)
      ensures Valid()
      ensures !running && !connected && buffer == [] && sent == [] && emitted == []
      ensures this.hasCallback == hasCallback && !hasLoop
      ensures finishCount == 0 && keepAliveWorkers == 0
    {
      running := false;
      connected := false;
      buffer := [];
      sent := [];
      emitted := [];
      this.hasCallback := hasCallback;
      hasLoop := false;
      finishCount := 0;
      keepAliveWorkers := 0;
    }

    /** `agent._main_loop = loop`, done by the gateway after construction. */
    method CaptureLoop()
      requires Valid()
      modifies this`hasLoop
      ensures Valid() && hasLoop
    {
      hasLoop := true;
    }

    /** `asyncio.run_coroutine_threadsafe(response_callback(role, content), _main_loop)`,
        guarded as every handler guards it: only with both a callback and a loop. */
    method Post(role: string, content: Payload)
      requires Valid()
      modifies this`emitted
      ensures Valid()
      ensures emitted == old(emitted) + (if hasCallback && hasLoop then [Emission(role, content)] else [])
    {
      if hasCallback && hasLoop {
        emitted := emitted + [Emission(role, content)];
      }
    }

    /** The handler registered for the event's kind, run to completion. */
    method HandleEvent(e: AgentEvent)
      requires Valid()
      modifies this`buffer, this`emitted
      ensures Valid()
      ensures buffer == BufferAfter(e, old(buffer))
      ensures emitted == old(emitted) + (if hasCallback && hasLoop then EventEmissions(e) else [])
    {
      match e {
        case AudioData(chunk) =>
          buffer := buffer + chunk;
          Post("audio", Bytes(chunk));
        case AgentAudioDone =>
          Post("audio_complete", Text(""));
          buffer := [];
        case ConversationText(rendered, role, content) =>
          if Contains(rendered, "History") {
            return;
          }
          var r := role.GetOr("unknown");
          var c := content.GetOr(rendered);
          if r == "user" || r == "assistant" {
            Post(r, Text(c));
          }
        case Welcome =>
          Post("status", Text("ready"));
        case UserStartedSpeaking =>
          buffer := [];
          Post("status", Text("listening"));
        case InjectUserMessage(rendered, content) =>
          Post("user", Text(content.GetOr(rendered)));
        case InjectAgentMessage(rendered, content) =>
          Post("assistant", Text(content.GetOr(rendered)));
        case AgentStartedSpeaking =>
          buffer := [];
          Post("status", Text("speaking"));
        case AgentThinking =>
          Post("status", Text("thinking"));
        case Error(rendered) =>
          Post("error", Text(rendered));
        case History =>
        case SettingsApplied =>
        case Close =>
        case Unhandled =>
      }
    }

    /** `start()`. Already running: false and nothing changes. Otherwise the
        connection is set up, and only an accepted start sets `running` and
        launches one keep-alive worker; a refused or raising start returns
        false and leaves the agent stopped. */
    method Start(upstream: UpstreamStart) returns (ok: bool)
      requires Valid()
      modifies this`running, this`connected, this`keepAliveWorkers
      ensures Valid()
      ensures old(running) ==> !ok && running && connected == old(connected)
                               && keepAliveWorkers == old(keepAliveWorkers)
      ensures !old(running) ==> (ok <==> upstream.Accepted?)
      ensures !old(running) ==> running == ok
      ensures !old(running) ==> connected == (old(connected) || !upstream.Raised? || upstream.connectionCreated)
      ensures !old(running) ==> keepAliveWorkers == old(keepAliveWorkers) + (if ok then 1 else 0)
    {
      if running {
        return false;
      }
      match upstream {
        case Raised(created) =>
          if created {
            connected := true;
          }
          running := false;
          return false;
        case Refused =>
          connected := true;
          return false;
        case Accepted =>
          connected := true;
          running := true;
          keepAliveWorkers := keepAliveWorkers + 1;
          return true;
      }
    }

    /** `stop()`. A stopped agent is left alone. A running one is marked
        stopped first, then its connection is finished once; errors from
        `finish` are swallowed and the connection object is kept. */
    method Stop()
      requires Valid()
      modifies this`running, this`finishCount
      ensures Valid() && !running
      ensures finishCount == old(finishCount) + (if old(running) && connected then 1 else 0)
    {
      if !running {
        return;
      }
      running := false;
      if connected {
        finishCount := finishCount + 1;
      }
    }

    /** `send_audio(data)`: the exact bytes go upstream only while connected
        and running, and only if the send does not raise; a raising send is
        swallowed. */
    method SendAudio(data: seq<byte>, sendRaises: bool)
      requires Valid()
      modifies this`sent
      ensures Valid()
      ensures sent == old(sent) + (if connected && running && !sendRaises then [Audio(data)] else [])
    {
      if connected && running {
        if !sendRaises {
          sent := sent + [Audio(data)];
        }
      }
    }

    /** One wake of `_keep_alive_worker` after its sleep: sends one keep-alive
        if the connection exists and the agent is still running. A raising send
        ends the worker without touching `running`; otherwise the loop goes on
        while `running` holds. */
    method KeepAliveWake(sendRaises: bool) returns (continues: bool)
      requires Valid()
      modifies this`sent
      ensures Valid() && running == old(running)
      ensures sent == old(sent) + (if connected && running && !sendRaises then [KeepAlive] else [])
      ensures continues <==> running && !(connected && sendRaises)
    {
      if connected && running {
        if sendRaises {
          return false;
        }
        sent := sent + [KeepAlive];
      }
      continues := running;
    }

    /** The worker thread `_keep_alive_worker` run over a series of wakes,
        where `failures[i]` says whether the i-th send raises: it returns how
        many wakes it handled and sends one keep-alive for each wake before the
        first failing send. */
    method KeepAliveWorker(failures: seq<bool>) returns (wakes: nat)
      requires Valid()
      modifies this`sent
      ensures Valid() && running == old(running)
      ensures wakes <= |failures|
      ensures sent == old(sent) + KeepAlives(if running && connected then LeadingSuccesses(failures) else 0)
      ensures running ==> wakes == if connected then Min(LeadingSuccesses(failures) + 1, |failures|) else |failures|
      ensures !running ==> wakes == 0
    {
      wakes := 0;
      var go := running;
      while go && wakes < |failures|
        invariant Valid() && running == old(running)
        invariant wakes <= |failures|
        invariant go ==> running && (connected ==> wakes <= LeadingSuccesses(failures))
        invariant !running ==> wakes == 0 && !go
        invariant running && !go ==> connected && wakes == LeadingSuccesses(failures) + 1
        invariant running && connected && go ==> sent == old(sent) + KeepAlives(wakes)
        invariant running && connected && !go ==> sent == old(sent) + KeepAlives(wakes - 1)
        invariant !(running && connected) ==> sent == old(sent)
        decreases |failures| - wakes
      {
        LeadingSuccessesStep(failures, wakes);
        go := KeepAliveWake(failures[wakes]);
        wakes := wakes + 1;
      }
      if running && connected {
        if go {
          LeadingSuccessesStep(failures, wakes);
        }
      }
    }
  }

  /** `VoiceAgent(response_callback)`: raises ValueError when the API key is
      unset or empty, and otherwise builds a stopped agent with no connection. */
  method NewVoiceAgent(apiKey: Option<string>, hasCallback: bool) returns (r: Result<VoiceAgent, string>)
    ensures r.Err? <==> apiKey.None? || apiKey.value == ""
    ensures r.Err? ==> r.error == "DEEPGRAM_API_KEY environment variable is not set"
    ensures r.Ok? ==> fresh(r.value) && r.value.Valid()
    ensures r.Ok? ==> !r.value.running && !r.value.connected && r.value.buffer == []
    ensures r.Ok? ==> r.value.sent == [] && r.value.emitted == []
    ensures r.Ok? ==> r.value.hasCallback == hasCallback && !r.value.hasLoop
    ensures r.Ok? ==> r.value.finishCount == 0 && r.value.keepAliveWorkers == 0
  {
    if apiKey.None? || apiKey.value == "" {
      return Err("DEEPGRAM_API_KEY environment variable is not set");
    }
    var agent := new VoiceAgent(hasCallback);
    return Ok(agent);
  }

  /** `n` keep-alive frames. */
  function KeepAlives(n: nat): (r: seq<Frame>)
    ensures |r| == n && forall i :: 0 <= i < n ==> r[i] == KeepAlive
  {
    if n == 0 then [] else KeepAlives(n - 1) + [KeepAlive]
  }

  /** The number of leading `false` entries. */
  function LeadingSuccesses(f: seq<bool>): (n: nat)
    ensures n <= |f|
    ensures forall i :: 0 <= i < n ==> !f[i]
    ensures n < |f| ==> f[n]
  {
    if f == [] || f[0] then 0 else 1 + LeadingSuccesses(f[1..])
  }

  function Min(a: int, b: int): int {
    if a < b then a else b
  }

  /** Below the first failure, the next entry decides whether the count grows. */
  lemma LeadingSuccessesStep(f: seq<bool>, i: nat)
    requires i <= LeadingSuccesses(f)
    ensures i < |f| && !f[i] ==> i + 1 <= LeadingSuccesses(f)
    ensures i < |f| && f[i] ==> i == LeadingSuccesses(f)
    ensures i == |f| ==> i == LeadingSuccesses(f)
  {
  }
}
