/** The agent conversation as both frontends run it: the handshake (initialize, replay,
    ready), the turn, the pending approvals and the end of the connection. The terminal and
    the graphical frontend each write this code out; it is modelled once. */
module Conversations {
  import opened Wrappers
  import opened Transcripts
  import opened TextUtil

  datatype Phase =
    | Initializing
    | Replaying
    | Ready
    | Running
    | Detached(reason: string)
    | Failed(reason: string)

  /** What a frontend reads out of a JSON-RPC result. */
  datatype Reply = Reply(
    protocolError: Option<string>,
    session: Option<string>,
    serverName: Option<string>,
    model: Option<string>,
    turnRunning: Option<bool>,
    status: Option<string>)

  datatype RpcError = RpcError(message: Option<string>)

  datatype Inbound =
    | Happened(event: Event)
    | Requested(rpcId: string, message: Event)
    | Answered(id: nat, result: Option<Reply>, error: Option<RpcError>)
    | AgentExited(reason: string)
    | ProtocolError(text: string)

  datatype Outgoing =
    | Send(verb: string, id: nat, input: string)
    | Resolve(rpcId: string, requestId: string, answer: Answer)
    | Refuse(rpcId: string)

  /** An approval awaiting a decision, and where its block stands. */
  datatype Pending = Pending(rpcId: string, requestId: string, block: nat)

  /** `connected` says that the inbound channel still has its reader behind it; the reader
      sends `AgentExited` last and then hangs up. */
  datatype Core = Core(
    phase: Phase,
    initId: Option<nat>,
    replayId: Option<nat>,
    promptId: Option<nat>,
    approvals: seq<Pending>,
    transcript: State,
    sessionId: Option<string>,
    serverName: string,
    wayBack: bool,
    nextId: nat,
    sent: seq<Outgoing>,
    connected: bool)

  function Launched(sessionId: Option<string>, wayBack: bool): Core {
    Core(Initializing, Some(1), None, None, [], EmptyState, sessionId, "", wayBack, 2, [Send("initialize", 1, "")], true)
  }

  function Told(c: Core, text: string): Core {
    c.(transcript := c.transcript.(blocks := c.transcript.blocks + [InfoBlock(text)]))
  }

  function SendCall(c: Core, verb: string, input: string): Core {
    c.(nextId := c.nextId + 1, sent := c.sent + [Send(verb, c.nextId, input)])
  }

  function Without(ps: seq<Pending>, requestId: string): (r: seq<Pending>)
    ensures forall p :: p in r <==> p in ps && p.requestId != requestId
  {
    if ps == [] then []
    else if ps[0].requestId == requestId then Without(ps[1..], requestId)
    else [ps[0]] + Without(ps[1..], requestId)
  }

  /** An approval answered elsewhere is taken down, and a turn started elsewhere ends. */
  function EventNoted(c: Core, e: Event): Core {
    var c := if e.ApprovalResponse? then c.(approvals := Without(c.approvals, e.requestId)) else c;
    if e.TurnEnd? && c.phase == Running && c.promptId.None? then c.(phase := Ready) else c
  }

  function EventTaken(c: Core, e: Event): Core {
    EventNoted(c, e).(transcript := Apply(c.transcript, e))
  }

  function TypeName(e: Event): string {
    match e
    case TurnBegin(_) => "TurnBegin"
    case TurnEnd => "TurnEnd"
    case SteerInput(_) => "SteerInput"
    case StepBegin => "StepBegin"
    case StepInterrupted => "StepInterrupted"
    case CompactionBegin => "CompactionBegin"
    case CompactionEnd => "CompactionEnd"
    case StatusUpdate(_) => "StatusUpdate"
    case Fragment(_) => "ContentPart"
    case ToolBegin(_) => "ToolCall"
    case ToolArguments(_) => "ToolCallPart"
    case ToolResult(_, _) => "ToolResult"
    case ApprovalResponse(_, _) => "ApprovalResponse"
    case SubagentEvent(_, _) => "SubagentEvent"
    case ApprovalRequest(_) => "ApprovalRequest"
    case ToolCallRequest(_) => "ToolCallRequest"
    case Notification(_, _) => "Notification"
  }

  function RequestTaken(c: Core, rpcId: string, message: Event): Core {
    match message
    case ApprovalRequest(info) =>
      var shown := c.(transcript := Asked(c.transcript, info));
      if c.phase == Replaying then shown
      else shown.(approvals := c.approvals + [Pending(rpcId, info.requestId, |c.transcript.blocks|)])
    case ToolCallRequest(name) =>
      if c.phase == Replaying then Told(c, "external tool call (replayed): " + name)
      else c.(sent := c.sent + [Refuse(rpcId)])
    case other => Told(c, "unexpected request: " + TypeName(other))
  }

  function ServerLearned(c: Core, r: Reply): Core {
    var status := c.transcript.status;
    c.(sessionId := Newer(r.session, c.sessionId),
       serverName := if r.serverName.Some? then r.serverName.value else "Kimi",
       transcript := c.transcript.(status := status.(model := Newer(status.model, r.model))))
  }

  function InitAnswered(c: Core, result: Option<Reply>, error: Option<RpcError>): Core {
    var c := c.(initId := None);
    if result.Some? && error.None? then
      var r := result.value;
      if r.protocolError.Some? then c.(phase := Failed(r.protocolError.value))
      else
        SendCall(ServerLearned(c, r), "replay", "").(replayId := Some(c.nextId), phase := Replaying)
    else c.(phase := Failed("initialize failed: " + ErrorText(error)))
  }

  function ErrorText(error: Option<RpcError>): string {
    if error.Some? && error.value.message.Some? then error.value.message.value else ""
  }

  function PromptAnswered(c: Core, result: Option<Reply>, error: Option<RpcError>): Core {
    var c := c.(promptId := None, phase := Ready);
    if result.Some? && error.None? then
      if result.value.status == Some("max_steps_reached") then Told(c, "max steps reached") else c
    else if error.Some? then
      Told(c, "turn failed: " + if error.value.message.Some? then error.value.message.value else "unknown error")
    else c
  }

  function ResponseTaken(c: Core, id: nat, result: Option<Reply>, error: Option<RpcError>): Core {
    if c.initId == Some(id) then InitAnswered(c, result, error)
    else if c.replayId == Some(id) then
      var running := result.Some? && result.value.turnRunning == Some(true);
      c.(replayId := None, phase := if running then Running else Ready)
    else if c.promptId == Some(id) then PromptAnswered(c, result, error)
    else c
  }

  function ConnectionEnded(c: Core, reason: string): Core {
    var c := c.(connected := false);
    if c.phase.Failed? || c.phase.Detached? then c
    else c.(approvals := [], initId := None, replayId := None, promptId := None,
            phase := if c.wayBack then Detached(reason) else Failed("agent exited: " + reason))
  }

  function Received(c: Core, i: Inbound): Core {
    match i
    case Happened(event) => EventTaken(c, event)
    case Requested(rpcId, message) => RequestTaken(c, rpcId, message)
    case Answered(id, result, error) => ResponseTaken(c, id, result, error)
    case AgentExited(reason) => ConnectionEnded(c, reason)
    case ProtocolError(text) => Told(c, "wire error: " + text)
  }

  function ReceivedAll(c: Core, queue: seq<Inbound>): Core {
    if queue == [] then c else Received(ReceivedAll(c, queue[..|queue| - 1]), queue[|queue| - 1])
  }

  function Submitted(c: Core, text: string): Core {
    if Trim(text) == "" then c
    else if c.phase == Ready then SendCall(c, "prompt", Trim(text)).(promptId := Some(c.nextId), phase := Running)
    else if c.phase == Running then SendCall(c, "steer", Trim(text))
    else c
  }

  function Cancelled(c: Core): Core {
    if c.phase == Running then SendCall(c, "cancel", "") else c
  }

  /** Take over a fresh connection: a new transcript, and the handshake again. */
  function Adopted(c: Core, session: Option<string>): Core {
    c.(sessionId := Newer(session, c.sessionId), transcript := EmptyState, initId := Some(1), nextId := 2,
       sent := [Send("initialize", 1, "")], phase := Initializing, connected := true)
  }

  function Stopped(c: Core): Core {
    (if c.wayBack then SendCall(c, "shutdown", "") else c).(wayBack := false)
  }

  // ---------------------------------------------------------------- coupling

  /** The approval points at an Approval block of its request. */
  predicate Anchored(t: State, p: Pending) {
    p.block < |t.blocks| && t.blocks[p.block].ApprovalBlock? && t.blocks[p.block].info.requestId == p.requestId
  }

  /** The phase says exactly which answers are awaited, and every pending approval is shown. */
  predicate Coupled(c: Core) {
    && (c.phase == Initializing <==> c.initId.Some?)
    && (c.phase == Replaying <==> c.replayId.Some?)
    && (c.promptId.Some? ==> c.phase == Running)
    && (c.connected || c.phase.Detached? || c.phase.Failed?)
    && (c.phase.Detached? ==> !c.connected && c.approvals == [])
    && forall p :: p in c.approvals ==> Anchored(c.transcript, p)
  }

  lemma StillAnchored(t: State, t': State, ps: seq<Pending>)
    requires Extends(t.blocks, t'.blocks)
    requires forall p :: p in ps ==> Anchored(t, p)
    ensures forall p :: p in ps ==> Anchored(t', p)
  {
    forall p | p in ps
      ensures Anchored(t', p)
    {
      assert Anchored(t, p) && Grown(t.blocks[p.block], t'.blocks[p.block]);
    }
  }

  lemma ToldExtends(c: Core, text: string)
    ensures Extends(c.transcript.blocks, Told(c, text).transcript.blocks)
  {
  }

  lemma EventKeepsCoupled(c: Core, e: Event)
    requires Coupled(c) && c.connected
    ensures Coupled(EventTaken(c, e))
  {
    FeedExtends(c.transcript, Wire(e));
    StillAnchored(c.transcript, Apply(c.transcript, e), c.approvals);
  }

  lemma RequestKeepsCoupled(c: Core, rpcId: string, message: Event)
    requires Coupled(c) && c.connected
    ensures Coupled(RequestTaken(c, rpcId, message))
  {
    var c' := RequestTaken(c, rpcId, message);
    if message.ApprovalRequest? {
      FeedExtends(c.transcript, Ask(message.info));
      StillAnchored(c.transcript, c'.transcript, c.approvals);
    } else if message.ToolCallRequest? {
      ToldExtends(c, "external tool call (replayed): " + message.name);
      StillAnchored(c.transcript, Told(c, "external tool call (replayed): " + message.name).transcript, c.approvals);
    } else {
      ToldExtends(c, "unexpected request: " + TypeName(message));
      StillAnchored(c.transcript, c'.transcript, c.approvals);
    }
  }

  lemma ResponseKeepsCoupled(c: Core, id: nat, result: Option<Reply>, error: Option<RpcError>)
    requires Coupled(c) && c.connected
    ensures Coupled(ResponseTaken(c, id, result, error))
  {
    var t, t' := c.transcript, ResponseTaken(c, id, result, error).transcript;
    assert t'.blocks == t.blocks || (|t'.blocks| == |t.blocks| + 1 && t'.blocks[..|t.blocks|] == t.blocks);
    assert Extends(t.blocks, t'.blocks) by {
      forall i | 0 <= i < |t.blocks|
        ensures t'.blocks[i] == t.blocks[i]
      {
        assert t'.blocks[..|t.blocks|][i] == t'.blocks[i];
      }
    }
    StillAnchored(t, t', c.approvals);
  }

  lemma ReceiveKeepsCoupled(c: Core, i: Inbound)
    requires Coupled(c) && c.connected
    ensures Coupled(Received(c, i))
    ensures Received(c, i).connected <==> !i.AgentExited?
  {
    match i
    case Happened(event) => EventKeepsCoupled(c, event);
    case Requested(rpcId, message) => RequestKeepsCoupled(c, rpcId, message);
    case Answered(id, result, error) => ResponseKeepsCoupled(c, id, result, error);
    case AgentExited(_) =>
    case ProtocolError(text) =>
      ToldExtends(c, "wire error: " + text);
      StillAnchored(c.transcript, Told(c, "wire error: " + text).transcript, c.approvals);
  }

  /** What a connection delivers: nothing follows the end of the agent. */
  predicate Contract(queue: seq<Inbound>) {
    forall i :: 0 <= i < |queue| - 1 ==> !queue[i].AgentExited?
  }

  lemma {:induction false} DrainKeepsCoupled(c: Core, queue: seq<Inbound>)
    requires Coupled(c) && Contract(queue) && (queue != [] ==> c.connected)
    ensures Coupled(ReceivedAll(c, queue))
    ensures queue != [] ==> (ReceivedAll(c, queue).connected <==> !queue[|queue| - 1].AgentExited?)
  {
    if queue != [] {
      DrainKeepsCoupled(c, queue[..|queue| - 1]);
      ReceiveKeepsCoupled(ReceivedAll(c, queue[..|queue| - 1]), queue[|queue| - 1]);
    }
  }

  /** Commands from the user keep the coupling in any phase. */
  lemma CommandsKeepCoupled(c: Core, text: string)
    requires Coupled(c)
    ensures Coupled(Submitted(c, text)) && Coupled(Cancelled(c)) && Coupled(Stopped(c))
  {
  }

  /** A reconnect finds nothing pending to carry over, so the new transcript strands none. */
  lemma AdoptKeepsCoupled(c: Core, session: Option<string>)
    requires Coupled(c) && c.phase.Detached?
    ensures Coupled(Adopted(c, session))
  {
  }

  // ---------------------------------------------------------------- the object

  class Conversation {
    var phase: Phase
    var initId: Option<nat>
    var replayId: Option<nat>
    var promptId: Option<nat>
    var approvals: seq<Pending>
    var transcript: Transcript
    var sessionId: Option<string>
    var serverName: string
    var wayBack: bool
    var nextId: nat
    var sent: seq<Outgoing>
    var connected: bool

    function View(): Core
      reads this, transcript
    {
      Core(phase, initId, replayId, promptId, approvals, transcript.View(), sessionId, serverName, wayBack, nextId,
           sent, connected)
    }

    constructor (sessionId: Option<string>, wayBack: bool)
      ensures View() == Launched(sessionId, wayBack) && Coupled(View())
      ensures fresh(transcript)
    {
      phase := Initializing;
      initId, replayId, promptId := Some(1), None, None;
      approvals := [];
      this.sessionId, this.wayBack, serverName := sessionId, wayBack, "";
      nextId, sent, connected := 2, [Send("initialize", 1, "")], true;
      transcript := new Transcript(EmptyState);
    }

    method SendRequest(verb: string, input: string) returns (id: nat)
      modifies this`nextId, this`sent
      ensures View() == SendCall(old(View()), verb, input) && id == old(nextId)
    {
      id := nextId;
      nextId := nextId + 1;
      sent := sent + [Send(verb, id, input)];
    }

    method Tell(text: string)
      modifies transcript
      ensures View() == Told(old(View()), text)
    {
      transcript.blocks := transcript.blocks + [InfoBlock(text)];
    }

    /** Keep the approvals of other requests. */
    method RetainOthers(requestId: string)
      modifies this`approvals
      ensures approvals == Without(old(approvals), requestId)
    {
      var kept: seq<Pending> := [];
      var i := 0;
      assert kept + Without(approvals[0..], requestId) == Without(approvals, requestId);
      while i < |approvals|
        invariant 0 <= i <= |approvals|
        invariant kept + Without(approvals[i..], requestId) == Without(approvals, requestId)
      {
        assert approvals[i..][0] == approvals[i] && approvals[i..][1..] == approvals[i + 1..];
        if approvals[i].requestId != requestId {
          kept := kept + [approvals[i]];
        }
        i := i + 1;
      }
      approvals := kept;
    }

    method NoteEvent(e: Event)
      modifies this`approvals, this`phase
      ensures View() == EventNoted(old(View()), e)
    {
      if e.ApprovalResponse? {
        RetainOthers(e.requestId);
      }
      if e.TurnEnd? && phase == Running && promptId.None? {
        phase := Ready;
      }
    }

    method HandleEvent(e: Event)
      modifies this`approvals, this`phase, transcript
      ensures View() == EventTaken(old(View()), e)
    {
      NoteEvent(e);
      var _ := transcript.ApplyEvent(e);
    }

    /** A replayed approval is history; any other awaits a decision. */
    method ShowApproval(rpcId: string, info: ApprovalInfo)
      modifies this`approvals, transcript
      ensures View() == RequestTaken(old(View()), rpcId, ApprovalRequest(info))
    {
      var block := transcript.PushApproval(info);
      if phase == Replaying {
        return;
      }
      approvals := approvals + [Pending(rpcId, info.requestId, block)];
    }

    method HandleRequest(rpcId: string, message: Event)
      modifies this`approvals, this`sent, transcript
      ensures View() == RequestTaken(old(View()), rpcId, message)
    {
      match message {
        case ApprovalRequest(info) =>
          ShowApproval(rpcId, info);
        case ToolCallRequest(name) =>
          if phase == Replaying {
            Tell("external tool call (replayed): " + name);
            return;
          }
          sent := sent + [Refuse(rpcId)];
        case other =>
          Tell("unexpected request: " + TypeName(other));
      }
    }

    /** Who answered: the session, the server's name, and a model if none is known yet. */
    method LearnServer(r: Reply)
      modifies this`sessionId, this`serverName, transcript
      ensures View() == ServerLearned(old(View()), r)
    {
      if r.session.Some? {
        sessionId := r.session;
      }
      serverName := if r.serverName.Some? then r.serverName.value else "Kimi";
      if r.model.Some? && transcript.status.model.None? {
        transcript.status := transcript.status.(model := r.model);
      }
    }

    method HandleInit(result: Option<Reply>, error: Option<RpcError>)
      modifies this`initId, this`replayId, this`phase, this`sessionId, this`serverName, this`nextId, this`sent, transcript
      ensures View() == InitAnswered(old(View()), result, error)
    {
      initId := None;
      if result.None? || error.Some? {
        phase := Failed("initialize failed: " + ErrorText(error));
        return;
      }
      var r := result.value;
      if r.protocolError.Some? {
        phase := Failed(r.protocolError.value);
        return;
      }
      LearnServer(r);
      var id := SendRequest("replay", "");
      replayId := Some(id);
      phase := Replaying;
    }

    method HandleResponse(id: nat, result: Option<Reply>, error: Option<RpcError>)
      modifies this, transcript
      ensures transcript == old(transcript)
      ensures View() == ResponseTaken(old(View()), id, result, error)
    {
      if initId == Some(id) {
        HandleInit(result, error);
      } else if replayId == Some(id) {
        replayId := None;
        var running := result.Some? && result.value.turnRunning == Some(true);
        phase := if running then Running else Ready;
      } else if promptId == Some(id) {
        promptId := None;
        phase := Ready;
        if result.Some? && error.None? {
          if result.value.status == Some("max_steps_reached") {
            Tell("max steps reached");
          }
        } else if error.Some? {
          Tell("turn failed: " + if error.value.message.Some? then error.value.message.value else "unknown error");
        }
      }
    }

    method End(reason: string)
      modifies this
      ensures transcript == old(transcript)
      ensures View() == ConnectionEnded(old(View()), reason)
      ensures old(Coupled(View()) && connected) ==> Coupled(View())
    {
      connected := false;
      if phase.Failed? || phase.Detached? {
        return;
      }
      approvals := [];
      initId, replayId, promptId := None, None, None;
      phase := if wayBack then Detached(reason) else Failed("agent exited: " + reason);
    }

    /** One inbound message, whichever it is. */
    method Receive(i: Inbound)
      modifies this, transcript
      ensures transcript == old(transcript)
      ensures View() == Received(old(View()), i)
      ensures old(Coupled(View()) && connected) ==> Coupled(View()) && (connected <==> !i.AgentExited?)
    {
      ghost var before := View();
      if Coupled(before) && connected {
        ReceiveKeepsCoupled(before, i);
      }
      match i {
        case Happened(event) => HandleEvent(event);
        case Requested(rpcId, message) => HandleRequest(rpcId, message);
        case Answered(id, result, error) => HandleResponse(id, result, error);
        case AgentExited(reason) => End(reason);
        case ProtocolError(text) => Tell("wire error: " + text);
      }
    }

    /** Consume everything that arrived. */
    method DrainInbound(queue: seq<Inbound>)
      requires Coupled(View()) && Contract(queue) && (queue != [] ==> connected)
      modifies this, transcript
      ensures transcript == old(transcript)
      ensures View() == ReceivedAll(old(View()), queue) && Coupled(View())
    {
      var i := 0;
      while i < |queue|
        invariant 0 <= i <= |queue| && transcript == old(transcript)
        invariant View() == ReceivedAll(old(View()), queue[..i])
      {
        assert queue[..i + 1][..i] == queue[..i];
        Receive(queue[i]);
        i := i + 1;
      }
      assert queue[..i] == queue;
      DrainKeepsCoupled(old(View()), queue);
    }

    method Submit(text: string)
      modifies this`promptId, this`phase, this`nextId, this`sent
      ensures View() == Submitted(old(View()), text)
      ensures old(Coupled(View())) ==> Coupled(View())
    {
      ghost var before := View();
      if Coupled(before) {
        CommandsKeepCoupled(before, text);
      }
      if Trim(text) == "" {
        return;
      }
      if phase == Ready {
        var id := SendRequest("prompt", Trim(text));
        promptId := Some(id);
        phase := Running;
      } else if phase == Running {
        var _ := SendRequest("steer", Trim(text));
      }
    }

    method Cancel()
      modifies this`nextId, this`sent
      ensures View() == Cancelled(old(View()))
      ensures old(Coupled(View())) ==> Coupled(View())
    {
      ghost var before := View();
      if Coupled(before) {
        CommandsKeepCoupled(before, "");
      }
      if phase == Running {
        var _ := SendRequest("cancel", "");
      }
    }

    method Adopt(session: Option<string>)
      modifies this
      ensures View() == Adopted(old(View()), session) && fresh(transcript)
    {
      if session.Some? {
        sessionId := session;
      }
      transcript := new Transcript(EmptyState);
      nextId, sent, connected := 2, [Send("initialize", 1, "")], true;
      initId := Some(1);
      phase := Initializing;
    }

    method StopAgent()
      modifies this`wayBack, this`nextId, this`sent
      ensures View() == Stopped(old(View()))
      ensures old(Coupled(View())) ==> Coupled(View())
    {
      ghost var before := View();
      if Coupled(before) {
        CommandsKeepCoupled(before, "");
      }
      if wayBack {
        var _ := SendRequest("shutdown", "");
      }
      wayBack := false;
    }
  }
}
