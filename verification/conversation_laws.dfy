/** What the conversation says, shows and becomes, message by message: nothing is sent, shown or
    decided but what these laws name. */
module ConversationLaws {
  import opened Wrappers
  import opened Transcripts
  import opened Conversations
  import opened TextUtil

  // ---------------------------------------------------------------- what is sent

  /** The answer to initialize that opens the session. */
  predicate Welcomes(result: Option<Reply>, error: Option<RpcError>) {
    result.Some? && error.None? && result.value.protocolError.None?
  }

  /** A message is answered with a replay request when it opens the session, with a refusal
      when it asks for an external tool outside a replay, and otherwise with nothing. */
  lemma ReceivedSends(c: Core, i: Inbound)
    ensures Received(c, i).sent == c.sent +
              match i
              case Answered(id, result, error) =>
                if c.initId == Some(id) && Welcomes(result, error) then [Send("replay", c.nextId, "")] else []
              case Requested(rpcId, ToolCallRequest(_)) => if c.phase == Replaying then [] else [Refuse(rpcId)]
              case _ => []
  {
    assert c.sent + [] == c.sent;
  }

  /** What a user's line or key sends: a prompt when ready, a steer or a cancel mid-turn, the
      line trimmed; and a stop goes out only to an agent that outlives the client. */
  lemma CommandsSend(c: Core, text: string)
    ensures Submitted(c, text).sent == c.sent +
              (if Trim(text) == "" then []
               else if c.phase == Ready then [Send("prompt", c.nextId, Trim(text))]
               else if c.phase == Running then [Send("steer", c.nextId, Trim(text))] else [])
    ensures Cancelled(c).sent == c.sent + if c.phase == Running then [Send("cancel", c.nextId, "")] else []
    ensures Stopped(c).sent == c.sent + if c.wayBack then [Send("shutdown", c.nextId, "")] else []
  {
    assert c.sent + [] == c.sent;
  }

  /** The ids of the requests sent on this connection, in order. */
  function SentIds(sent: seq<Outgoing>): seq<nat> {
    if sent == [] then []
    else
      var last := sent[|sent| - 1];
      SentIds(sent[..|sent| - 1]) + if last.Send? then [last.id] else []
  }

  /** Requests are numbered from one without gap, and what is awaited is the answer to a
      request of that very kind. */
  ghost predicate Numbered(c: Core) {
    && c.nextId >= 1 && SentIds(c.sent) == seq(c.nextId - 1, i => i + 1)
    && (c.initId.Some? ==> Send("initialize", c.initId.value, "") in c.sent)
    && (c.replayId.Some? ==> Send("replay", c.replayId.value, "") in c.sent)
    && (c.promptId.Some? ==> exists input :: Send("prompt", c.promptId.value, input) in c.sent)
  }

  lemma SentIdsPush(sent: seq<Outgoing>, o: Outgoing)
    ensures SentIds(sent + [o]) == if o.Send? then SentIds(sent) + [o.id] else SentIds(sent)
  {
    assert (sent + [o])[..|sent|] == sent;
    assert SentIds(sent) + [] == SentIds(sent);
  }

  lemma LaunchIsNumbered(sessionId: Option<string>, wayBack: bool)
    ensures var c := Launched(sessionId, wayBack);
            && Numbered(c) && Coupled(c)
            && c.phase == Initializing && c.sent == [Send("initialize", 1, "")] && c.initId == Some(1)
            && c.approvals == [] && c.transcript.blocks == [] && c.transcript.subagents == []
            && c.sessionId == sessionId && c.wayBack == wayBack && c.connected
  {
    SentIdsPush([], Send("initialize", 1, ""));
    assert [] + [Send("initialize", 1, "")] == [Send("initialize", 1, "")];
  }

  /** Sending one more request, or something that is none, and awaiting nothing that was not
      awaited before but perhaps that request. */
  lemma NumberingGoesOn(c: Core, c': Core, o: Outgoing)
    requires Numbered(c) && c'.sent == c.sent + [o]
    requires o.Send? ==> o.id == c.nextId && c'.nextId == c.nextId + 1
    requires !o.Send? ==> c'.nextId == c.nextId
    requires c'.initId.None? || c'.initId == c.initId
    requires c'.replayId.None? || c'.replayId == c.replayId || (c'.replayId == Some(c.nextId) && o == Send("replay", c.nextId, ""))
    requires c'.promptId.None? || c'.promptId == c.promptId
             || (c'.promptId == Some(c.nextId) && exists input :: o == Send("prompt", c.nextId, input))
    ensures Numbered(c')
  {
    SentIdsPush(c.sent, o);
    assert o in c'.sent;
    if c'.promptId.Some? {
      if c'.promptId == c.promptId {
        var input :| Send("prompt", c.promptId.value, input) in c.sent;
        assert Send("prompt", c'.promptId.value, input) in c'.sent;
      } else {
        var input :| o == Send("prompt", c.nextId, input);
        assert Send("prompt", c'.promptId.value, input) in c'.sent;
      }
    }
  }

  lemma NothingSentStaysNumbered(c: Core, c': Core)
    requires Numbered(c) && c'.sent == c.sent && c'.nextId == c.nextId
    requires c'.initId.None? || c'.initId == c.initId
    requires c'.replayId.None? || c'.replayId == c.replayId
    requires c'.promptId.None? || c'.promptId == c.promptId
    ensures Numbered(c')
  {
  }

  predicate AwaitsAtMost(c: Core, c': Core, welcome: bool) {
    && c'.approvals == c.approvals
    && c'.sent == (if welcome then c.sent + [Send("replay", c.nextId, "")] else c.sent)
    && c'.nextId == (if welcome then c.nextId + 1 else c.nextId)
    && (c'.initId.None? || c'.initId == c.initId)
    && (c'.replayId.None? || c'.replayId == c.replayId || (welcome && c'.replayId == Some(c.nextId)))
    && (c'.promptId.None? || c'.promptId == c.promptId)
  }

  lemma InitAwaits(c: Core, result: Option<Reply>, error: Option<RpcError>)
    ensures AwaitsAtMost(c, InitAnswered(c, result, error), Welcomes(result, error))
  {
  }

  /** An answer leaves what is pending alone, and awaits at most the replay it asked for. */
  lemma AnswerAwaits(c: Core, id: nat, result: Option<Reply>, error: Option<RpcError>)
    ensures AwaitsAtMost(c, ResponseTaken(c, id, result, error), c.initId == Some(id) && Welcomes(result, error))
  {
    if c.initId == Some(id) {
      InitAwaits(c, result, error);
    }
  }

  lemma AnswerKeepsNumbered(c: Core, id: nat, result: Option<Reply>, error: Option<RpcError>)
    requires Numbered(c)
    ensures Numbered(ResponseTaken(c, id, result, error))
  {
    var c' := ResponseTaken(c, id, result, error);
    AnswerAwaits(c, id, result, error);
    if c.initId == Some(id) && Welcomes(result, error) {
      NumberingGoesOn(c, c', Send("replay", c.nextId, ""));
    } else {
      NothingSentStaysNumbered(c, c');
    }
  }

  lemma RequestMoves(c: Core, rpcId: string, message: Event)
    ensures var c' := RequestTaken(c, rpcId, message);
            && c'.approvals == (if message.ApprovalRequest? && c.phase != Replaying
                                then c.approvals + [Pending(rpcId, message.info.requestId, |c.transcript.blocks|)]
                                else c.approvals)
            && c'.sent == (if message.ToolCallRequest? && c.phase != Replaying then c.sent + [Refuse(rpcId)] else c.sent)
  {
  }

  lemma RequestKeepsNumbered(c: Core, rpcId: string, message: Event)
    requires Numbered(c)
    ensures Numbered(RequestTaken(c, rpcId, message))
  {
    var c' := RequestTaken(c, rpcId, message);
    if message.ToolCallRequest? && c.phase != Replaying {
      NumberingGoesOn(c, c', Refuse(rpcId));
    } else {
      NothingSentStaysNumbered(c, c');
    }
  }

  /** Every message keeps the numbering. */
  lemma ReceiveKeepsNumbered(c: Core, i: Inbound)
    requires Numbered(c)
    ensures Numbered(Received(c, i))
  {
    match i
    case Answered(id, result, error) => AnswerKeepsNumbered(c, id, result, error);
    case Requested(rpcId, message) => RequestKeepsNumbered(c, rpcId, message);
    case Happened(e) => EventKeepsNumbered(c, e);
    case AgentExited(reason) => EndKeepsNumbered(c, reason);
    case ProtocolError(text) => NothingSentStaysNumbered(c, Told(c, "wire error: " + text));
  }

  lemma EventKeepsNumbered(c: Core, e: Event)
    requires Numbered(c)
    ensures Numbered(EventTaken(c, e))
  {
    NothingSentStaysNumbered(c, EventTaken(c, e));
  }

  lemma EndKeepsNumbered(c: Core, reason: string)
    requires Numbered(c)
    ensures Numbered(ConnectionEnded(c, reason))
  {
    NothingSentStaysNumbered(c, ConnectionEnded(c, reason));
  }

  lemma SubmitKeepsNumbered(c: Core, text: string)
    requires Numbered(c)
    ensures Numbered(Submitted(c, text))
  {
    if Trim(text) != "" && c.phase == Ready {
      NumberingGoesOn(c, Submitted(c, text), Send("prompt", c.nextId, Trim(text)));
    } else if Trim(text) != "" && c.phase == Running {
      NumberingGoesOn(c, Submitted(c, text), Send("steer", c.nextId, Trim(text)));
    }
  }

  lemma CommandsKeepNumbered(c: Core, text: string)
    requires Numbered(c)
    ensures Numbered(Submitted(c, text)) && Numbered(Cancelled(c)) && Numbered(Stopped(c))
  {
    SubmitKeepsNumbered(c, text);
    if c.phase == Running {
      NumberingGoesOn(c, Cancelled(c), Send("cancel", c.nextId, ""));
    }
    if c.wayBack {
      NumberingGoesOn(c, Stopped(c), Send("shutdown", c.nextId, ""));
    }
  }

  /** A reconnect is a launch on the session the client knows, or is told: nothing else is
      carried over but the server's name. */
  lemma AdoptIsRelaunch(c: Core, session: Option<string>)
    requires Coupled(c) && c.phase.Detached?
    ensures Adopted(c, session)
            == Launched(if session.Some? then session else c.sessionId, c.wayBack).(serverName := c.serverName)
    ensures Numbered(Adopted(c, session))
  {
    LaunchIsNumbered(c.sessionId, c.wayBack);
  }

  // ---------------------------------------------------------------- what the answers do

  /** The answer to initialize: a protocol the client cannot speak, or an error, ends it there;
      otherwise the session, the server and its model are learned and a replay is asked for. */
  lemma InitializeAnswered(c: Core, result: Option<Reply>, error: Option<RpcError>, id: nat)
    requires c.initId == Some(id)
    ensures var c' := Received(c, Answered(id, result, error));
            && c'.initId == None && (c'.phase == Replaying <==> Welcomes(result, error))
            && (!Welcomes(result, error) ==> c'.phase.Failed? && c'.replayId == c.replayId
                                             && c'.sessionId == c.sessionId && c'.transcript == c.transcript)
            && (Welcomes(result, error) ==>
                  var r := result.value;
                  && c'.replayId == Some(c.nextId)
                  && c'.sessionId == (if r.session.Some? then r.session else c.sessionId)
                  && c'.serverName == (if r.serverName.Some? then r.serverName.value else "Kimi")
                  && c'.transcript.blocks == c.transcript.blocks
                  && c'.transcript.status.model
                     == if c.transcript.status.model.Some? then c.transcript.status.model else r.model)
            && (result.Some? && error.None? && result.value.protocolError.Some? ==>
                  c'.phase == Failed(result.value.protocolError.value))
  {
  }

  /** A finished replay: running exactly when the agent says that a turn is, else ready. */
  lemma ReplayAnswered(c: Core, result: Option<Reply>, error: Option<RpcError>, id: nat)
    requires c.replayId == Some(id) && c.initId != Some(id)
    ensures var running := result.Some? && result.value.turnRunning == Some(true);
            Received(c, Answered(id, result, error)) == c.(replayId := None, phase := if running then Running else Ready)
  {
  }

  /** The answer to a prompt: ready again, and a note when steps ran out or the turn failed. */
  lemma PromptIsAnswered(c: Core, result: Option<Reply>, error: Option<RpcError>, id: nat)
    requires c.promptId == Some(id) && c.initId != Some(id) && c.replayId != Some(id)
    ensures var c' := Received(c, Answered(id, result, error));
            && c'.phase == Ready && c'.promptId == None
            && c'.transcript.blocks == c.transcript.blocks +
                 (if error.Some?
                  then [InfoBlock("turn failed: " +
                          if error.value.message.Some? then error.value.message.value else "unknown error")]
                  else if result.Some? && result.value.status == Some("max_steps_reached")
                  then [InfoBlock("max steps reached")] else [])
  {
    assert c.transcript.blocks + [] == c.transcript.blocks;
  }

  /** An answer nobody awaits changes nothing. */
  lemma StrayAnswerIsIgnored(c: Core, result: Option<Reply>, error: Option<RpcError>, id: nat)
    requires c.initId != Some(id) && c.replayId != Some(id) && c.promptId != Some(id)
    ensures Received(c, Answered(id, result, error)) == c
  {
  }

  // ---------------------------------------------------------------- the phase

  /** What moves the phase besides those answers: a turn that ends for a client that did not
      start it, and the end of the connection. */
  lemma PhaseMoves(c: Core, i: Inbound)
    requires !i.Answered?
    ensures Received(c, i).phase
            == match i
               case Happened(TurnEnd) => if c.phase == Running && c.promptId.None? then Ready else c.phase
               case AgentExited(reason) =>
                 if c.phase.Failed? || c.phase.Detached? then c.phase
                 else if c.wayBack then Detached(reason) else Failed("agent exited: " + reason)
               case _ => c.phase
    ensures i.AgentExited? && !c.phase.Failed? && !c.phase.Detached? ==>
              var c' := Received(c, i);
              c'.initId == None && c'.replayId == None && c'.promptId == None && c'.approvals == []
  {
  }

  /** A command moves it only by starting a turn. */
  lemma CommandsMovePhase(c: Core, text: string)
    ensures var c' := Submitted(c, text);
            if Trim(text) != "" && c.phase == Ready then c'.phase == Running && c'.promptId == Some(c.nextId)
            else c'.phase == c.phase && c'.promptId == c.promptId
    ensures Cancelled(c).phase == c.phase && Stopped(c).phase == c.phase && !Stopped(c).wayBack
  {
  }

  // ---------------------------------------------------------------- what is shown and pending

  /** What a message other than an event or an answer shows. */
  lemma MessagesShow(c: Core, i: Inbound)
    requires !i.Happened? && !i.Answered?
    ensures Received(c, i).transcript.blocks == c.transcript.blocks +
              match i
              case Requested(_, ApprovalRequest(info)) => [ApprovalBlock(info, None)]
              case Requested(_, ToolCallRequest(name)) =>
                if c.phase == Replaying then [InfoBlock("external tool call (replayed): " + name)] else []
              case Requested(_, other) => [InfoBlock("unexpected request: " + TypeName(other))]
              case ProtocolError(text) => [InfoBlock("wire error: " + text)]
              case _ => []
  {
    assert c.transcript.blocks + [] == c.transcript.blocks;
  }

  /** An event shows what the transcript makes of it. */
  lemma EventsShow(c: Core, e: Event)
    ensures Received(c, Happened(e)).transcript == Feed(c.transcript, Wire(e))
  {
  }

  /** An approval asked for outside a replay becomes the newest pending one, at the block that
      shows it; one answered elsewhere is taken down, and no other; the end of the connection
      takes down all; nothing else touches what is pending. */
  lemma PendingMoves(c: Core, i: Inbound)
    ensures var ps, ps' := c.approvals, Received(c, i).approvals;
            match i
            case Requested(rpcId, ApprovalRequest(info)) =>
              ps' == ps + if c.phase == Replaying then [] else [Pending(rpcId, info.requestId, |c.transcript.blocks|)]
            case Happened(ApprovalResponse(id, _)) => forall p :: p in ps' <==> p in ps && p.requestId != id
            case AgentExited(_) => ps' == if c.phase.Failed? || c.phase.Detached? then ps else []
            case _ => ps' == ps
  {
    assert c.approvals + [] == c.approvals;
  }
}
