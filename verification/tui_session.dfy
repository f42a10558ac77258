/** The terminal frontend's session: one conversation, reconnected by hand. */
module TuiSessions {
  import opened Wrappers
  import opened Transcripts
  import opened Conversations

  /** The oldest approval block for a request; the length when there is none. */
  function FirstApproval(blocks: seq<Block>, requestId: string): (r: nat)
    ensures r <= |blocks|
    ensures r < |blocks| ==> Matches(blocks[r], ApprovalOf(requestId))
    ensures forall j :: 0 <= j < r ==> !Matches(blocks[j], ApprovalOf(requestId))
  {
    if blocks == [] || Matches(blocks[0], ApprovalOf(requestId)) then 0 else 1 + FirstApproval(blocks[1..], requestId)
  }

  /** What the overlay shows: the subject of the oldest pending approval. */
  function FirstInfo(c: Core): Option<ApprovalInfo> {
    if c.approvals == [] then None
    else
      var i := FirstApproval(c.transcript.blocks, c.approvals[0].requestId);
      if i < |c.transcript.blocks| then Some(c.transcript.blocks[i].info) else None
  }

  function Decided(blocks: seq<Block>, at: nat, answer: Answer): seq<Block> {
    if at < |blocks| && blocks[at].ApprovalBlock? then blocks[at := ApprovalBlock(blocks[at].info, Some(answer))]
    else blocks
  }

  function AnsweredOldest(c: Core, answer: Answer): Core {
    if c.approvals == [] then c
    else
      var p, blocks := c.approvals[0], c.transcript.blocks;
      c.(approvals := c.approvals[1..],
         sent := c.sent + [Resolve(p.rpcId, p.requestId, answer)],
         transcript := c.transcript.(blocks := Decided(blocks, FirstApproval(blocks, p.requestId), answer)))
  }

  predicate CanReconnect(c: Core) {
    c.wayBack && c.phase.Detached?
  }

  /** One attempt at the way back: the session it landed on, or why it failed. */
  function Reconnected(c: Core, outcome: Result<Option<string>, string>): Core {
    if !c.wayBack then c
    else
      match outcome
      case Ok(session) => Adopted(c, session)
      case Err(reason) => c.(phase := Detached(reason))
  }

  datatype Action =
    | Deliver(inbound: Inbound)
    | Submit(text: string)
    | Cancel
    | Answer(answer: Transcripts.Answer)
    | Reconnect(outcome: Result<Option<string>, string>)
    | Stop

  /** Nothing is delivered after the end of a connection, and the reconnect key is bound
      only while there is something to reconnect. */
  function Step(c: Core, a: Action): Core {
    match a
    case Deliver(i) => if c.connected then Received(c, i) else c
    case Submit(text) => Submitted(c, text)
    case Cancel => Cancelled(c)
    case Answer(answer) => AnsweredOldest(c, answer)
    case Reconnect(outcome) => if CanReconnect(c) then Reconnected(c, outcome) else c
    case Stop => Stopped(c)
  }

  function Run(c: Core, actions: seq<Action>): Core {
    if actions == [] then c else Step(Run(c, actions[..|actions| - 1]), actions[|actions| - 1])
  }

  lemma DecidedExtends(blocks: seq<Block>, at: nat, answer: Transcripts.Answer)
    ensures Extends(blocks, Decided(blocks, at, answer))
  {
  }

  lemma AnswerKeepsCoupled(c: Core, answer: Transcripts.Answer)
    requires Coupled(c)
    ensures Coupled(AnsweredOldest(c, answer))
  {
    if c.approvals != [] {
      var c' := AnsweredOldest(c, answer);
      DecidedExtends(c.transcript.blocks, FirstApproval(c.transcript.blocks, c.approvals[0].requestId), answer);
      StillAnchored(c.transcript, c'.transcript, c'.approvals);
    }
  }

  /** In every run the phase says exactly what is awaited, and each pending approval names an
      Approval block of the current transcript, across reconnects. */
  lemma {:induction false} RunKeepsCoupled(sessionId: Option<string>, wayBack: bool, actions: seq<Action>)
    ensures Coupled(Run(Launched(sessionId, wayBack), actions))
  {
    if actions != [] {
      RunKeepsCoupled(sessionId, wayBack, actions[..|actions| - 1]);
      var c, a := Run(Launched(sessionId, wayBack), actions[..|actions| - 1]), actions[|actions| - 1];
      match a
      case Deliver(i) =>
        if c.connected {
          ReceiveKeepsCoupled(c, i);
        }
      case Submit(text) => CommandsKeepCoupled(c, text);
      case Cancel => CommandsKeepCoupled(c, "");
      case Answer(answer) => AnswerKeepsCoupled(c, answer);
      case Reconnect(outcome) =>
        if CanReconnect(c) && outcome.Ok? {
          AdoptKeepsCoupled(c, outcome.value);
        }
      case Stop => CommandsKeepCoupled(c, "");
    }
  }

  /** So the overlay is up exactly while something is pending, and shows that request. */
  lemma OverlayShowsOldest(sessionId: Option<string>, wayBack: bool, actions: seq<Action>)
    ensures var c := Run(Launched(sessionId, wayBack), actions);
            && (FirstInfo(c).Some? <==> c.approvals != [])
            && (c.approvals != [] ==> FirstInfo(c).value.requestId == c.approvals[0].requestId)
            && (c.approvals != [] ==> exists k :: 0 <= k < |c.transcript.blocks|
                                        && c.transcript.blocks[k].ApprovalBlock?
                                        && c.transcript.blocks[k].info == FirstInfo(c).value)
  {
    RunKeepsCoupled(sessionId, wayBack, actions);
    var c := Run(Launched(sessionId, wayBack), actions);
    if c.approvals != [] {
      assert Anchored(c.transcript, c.approvals[0]);
    }
  }

  /** A failed attempt changes nothing but the reason shown; without a way back, or before a
      detach, there is no attempt. */
  lemma FailedReconnectOnlyTells(c: Core, reason: string, outcome: Result<Option<string>, string>)
    ensures Reconnected(c, Err(reason)) == if c.wayBack then c.(phase := Detached(reason)) else c
    ensures Step(c, Reconnect(outcome)) != c ==> c.wayBack && c.phase.Detached?
  {
  }

  // ---------------------------------------------------------------- the object

  class AgentSession {
    const talk: Conversation

    constructor (sessionId: Option<string>, wayBack: bool)
      ensures talk.View() == Launched(sessionId, wayBack) && Coupled(talk.View())
    {
      talk := new Conversation(sessionId, wayBack);
    }

    method DrainInbound(queue: seq<Inbound>)
      requires Coupled(talk.View()) && Contract(queue) && (queue != [] ==> talk.connected)
      modifies talk, talk.transcript
      ensures talk.View() == ReceivedAll(old(talk.View()), queue) && Coupled(talk.View())
    {
      talk.DrainInbound(queue);
    }

    method FirstApprovalInfo() returns (info: Option<ApprovalInfo>)
      ensures info == FirstInfo(talk.View())
    {
      if talk.approvals == [] {
        return None;
      }
      var at := FindApproval(talk.approvals[0].requestId);
      info := if at < |talk.transcript.blocks| then Some(talk.transcript.blocks[at].info) else None;
    }

    method FindApproval(requestId: string) returns (i: nat)
      ensures i == FirstApproval(talk.transcript.blocks, requestId)
    {
      i := 0;
      while i < |talk.transcript.blocks| && !Matches(talk.transcript.blocks[i], ApprovalOf(requestId))
        invariant 0 <= i <= |talk.transcript.blocks|
        invariant forall j :: 0 <= j < i ==> !Matches(talk.transcript.blocks[j], ApprovalOf(requestId))
      {
        i := i + 1;
      }
    }

    method ResolveApproval(answer: Transcripts.Answer)
      modifies talk, talk.transcript
      ensures talk.View() == AnsweredOldest(old(talk.View()), answer)
      ensures old(talk.approvals) == [] ==> talk.View() == old(talk.View())
      ensures old(talk.approvals) != [] ==>
                var p := old(talk.approvals)[0];
                && talk.sent == old(talk.sent) + [Resolve(p.rpcId, p.requestId, answer)]
                && talk.approvals == old(talk.approvals)[1..]
    {
      if talk.approvals == [] {
        return;
      }
      var p := talk.approvals[0];
      var at := FindApproval(p.requestId);
      talk.approvals := talk.approvals[1..];
      talk.sent := talk.sent + [Resolve(p.rpcId, p.requestId, answer)];
      var blocks := talk.transcript.blocks;
      if at < |blocks| {
        talk.transcript.blocks := blocks[at := ApprovalBlock(blocks[at].info, Some(answer))];
      }
    }

    method StopAgent()
      requires Coupled(talk.View())
      modifies talk`wayBack, talk`nextId, talk`sent
      ensures talk.View() == Stopped(old(talk.View())) && Coupled(talk.View()) && !CanReconnect(talk.View())
    {
      talk.StopAgent();
    }

    method Reconnect(outcome: Result<Option<string>, string>)
      requires Coupled(talk.View()) && talk.phase.Detached?
      modifies talk
      ensures talk.View() == Reconnected(old(talk.View()), outcome) && Coupled(talk.View())
    {
      if !talk.wayBack {
        return;
      }
      match outcome {
        case Ok(session) =>
          AdoptKeepsCoupled(talk.View(), session);
          talk.Adopt(session);
        case Err(reason) =>
          talk.phase := Detached(reason);
      }
    }
  }
}
