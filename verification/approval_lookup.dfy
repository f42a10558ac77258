/** Which block the terminal frontend decides. It keeps no position for a pending approval and
    looks its block up by request id, oldest first. */
module ApprovalLookups {
  import opened Wrappers
  import opened Transcripts
  import opened Conversations
  import opened TuiSessions

  // ---------------------------------------------------------------- what is pending

  predicate Ordered(ps: seq<Pending>) {
    forall i, j :: 0 <= i < j < |ps| ==> ps[i].block < ps[j].block
  }

  /** The block of a pending approval shows no decision. */
  predicate Undecided(t: State, p: Pending) {
    Anchored(t, p) && t.blocks[p.block].response.None?
  }

  /** Pending approvals stand in the order of their blocks, none of them decided. */
  predicate Awaiting(c: Core) {
    Ordered(c.approvals) && forall p :: p in c.approvals ==> Undecided(c.transcript, p)
  }

  lemma {:induction false} WithoutKeepsOrder(ps: seq<Pending>, requestId: string)
    requires Ordered(ps)
    ensures Ordered(Without(ps, requestId))
  {
    if ps != [] {
      var rest := Without(ps[1..], requestId);
      WithoutKeepsOrder(ps[1..], requestId);
      forall j | 0 <= j < |rest|
        ensures ps[0].block < rest[j].block
      {
        assert rest[j] in ps[1..];
      }
    }
  }

  /** An event alters an approval block only as the newest one of the request it answers. */
  lemma EventLeavesApprovals(t: State, e: Event, i: nat)
    requires i < |t.blocks| && t.blocks[i].ApprovalBlock?
    requires e.ApprovalResponse? ==> e.requestId != t.blocks[i].info.requestId
    ensures i < |Apply(t, e).blocks| && Apply(t, e).blocks[i] == t.blocks[i]
  {
    FeedExtends(t, Wire(e));
    if e.ToolArguments? || e.ToolResult? || e.ApprovalResponse? || e.SubagentEvent? {
      var q := if e.ToolArguments? then OpenCall
               else if e.ToolResult? then OpenCallOf(e.callId)
               else if e.SubagentEvent? then CallOf(e.task) else ApprovalOf(e.requestId);
      assert !Matches(t.blocks[i], q);
      assert LastWhere(t.blocks, q) != i;
    }
  }

  lemma EventKeepsAwaiting(c: Core, e: Event)
    requires Awaiting(c)
    ensures Awaiting(EventTaken(c, e))
  {
    var c' := EventTaken(c, e);
    WithoutKeepsOrder(c.approvals, if e.ApprovalResponse? then e.requestId else "");
    forall p | p in c'.approvals
      ensures Undecided(c'.transcript, p)
    {
      assert p in c.approvals && Undecided(c.transcript, p);
      EventLeavesApprovals(c.transcript, e, p.block);
    }
  }

  /** Blocks that were there stay, and the approvals with them. */
  lemma StillAwaiting(c: Core, c': Core)
    requires Awaiting(c) && c.transcript.blocks <= c'.transcript.blocks
    requires c'.approvals == c.approvals || c'.approvals == []
    ensures Awaiting(c')
  {
    forall p | p in c'.approvals
      ensures Undecided(c'.transcript, p)
    {
      assert Undecided(c.transcript, p);
    }
  }

  lemma RequestExtends(c: Core, rpcId: string, message: Event)
    ensures c.transcript.blocks <= RequestTaken(c, rpcId, message).transcript.blocks
  {
  }

  lemma OneMoreAwaiting(c: Core, p: Pending, t: State)
    requires Awaiting(c) && c.transcript.blocks <= t.blocks
    requires p.block == |c.transcript.blocks| && Undecided(t, p)
    ensures Awaiting(c.(approvals := c.approvals + [p], transcript := t))
  {
    forall i | 0 <= i < |c.approvals|
      ensures Undecided(t, c.approvals[i]) && c.approvals[i].block < p.block
    {
      assert Undecided(c.transcript, c.approvals[i]);
    }
  }

  lemma RequestKeepsAwaiting(c: Core, rpcId: string, message: Event)
    requires Awaiting(c)
    ensures Awaiting(RequestTaken(c, rpcId, message))
  {
    var t := RequestTaken(c, rpcId, message).transcript;
    RequestExtends(c, rpcId, message);
    if message.ApprovalRequest? && c.phase != Replaying {
      OneMoreAwaiting(c, Pending(rpcId, message.info.requestId, |c.transcript.blocks|), t);
    } else {
      StillAwaiting(c, RequestTaken(c, rpcId, message));
    }
  }

  lemma ReceiveKeepsAwaiting(c: Core, i: Inbound)
    requires Awaiting(c)
    ensures Awaiting(Received(c, i))
  {
    match i
    case Happened(e) => EventKeepsAwaiting(c, e);
    case Requested(rpcId, message) => RequestKeepsAwaiting(c, rpcId, message);
    case _ => StillAwaiting(c, Received(c, i));
  }

  lemma AnswerKeepsAwaiting(c: Core, answer: Transcripts.Answer)
    requires Awaiting(c)
    ensures Awaiting(AnsweredOldest(c, answer))
  {
    if c.approvals != [] {
      var c' := AnsweredOldest(c, answer);
      var oldest := c.approvals[0];
      assert Undecided(c.transcript, oldest);
      forall i | 0 <= i < |c'.approvals|
        ensures Undecided(c'.transcript, c'.approvals[i])
      {
        assert c'.approvals[i] == c.approvals[i + 1] && Undecided(c.transcript, c.approvals[i + 1]);
        assert FirstApproval(c.transcript.blocks, oldest.requestId) <= oldest.block < c.approvals[i + 1].block;
      }
    }
  }

  lemma StepKeepsAwaiting(c: Core, a: Action)
    requires Awaiting(c) && Coupled(c)
    ensures Awaiting(Step(c, a))
  {
    match a
    case Deliver(i) => ReceiveKeepsAwaiting(c, i);
    case Answer(answer) => AnswerKeepsAwaiting(c, answer);
    case _ =>
      if !(a.Reconnect? && CanReconnect(c)) {
        StillAwaiting(c, Step(c, a));
      }
  }

  /** In every run: pending approvals stand in the order of their blocks, none decided. */
  lemma {:induction false} RunKeepsAwaiting(sessionId: Option<string>, wayBack: bool, actions: seq<Action>)
    ensures Awaiting(Run(Launched(sessionId, wayBack), actions))
  {
    if actions != [] {
      var before := actions[..|actions| - 1];
      RunKeepsAwaiting(sessionId, wayBack, before);
      RunKeepsCoupled(sessionId, wayBack, before);
      StepKeepsAwaiting(Run(Launched(sessionId, wayBack), before), actions[|actions| - 1]);
    }
  }

  // ---------------------------------------------------------------- which block is decided

  predicate EarlierTwin(blocks: seq<Block>, p: Pending) {
    exists j :: 0 <= j < p.block && j < |blocks| && Matches(blocks[j], ApprovalOf(p.requestId))
  }

  lemma DecidedAtOwnBlock(blocks: seq<Block>, p: Pending, answer: Transcripts.Answer)
    requires p.block < |blocks| && Matches(blocks[p.block], ApprovalOf(p.requestId))
    requires blocks[p.block].response.None?
    ensures var after := Decided(blocks, FirstApproval(blocks, p.requestId), answer);
            && |after| == |blocks|
            && (after == blocks[p.block := ApprovalBlock(blocks[p.block].info, Some(answer))] <==> !EarlierTwin(blocks, p))
            && (EarlierTwin(blocks, p) ==> after[p.block] == blocks[p.block])
  {
    var first := FirstApproval(blocks, p.requestId);
    var after, own := Decided(blocks, first, answer), blocks[p.block := ApprovalBlock(blocks[p.block].info, Some(answer))];
    assert first <= p.block;
    if first < p.block {
      assert Matches(blocks[first], ApprovalOf(p.requestId));
      assert after[p.block] == blocks[p.block] && own[p.block].response == Some(answer);
    }
  }

  /** In every reachable state, answering the oldest approval decides the very block it was
      shown in exactly when no earlier block carries the same request; otherwise that block
      goes on showing no decision. */
  lemma AnswerDecidesItsOwnBlock(sessionId: Option<string>, wayBack: bool, actions: seq<Action>,
                                 answer: Transcripts.Answer)
    requires Run(Launched(sessionId, wayBack), actions).approvals != []
    ensures var c := Run(Launched(sessionId, wayBack), actions);
            var p, blocks, after := c.approvals[0], c.transcript.blocks, AnsweredOldest(c, answer).transcript.blocks;
            && Undecided(c.transcript, p) && |after| == |blocks|
            && (after == blocks[p.block := ApprovalBlock(blocks[p.block].info, Some(answer))]
                <==> !EarlierTwin(blocks, p))
            && (EarlierTwin(blocks, p) ==> after[p.block] == blocks[p.block])
  {
    RunKeepsAwaiting(sessionId, wayBack, actions);
    var c := Run(Launched(sessionId, wayBack), actions);
    assert Undecided(c.transcript, c.approvals[0]);
    DecidedAtOwnBlock(c.transcript.blocks, c.approvals[0], answer);
  }

  function Twin(): ApprovalInfo {
    ApprovalInfo("r", "", "", "")
  }

  /** One approval pends, at block 1, and whatever the answer, block 0 shows it. */
  ghost predicate WrongBlockDecided(c: Core) {
    && |c.approvals| == 1 && c.approvals[0].block == 1
    && forall answer :: AnsweredOldest(c, answer).transcript.blocks
                        == [ApprovalBlock(Twin(), Some(answer)), ApprovalBlock(Twin(), None)]
  }

  lemma TwinsDecideTheFirst(c: Core)
    requires c.approvals == [Pending("b", "r", 1)]
    requires c.transcript.blocks == [ApprovalBlock(Twin(), None), ApprovalBlock(Twin(), None)]
    ensures WrongBlockDecided(c)
  {
    assert FirstApproval(c.transcript.blocks, "r") == 0;
  }

  /** It does happen: a request shown while history was replayed, and asked again after. */
  lemma ReplayedTwinTakesTheAnswer() returns (actions: seq<Action>)
    ensures WrongBlockDecided(Run(Launched(None, true), actions))
  {
    var reply := Reply(None, None, None, None, None, None);
    var c0 := Launched(None, true);
    var first := [] + [Deliver(Answered(1, Some(reply), None))];
    var second := first + [Deliver(Requested("a", ApprovalRequest(Twin())))];
    var third := second + [Deliver(Answered(2, Some(reply), None))];
    RunSnoc(c0, [], Deliver(Answered(1, Some(reply), None)));
    RunSnoc(c0, first, Deliver(Requested("a", ApprovalRequest(Twin()))));
    RunSnoc(c0, second, Deliver(Answered(2, Some(reply), None)));
    RunSnoc(c0, third, Deliver(Requested("b", ApprovalRequest(Twin()))));
    actions := third + [Deliver(Requested("b", ApprovalRequest(Twin())))];
    TwinsDecideTheFirst(Run(c0, actions));
  }

  lemma RunSnoc(c: Core, actions: seq<Action>, a: Action)
    ensures Run(c, actions + [a]) == Step(Run(c, actions), a)
  {
    assert (actions + [a])[..|actions|] == actions;
  }

  // ---------------------------------------------------------------- distinct requests

  /** The requests of the approval blocks, in order. */
  function ApprovalIds(blocks: seq<Block>): seq<string> {
    if blocks == [] then []
    else
      var last := blocks[|blocks| - 1];
      ApprovalIds(blocks[..|blocks| - 1]) + if last.ApprovalBlock? then [last.info.requestId] else []
  }

  predicate Distinct(ids: seq<string>) {
    forall i, j :: 0 <= i < j < |ids| ==> ids[i] != ids[j]
  }

  lemma {:induction false} ShownIsAmongIds(blocks: seq<Block>, i: nat)
    requires i < |blocks| && blocks[i].ApprovalBlock?
    ensures blocks[i].info.requestId in ApprovalIds(blocks)
  {
    if i < |blocks| - 1 {
      ShownIsAmongIds(blocks[..|blocks| - 1], i);
    }
  }

  lemma {:induction false} DistinctIdsTellBlocksApart(blocks: seq<Block>, i: nat, j: nat)
    requires Distinct(ApprovalIds(blocks)) && i < j < |blocks|
    requires blocks[i].ApprovalBlock? && blocks[j].ApprovalBlock?
    ensures blocks[i].info.requestId != blocks[j].info.requestId
  {
    var init := blocks[..|blocks| - 1];
    var ids := ApprovalIds(blocks);
    assert ApprovalIds(init) == ids[..|ApprovalIds(init)|];
    if j < |blocks| - 1 {
      DistinctIdsTellBlocksApart(init, i, j);
    } else {
      ShownIsAmongIds(init, i);
      var k :| 0 <= k < |ApprovalIds(init)| && ApprovalIds(init)[k] == blocks[i].info.requestId;
      assert ids[k] != ids[|ids| - 1];
    }
  }

  predicate SameSubject(a: Block, b: Block) {
    a.ApprovalBlock? == b.ApprovalBlock? && (a.ApprovalBlock? ==> a.info == b.info)
  }

  lemma {:induction false} IdsUnmoved(a: seq<Block>, b: seq<Block>)
    requires |a| == |b| && forall i :: 0 <= i < |a| ==> SameSubject(a[i], b[i])
    ensures ApprovalIds(a) == ApprovalIds(b)
  {
    if a != [] {
      assert SameSubject(a[|a| - 1], b[|b| - 1]);
      IdsUnmoved(a[..|a| - 1], b[..|b| - 1]);
    }
  }

  /** Blocks grown in place, and at most one more that is no approval, ask nothing new. */
  lemma IdsOfExtension(a: seq<Block>, b: seq<Block>)
    requires Extends(a, b) && |b| <= |a| + 1 && (|b| > |a| ==> !b[|a|].ApprovalBlock?)
    ensures ApprovalIds(b) == ApprovalIds(a)
  {
    forall i | 0 <= i < |a|
      ensures SameSubject(a[i], b[..|a|][i])
    {
      assert Grown(a[i], b[i]);
    }
    IdsUnmoved(a, b[..|a|]);
    if |b| == |a| {
      assert b[..|a|] == b;
    } else {
      assert b[..|b| - 1] == b[..|a|];
      assert ApprovalIds(a) + [] == ApprovalIds(a);
    }
  }

  lemma EventAsksNothing(t: State, e: Event)
    ensures ApprovalIds(Apply(t, e).blocks) == ApprovalIds(t.blocks)
  {
    FeedExtends(t, Wire(e));
    if !e.Fragment? {
      OtherInputShape(t, Wire(e));
    }
    IdsOfExtension(t.blocks, Apply(t, e).blocks);
  }

  /** The requests delivered since launch or the last reconnect. */
  function Asked(c: Core, actions: seq<Action>): seq<string> {
    if actions == [] then []
    else
      var init, last := actions[..|actions| - 1], actions[|actions| - 1];
      if last.Deliver? && Run(c, init).connected && last.inbound.Requested? && last.inbound.message.ApprovalRequest?
      then Asked(c, init) + [last.inbound.message.info.requestId]
      else if last.Reconnect? && CanReconnect(Run(c, init)) && last.outcome.Ok? then []
      else Asked(c, init)
  }

  lemma InfoAsksNothing(blocks: seq<Block>, text: string)
    ensures ApprovalIds(blocks + [InfoBlock(text)]) == ApprovalIds(blocks)
  {
    assert (blocks + [InfoBlock(text)])[..|blocks|] == blocks;
    assert ApprovalIds(blocks) + [] == ApprovalIds(blocks);
  }

  lemma ResponseAsksNothing(c: Core, id: nat, result: Option<Reply>, error: Option<RpcError>)
    ensures ApprovalIds(ResponseTaken(c, id, result, error).transcript.blocks) == ApprovalIds(c.transcript.blocks)
  {
    var before, after := c.transcript.blocks, ResponseTaken(c, id, result, error).transcript.blocks;
    if after != before {
      var text := after[|before|].text;
      assert after == before + [InfoBlock(text)];
      InfoAsksNothing(before, text);
    }
  }

  lemma ApprovalIdsPush(blocks: seq<Block>, info: ApprovalInfo)
    ensures ApprovalIds(blocks + [ApprovalBlock(info, None)]) == ApprovalIds(blocks) + [info.requestId]
  {
    assert (blocks + [ApprovalBlock(info, None)])[..|blocks|] == blocks;
  }

  lemma RequestIds(c: Core, rpcId: string, message: Event)
    ensures ApprovalIds(RequestTaken(c, rpcId, message).transcript.blocks)
            == if message.ApprovalRequest? then ApprovalIds(c.transcript.blocks) + [message.info.requestId]
               else ApprovalIds(c.transcript.blocks)
  {
    var before, after := c.transcript.blocks, RequestTaken(c, rpcId, message).transcript.blocks;
    if message.ApprovalRequest? {
      ApprovalIdsPush(before, message.info);
    } else if after != before {
      InfoAsksNothing(before, after[|before|].text);
    }
  }

  lemma ReceivedIds(c: Core, i: Inbound)
    ensures ApprovalIds(Received(c, i).transcript.blocks)
            == if i.Requested? && i.message.ApprovalRequest?
               then ApprovalIds(c.transcript.blocks) + [i.message.info.requestId] else ApprovalIds(c.transcript.blocks)
  {
    match i
    case Happened(e) => EventAsksNothing(c.transcript, e);
    case Requested(rpcId, message) => RequestIds(c, rpcId, message);
    case Answered(id, result, error) => ResponseAsksNothing(c, id, result, error);
    case ProtocolError(text) => InfoAsksNothing(c.transcript.blocks, "wire error: " + text);
    case AgentExited(_) =>
  }

  lemma StepIds(c: Core, a: Action)
    ensures ApprovalIds(Step(c, a).transcript.blocks)
            == if a.Deliver? && c.connected && a.inbound.Requested? && a.inbound.message.ApprovalRequest?
               then ApprovalIds(c.transcript.blocks) + [a.inbound.message.info.requestId]
               else if a.Reconnect? && CanReconnect(c) && a.outcome.Ok? then []
               else ApprovalIds(c.transcript.blocks)
  {
    match a
    case Deliver(i) => ReceivedIds(c, i);
    case Answer(answer) =>
      if c.approvals != [] {
        var at := FirstApproval(c.transcript.blocks, c.approvals[0].requestId);
        DecidedExtends(c.transcript.blocks, at, answer);
        IdsOfExtension(c.transcript.blocks, Decided(c.transcript.blocks, at, answer));
      }
    case _ =>
  }

  lemma {:induction false} IdsAreThoseAsked(sessionId: Option<string>, wayBack: bool, actions: seq<Action>)
    ensures ApprovalIds(Run(Launched(sessionId, wayBack), actions).transcript.blocks)
            == Asked(Launched(sessionId, wayBack), actions)
  {
    if actions != [] {
      var before := actions[..|actions| - 1];
      IdsAreThoseAsked(sessionId, wayBack, before);
      StepIds(Run(Launched(sessionId, wayBack), before), actions[|actions| - 1]);
    }
  }

  /** When the requests delivered since launch or the last reconnect are distinct, every
      pending approval is looked up to its own block, in every reachable state. */
  lemma DistinctRequestsFindTheirOwn(sessionId: Option<string>, wayBack: bool, actions: seq<Action>)
    requires Distinct(Asked(Launched(sessionId, wayBack), actions))
    ensures var c := Run(Launched(sessionId, wayBack), actions);
            forall p :: p in c.approvals ==>
              FirstApproval(c.transcript.blocks, p.requestId) == p.block && !EarlierTwin(c.transcript.blocks, p)
  {
    RunKeepsCoupled(sessionId, wayBack, actions);
    IdsAreThoseAsked(sessionId, wayBack, actions);
    var c := Run(Launched(sessionId, wayBack), actions);
    forall p | p in c.approvals
      ensures FirstApproval(c.transcript.blocks, p.requestId) == p.block && !EarlierTwin(c.transcript.blocks, p)
    {
      assert Anchored(c.transcript, p);
      forall j | 0 <= j < p.block && c.transcript.blocks[j].ApprovalBlock?
        ensures c.transcript.blocks[j].info.requestId != p.requestId
      {
        DistinctIdsTellBlocksApart(c.transcript.blocks, j, p.block);
      }
    }
  }
}
