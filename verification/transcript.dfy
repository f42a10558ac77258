/** The client transcript: how wire events fold into blocks, status and nested subagent
    transcripts. Tab titles (cut out of JSON argument text) are not modelled. */
module Transcripts {
  import opened Wrappers
  import opened Messages

  const MAX_SUBAGENT_TOOLS_SHOWN: nat := 4

  datatype UserInput = Typed(text: string) | Parts(parts: seq<ContentPart>)

  datatype ToolReturn = ToolReturn(isError: bool, output: string)

  datatype Answer = Approve | ApproveForSession | Reject

  datatype ApprovalInfo = ApprovalInfo(requestId: string, sender: string, action: string, description: string)

  datatype Status = Status(
    model: Option<string>,
    contextUsage: Option<real>,
    contextTokens: Option<int>,
    maxContextTokens: Option<int>,
    yoloEnabled: Option<bool>,
    thinking: Option<bool>)

  datatype Event =
    | TurnBegin(input: UserInput)
    | SteerInput(input: UserInput)
    | TurnEnd
    | StepBegin
    | StepInterrupted
    | CompactionBegin
    | CompactionEnd
    | StatusUpdate(update: Status)
    | Fragment(part: ContentPart)
    | ToolBegin(call: ToolCall)
    | ToolArguments(arguments: Option<string>)
    | ToolResult(callId: string, result: ToolReturn)
    | SubagentEvent(task: string, inner: Event)
    | Notification(title: string, body: string)
    | ApprovalResponse(requestId: string, response: Answer)
    | ApprovalRequest(info: ApprovalInfo)
    | ToolCallRequest(name: string)

  datatype Summary = Summary(events: nat, recentTools: seq<string>)

  datatype Block =
    | UserBlock(text: string, steer: bool)
    | AssistantBlock(text: string)
    | ThinkingBlock(text: string)
    | ToolBlock(call: ToolCall, result: Option<ToolReturn>, subagent: Option<Summary>, abandoned: bool)
    | ApprovalBlock(info: ApprovalInfo, response: Option<Answer>)
    | InfoBlock(text: string)

  datatype Subagent = Subagent(task: string, transcript: State, done: bool)

  datatype State = State(blocks: seq<Block>, status: Status, subagents: seq<Subagent>, version: nat)

  const EmptyStatus := Status(None, None, None, None, None, None)
  const EmptyState := State([], EmptyStatus, [], 0)

  // ---------------------------------------------------------------- pieces

  function PartLabel(p: ContentPart): string {
    match p
    case Text(_, text) => text
    case Think(_, _, _) => "[thinking]"
    case ImageUrl(_, _) => "[image]"
    case AudioUrl(_, _) => "[audio]"
    case VideoUrl(_, _) => "[video]"
  }

  function JoinLines(parts: seq<ContentPart>): string {
    if parts == [] then ""
    else if |parts| == 1 then PartLabel(parts[0])
    else PartLabel(parts[0]) + "\n" + JoinLines(parts[1..])
  }

  function InputText(input: UserInput): string {
    match input
    case Typed(text) => text
    case Parts(parts) => JoinLines(parts)
  }

  function Newer<T>(update: Option<T>, old_: Option<T>): Option<T> {
    if update.Some? then update else old_
  }

  /** A field the update leaves out is unchanged. */
  function MergedStatus(s: Status, u: Status): Status {
    Status(Newer(u.model, s.model), Newer(u.contextUsage, s.contextUsage), Newer(u.contextTokens, s.contextTokens),
           Newer(u.maxContextTokens, s.maxContextTokens), Newer(u.yoloEnabled, s.yoloEnabled),
           Newer(u.thinking, s.thinking))
  }

  /** What a reverse search through the blocks looks for. */
  datatype Query = OpenCall | OpenCallOf(id: string) | CallOf(id: string) | ApprovalOf(id: string)

  predicate Matches(b: Block, q: Query) {
    match q
    case OpenCall => b.ToolBlock? && b.result.None?
    case OpenCallOf(id) => b.ToolBlock? && b.call.id == id && b.result.None?
    case CallOf(id) => b.ToolBlock? && b.call.id == id
    case ApprovalOf(id) => b.ApprovalBlock? && b.info.requestId == id
  }

  /** The newest block that matches, or -1. */
  function LastWhere(blocks: seq<Block>, q: Query): (r: int)
    ensures -1 <= r < |blocks|
    ensures r >= 0 ==> Matches(blocks[r], q)
    ensures forall j :: r < j < |blocks| ==> !Matches(blocks[j], q)
  {
    if blocks == [] then -1
    else if Matches(blocks[|blocks| - 1], q) then |blocks| - 1
    else LastWhere(blocks[..|blocks| - 1], q)
  }

  function Abandoned(b: Block): Block {
    if b.ToolBlock? && b.result.None? && !b.abandoned then b.(abandoned := true) else b
  }

  function AbandonAll(blocks: seq<Block>): seq<Block> {
    seq(|blocks|, i requires 0 <= i < |blocks| => Abandoned(blocks[i]))
  }

  predicate SomethingOpen(blocks: seq<Block>) {
    exists i :: 0 <= i < |blocks| && blocks[i].ToolBlock? && blocks[i].result.None? && !blocks[i].abandoned
  }

  function WithFragment(blocks: seq<Block>, p: ContentPart): seq<Block> {
    var n := |blocks|;
    match p
    case Text(_, text) =>
      if n > 0 && blocks[n - 1].AssistantBlock?
      then blocks[n - 1 := AssistantBlock(blocks[n - 1].text + text)] else blocks + [AssistantBlock(text)]
    case Think(_, think, _) =>
      if n > 0 && blocks[n - 1].ThinkingBlock?
      then blocks[n - 1 := ThinkingBlock(blocks[n - 1].text + think)] else blocks + [ThinkingBlock(think)]
    case _ => blocks + [InfoBlock(PartLabel(p))]
  }

  /** One more event on a call's inline summary; inner calls are listed, the newest four. */
  function Summarised(s: Option<Summary>, inner: Event): Summary {
    var before := if s.Some? then s.value else Summary(0, []);
    var tools := if inner.ToolBegin? then before.recentTools + [inner.call.callee.name] else before.recentTools;
    Summary(before.events + 1,
            if inner.ToolBegin? && |tools| > MAX_SUBAGENT_TOOLS_SHOWN then tools[1..] else tools)
  }

  function WithSummary(blocks: seq<Block>, task: string, inner: Event): seq<Block> {
    var i := LastWhere(blocks, CallOf(task));
    if i < 0 then blocks else blocks[i := blocks[i].(subagent := Some(Summarised(blocks[i].subagent, inner)))]
  }

  function FindTask(subs: seq<Subagent>, task: string): (r: nat)
    ensures r <= |subs|
    ensures r < |subs| ==> subs[r].task == task
    ensures forall j :: 0 <= j < r ==> subs[j].task != task
  {
    if subs == [] || subs[0].task == task then 0 else 1 + FindTask(subs[1..], task)
  }

  /** The transcript a task's events go to so far. */
  function TranscriptOf(subs: seq<Subagent>, task: string): State {
    var i := FindTask(subs, task);
    if i < |subs| then subs[i].transcript else EmptyState
  }

  /** The task's transcript advanced, as a new entry at the end when it had none. */
  function Advanced(subs: seq<Subagent>, task: string, transcript: State, ended: bool): seq<Subagent> {
    var i := FindTask(subs, task);
    if i < |subs| then subs[i := Subagent(task, transcript, subs[i].done || ended)]
    else subs + [Subagent(task, transcript, ended)]
  }

  // ---------------------------------------------------------------- folding one event

  datatype Change = Change(state: State, changed: bool)

  function Pushed(s: State, b: Block): Change {
    Change(s.(blocks := s.blocks + [b]), true)
  }

  function ReplacedAt(s: State, i: int, b: Block): Change
    requires i < |s.blocks|
  {
    if i < 0 then Change(s, false) else Change(s.(blocks := s.blocks[i := b]), true)
  }

  function Versioned(c: Change): State {
    if c.changed then c.state.(version := c.state.version + 1) else c.state
  }

  function ApplyInner(s: State, e: Event): Change
    decreases e
  {
    match e
    case TurnBegin(input) => Pushed(s, UserBlock(InputText(input), false))
    case SteerInput(input) => Pushed(s, UserBlock(InputText(input), true))
    case TurnEnd => Change(s.(blocks := AbandonAll(s.blocks)), SomethingOpen(s.blocks))
    case StepBegin => Change(s, false)
    case StepInterrupted => Pushed(s.(blocks := AbandonAll(s.blocks)), InfoBlock("step interrupted"))
    case CompactionBegin => Pushed(s, InfoBlock("compacting context..."))
    case CompactionEnd => Pushed(s, InfoBlock("context compacted"))
    case StatusUpdate(update) => Change(s.(status := MergedStatus(s.status, update)), true)
    case Fragment(part) => Change(s.(blocks := WithFragment(s.blocks, part)), true)
    case ToolBegin(call) => Pushed(s, ToolBlock(call, None, None, false))
    case ToolArguments(part) =>
      var i := LastWhere(s.blocks, OpenCall);
      ReplacedAt(s, i, if i < 0 then InfoBlock("") else s.blocks[i].(call := Extended(s.blocks[i].call, part)))
    case ToolResult(id, result) =>
      var i := LastWhere(s.blocks, OpenCallOf(id));
      ReplacedAt(s, i, if i < 0 then InfoBlock("") else s.blocks[i].(result := Some(result)))
    case SubagentEvent(task, inner) =>
      var nested := Versioned(ApplyInner(TranscriptOf(s.subagents, task), inner));
      Change(s.(blocks := WithSummary(s.blocks, task, inner),
                subagents := Advanced(s.subagents, task, nested, inner.TurnEnd?)), true)
    case Notification(title, body) => Pushed(s, InfoBlock(title + ": " + body))
    case ApprovalResponse(id, response) =>
      var i := LastWhere(s.blocks, ApprovalOf(id));
      ReplacedAt(s, i, if i < 0 then InfoBlock("") else ApprovalBlock(s.blocks[i].info, Some(response)))
    case ApprovalRequest(_) => Change(s, false)
    case ToolCallRequest(_) => Change(s, false)
  }

  function Apply(s: State, e: Event): State {
    Versioned(ApplyInner(s, e))
  }

  function Deliver(subs: seq<Subagent>, task: string, inner: Event): seq<Subagent> {
    Advanced(subs, task, Apply(TranscriptOf(subs, task), inner), inner.TurnEnd?)
  }

  function Asked(s: State, info: ApprovalInfo): State {
    s.(blocks := s.blocks + [ApprovalBlock(info, None)], version := s.version + 1)
  }

  /** What reaches a transcript: wire events, and approval requests pushed by the frontend. */
  datatype Input = Wire(event: Event) | Ask(info: ApprovalInfo)

  function Feed(s: State, input: Input): State {
    match input
    case Wire(e) => Apply(s, e)
    case Ask(info) => Asked(s, info)
  }

  function Fold(inputs: seq<Input>): State {
    if inputs == [] then EmptyState else Feed(Fold(inputs[..|inputs| - 1]), inputs[|inputs| - 1])
  }

  // ---------------------------------------------------------------- demultiplexing

  /** The inner events addressed to one subagent, in order. */
  function InnerOf(inputs: seq<Input>, task: string): seq<Input> {
    if inputs == [] then []
    else
      var last, before := inputs[|inputs| - 1], InnerOf(inputs[..|inputs| - 1], task);
      if last.Wire? && last.event.SubagentEvent? && last.event.task == task
      then before + [Wire(last.event.inner)] else before
  }

  /** The tasks addressed, each once, in the order of their first event. */
  function FirstSeen(inputs: seq<Input>): (r: seq<string>)
    ensures forall i, j :: 0 <= i < j < |r| ==> r[i] != r[j]
  {
    if inputs == [] then []
    else
      var last, before := inputs[|inputs| - 1], FirstSeen(inputs[..|inputs| - 1]);
      if last.Wire? && last.event.SubagentEvent? && last.event.task !in before
      then before + [last.event.task] else before
  }

  predicate Ended(inputs: seq<Input>) {
    Wire(TurnEnd) in inputs
  }

  /** A subagent entry is the fold of exactly the inner events sent to it. */
  ghost predicate IsFoldOf(sub: Subagent, inputs: seq<Input>) {
    && sub.transcript == Fold(InnerOf(inputs, sub.task))
    && (sub.done <==> Ended(InnerOf(inputs, sub.task)))
  }

  lemma OtherEventsLeaveSubagents(s: State, input: Input)
    requires !(input.Wire? && input.event.SubagentEvent?)
    ensures Feed(s, input).subagents == s.subagents
  {
  }

  lemma FoldSnoc(inputs: seq<Input>, input: Input)
    ensures Fold(inputs + [input]) == Feed(Fold(inputs), input)
  {
    assert (inputs + [input])[..|inputs|] == inputs;
  }

  lemma {:induction false} UnseenHasNoInner(inputs: seq<Input>, task: string)
    requires task !in FirstSeen(inputs)
    ensures InnerOf(inputs, task) == []
  {
    if inputs != [] {
      UnseenHasNoInner(inputs[..|inputs| - 1], task);
    }
  }

  /** The entries of a subagent list are the folds of what was sent to them, in first-seen order. */
  ghost predicate Demultiplexed(subs: seq<Subagent>, inputs: seq<Input>) {
    && |subs| == |FirstSeen(inputs)|
    && forall i :: 0 <= i < |subs| ==> subs[i].task == FirstSeen(inputs)[i] && IsFoldOf(subs[i], inputs)
  }

  lemma InnerOfSnoc(before: seq<Input>, last: Input, task: string)
    ensures InnerOf(before + [last], task)
            == if last.Wire? && last.event.SubagentEvent? && last.event.task == task
               then InnerOf(before, task) + [Wire(last.event.inner)] else InnerOf(before, task)
    ensures FirstSeen(before + [last])
            == if last.Wire? && last.event.SubagentEvent? && last.event.task !in FirstSeen(before)
               then FirstSeen(before) + [last.event.task] else FirstSeen(before)
  {
    assert (before + [last])[..|before|] == before;
  }

  /** Where a task stands before its next event. */
  lemma SentSoFar(subs: seq<Subagent>, before: seq<Input>, task: string)
    requires Demultiplexed(subs, before)
    ensures TranscriptOf(subs, task) == Fold(InnerOf(before, task))
    ensures var at := FindTask(subs, task);
            (at < |subs| && subs[at].done) <==> Ended(InnerOf(before, task))
  {
    var at := FindTask(subs, task);
    if at == |subs| {
      assert task !in FirstSeen(before);
      UnseenHasNoInner(before, task);
    } else {
      assert IsFoldOf(subs[at], before);
    }
  }

  lemma EndedSnoc(sent: seq<Input>, inner: Event)
    ensures Ended(sent + [Wire(inner)]) <==> Ended(sent) || inner.TurnEnd?
  {
  }

  /** The entry an event is delivered to folds one input more. */
  lemma AdvancedEntry(subs: seq<Subagent>, before: seq<Input>, task: string, inner: Event, at: nat)
    requires Demultiplexed(subs, before) && at == FindTask(subs, task)
    ensures at < |Deliver(subs, task, inner)|
    ensures Deliver(subs, task, inner)[at].task == task
    ensures IsFoldOf(Deliver(subs, task, inner)[at], before + [Wire(SubagentEvent(task, inner))])
  {
    var sent := InnerOf(before, task);
    SentSoFar(subs, before, task);
    InnerOfSnoc(before, Wire(SubagentEvent(task, inner)), task);
    FoldSnoc(sent, Wire(inner));
    EndedSnoc(sent, inner);
    var entry := Deliver(subs, task, inner)[at];
    assert entry.transcript == Apply(TranscriptOf(subs, task), inner);
  }

  lemma DeliverIsFold(subs: seq<Subagent>, before: seq<Input>, task: string, inner: Event)
    requires Demultiplexed(subs, before)
    ensures Demultiplexed(Deliver(subs, task, inner), before + [Wire(SubagentEvent(task, inner))])
  {
    var last := Wire(SubagentEvent(task, inner));
    var r, at := Deliver(subs, task, inner), FindTask(subs, task);
    AdvancedEntry(subs, before, task, inner, at);
    InnerOfSnoc(before, last, task);
    forall i | 0 <= i < |r|
      ensures r[i].task == FirstSeen(before + [last])[i] && IsFoldOf(r[i], before + [last])
    {
      if i != at {
        InnerOfSnoc(before, last, r[i].task);
      }
    }
  }

  /** Demultiplexing. After any inputs the subagents are those addressed, once each, in
      first-seen order; each nested transcript is the fold from empty of the inner events
      addressed to its id (so, recursively, are those nested in it); and it is done exactly
      when one of those ended its turn. */
  lemma {:induction false} Demultiplexes(inputs: seq<Input>)
    ensures Demultiplexed(Fold(inputs).subagents, inputs)
  {
    if inputs != [] {
      var before, last := inputs[..|inputs| - 1], inputs[|inputs| - 1];
      Demultiplexes(before);
      assert inputs == before + [last];
      if last.Wire? && last.event.SubagentEvent? {
        DeliverIsFold(Fold(before).subagents, before, last.event.task, last.event.inner);
      } else {
        OtherEventsLeaveSubagents(Fold(before), last);
        OtherInputsAddressNone(Fold(before).subagents, before, last);
      }
    }
  }

  lemma OtherInputsAddressNone(subs: seq<Subagent>, before: seq<Input>, last: Input)
    requires Demultiplexed(subs, before) && !(last.Wire? && last.event.SubagentEvent?)
    ensures Demultiplexed(subs, before + [last])
  {
    InnerOfSnoc(before, last, "");
    forall i | 0 <= i < |subs|
      ensures IsFoldOf(subs[i], before + [last])
    {
      InnerOfSnoc(before, last, subs[i].task);
    }
  }

  // ---------------------------------------------------------------- non-interference

  function Unsummarised(b: Block): Block {
    if b.ToolBlock? then b.(subagent := None) else b
  }

  function Erased(blocks: seq<Block>): seq<Block> {
    seq(|blocks|, i requires 0 <= i < |blocks| => Unsummarised(blocks[i]))
  }

  function WithoutSubagents(inputs: seq<Input>): seq<Input> {
    if inputs == [] then []
    else
      var last, before := inputs[|inputs| - 1], WithoutSubagents(inputs[..|inputs| - 1]);
      if last.Wire? && last.event.SubagentEvent? then before else before + [last]
  }

  /** A search finds the same block whatever the summaries say. */
  lemma SearchIgnoresSummaries(a: seq<Block>, b: seq<Block>, q: Query)
    requires Erased(a) == Erased(b)
    ensures LastWhere(a, q) == LastWhere(b, q)
  {
    assert |a| == |Erased(a)| == |Erased(b)| == |b|;
    forall j | 0 <= j < |a|
      ensures Matches(a[j], q) == Matches(b[j], q)
    {
      assert Unsummarised(a[j]) == Erased(a)[j] == Erased(b)[j] == Unsummarised(b[j]);
    }
  }

  lemma ErasedUpdate(a: seq<Block>, b: seq<Block>, i: int, x: Block, y: Block)
    requires Erased(a) == Erased(b) && 0 <= i < |a| && |a| == |b|
    requires Unsummarised(x) == Unsummarised(y)
    ensures Erased(a[i := x]) == Erased(b[i := y])
  {
    assert Erased(a[i := x]) == Erased(a)[i := Unsummarised(x)];
    assert Erased(b[i := y]) == Erased(b)[i := Unsummarised(y)];
  }

  lemma ErasedAppend(a: seq<Block>, b: seq<Block>, x: Block)
    requires Erased(a) == Erased(b)
    ensures Erased(a + [x]) == Erased(b + [x])
  {
    assert Erased(a + [x]) == Erased(a) + [Unsummarised(x)];
    assert Erased(b + [x]) == Erased(b) + [Unsummarised(x)];
  }

  ghost predicate Alike(s: State, t: State) {
    Erased(s.blocks) == Erased(t.blocks) && s.status == t.status
  }

  lemma AlikeAt(s: State, t: State, i: int)
    requires Alike(s, t) && 0 <= i < |s.blocks|
    ensures |s.blocks| == |t.blocks| && Unsummarised(s.blocks[i]) == Unsummarised(t.blocks[i])
  {
    assert |Erased(s.blocks)| == |Erased(t.blocks)|;
    assert Erased(s.blocks)[i] == Erased(t.blocks)[i];
  }

  lemma AbandonKeepsAlike(s: State, t: State)
    requires Alike(s, t)
    ensures Erased(AbandonAll(s.blocks)) == Erased(AbandonAll(t.blocks))
  {
    assert |Erased(s.blocks)| == |Erased(t.blocks)|;
    forall i | 0 <= i < |s.blocks|
      ensures Erased(AbandonAll(s.blocks))[i] == Erased(AbandonAll(t.blocks))[i]
    {
      AlikeAt(s, t, i);
    }
  }

  lemma FragmentKeepsAlike(s: State, t: State, p: ContentPart)
    requires Alike(s, t)
    ensures Erased(WithFragment(s.blocks, p)) == Erased(WithFragment(t.blocks, p))
  {
    var n := |s.blocks|;
    assert |Erased(s.blocks)| == |Erased(t.blocks)|;
    if n > 0 {
      AlikeAt(s, t, n - 1);
    }
    if p.Text? && n > 0 && s.blocks[n - 1].AssistantBlock? {
      var b := AssistantBlock(s.blocks[n - 1].text + p.text);
      ErasedUpdate(s.blocks, t.blocks, n - 1, b, b);
    } else if p.Think? && n > 0 && s.blocks[n - 1].ThinkingBlock? {
      var b := ThinkingBlock(s.blocks[n - 1].text + p.think);
      ErasedUpdate(s.blocks, t.blocks, n - 1, b, b);
    } else {
      ErasedAppend(s.blocks, t.blocks,
                   match p case Text(_, x) => AssistantBlock(x) case Think(_, x, _) => ThinkingBlock(x)
                   case _ => InfoBlock(PartLabel(p)));
    }
  }

  lemma SearchedKeepsAlike(s: State, t: State, e: Event)
    requires Alike(s, t) && (e.ToolArguments? || e.ToolResult? || e.ApprovalResponse?)
    ensures Alike(Apply(s, e), Apply(t, e))
  {
    var q := if e.ToolArguments? then OpenCall
             else if e.ToolResult? then OpenCallOf(e.callId) else ApprovalOf(e.requestId);
    SearchIgnoresSummaries(s.blocks, t.blocks, q);
    var i := LastWhere(s.blocks, q);
    if i >= 0 {
      AlikeAt(s, t, i);
      ErasedUpdate(s.blocks, t.blocks, i, Apply(s, e).blocks[i], Apply(t, e).blocks[i]);
    }
  }

  lemma OtherKeepsAlike(s: State, t: State, input: Input)
    requires Alike(s, t) && !(input.Wire? && input.event.SubagentEvent?)
    ensures Alike(Feed(s, input), Feed(t, input))
  {
    if input.Ask? {
      ErasedAppend(s.blocks, t.blocks, ApprovalBlock(input.info, None));
    } else {
      var e := input.event;
      if e.ToolArguments? || e.ToolResult? || e.ApprovalResponse? {
        SearchedKeepsAlike(s, t, e);
      } else if e.Fragment? {
        FragmentKeepsAlike(s, t, e.part);
      } else if e.TurnEnd? || e.StepInterrupted? {
        AbandonKeepsAlike(s, t);
        ErasedAppend(AbandonAll(s.blocks), AbandonAll(t.blocks), InfoBlock("step interrupted"));
      } else {
        var n, c := |s.blocks|, ApplyInner(s, e);
        if |c.state.blocks| > n {
          ErasedAppend(s.blocks, t.blocks, c.state.blocks[n]);
        }
      }
    }
  }

  lemma SubagentEventKeepsAlike(s: State, t: State, e: Event)
    requires Alike(s, t) && e.SubagentEvent?
    ensures Alike(Apply(s, e), t)
  {
    var i := LastWhere(s.blocks, CallOf(e.task));
    if i >= 0 {
      var b := s.blocks[i];
      ErasedUpdate(s.blocks, s.blocks, i, b.(subagent := Some(Summarised(b.subagent, e.inner))), b);
      assert s.blocks[i := b] == s.blocks;
    }
  }

  /** Non-interference: but for inline summaries, the parent's blocks and status are those of
      the inputs with every subagent event taken out. */
  lemma {:induction false} SubagentsDoNotInterfere(inputs: seq<Input>)
    ensures Alike(Fold(inputs), Fold(WithoutSubagents(inputs)))
  {
    if inputs != [] {
      var before, last := inputs[..|inputs| - 1], inputs[|inputs| - 1];
      SubagentsDoNotInterfere(before);
      if last.Wire? && last.event.SubagentEvent? {
        SubagentEventKeepsAlike(Fold(before), Fold(WithoutSubagents(before)), last.event);
      } else {
        OtherKeepsAlike(Fold(before), Fold(WithoutSubagents(before)), last);
        FoldSnoc(WithoutSubagents(before), last);
      }
    }
  }

  // ---------------------------------------------------------------- whole-run laws

  /** What may become of a block: its kind, a user line, an info line and an approval's
      subject are fixed; texts and arguments only grow at the end; a result, once there, stays. */
  ghost predicate Grown(a: Block, b: Block) {
    match a
    case UserBlock(_, _) => b == a
    case InfoBlock(_) => b == a
    case AssistantBlock(text) => b.AssistantBlock? && text <= b.text
    case ThinkingBlock(text) => b.ThinkingBlock? && text <= b.text
    case ToolBlock(call, result, _, abandoned) =>
      && b.ToolBlock?
      && b.call.(callee := call.callee) == call && b.call.callee.name == call.callee.name
      && (call.callee.arguments.Some? ==>
            b.call.callee.arguments.Some? && call.callee.arguments.value <= b.call.callee.arguments.value)
      && (result.Some? ==> b.result == result && b.call == call)
      && (abandoned ==> b.abandoned)
    case ApprovalBlock(info, _) => b.ApprovalBlock? && b.info == info
  }

  ghost predicate Extends(a: seq<Block>, b: seq<Block>) {
    && |a| <= |b|
    && forall i :: 0 <= i < |a| ==> Grown(a[i], b[i])
  }

  lemma UpdateExtends(a: seq<Block>, i: int, x: Block)
    requires 0 <= i < |a| && Grown(a[i], x)
    ensures Extends(a, a[i := x])
  {
  }

  lemma AbandonExtends(a: seq<Block>)
    ensures Extends(a, AbandonAll(a))
  {
  }

  lemma FragmentExtends(a: seq<Block>, p: ContentPart)
    ensures Extends(a, WithFragment(a, p))
  {
  }

  lemma SearchedExtends(s: State, e: Event)
    requires e.ToolArguments? || e.ToolResult? || e.ApprovalResponse?
    ensures Extends(s.blocks, Apply(s, e).blocks)
  {
    var q := if e.ToolArguments? then OpenCall
             else if e.ToolResult? then OpenCallOf(e.callId) else ApprovalOf(e.requestId);
    var i := LastWhere(s.blocks, q);
    if i >= 0 {
      UpdateExtends(s.blocks, i, Apply(s, e).blocks[i]);
    }
  }

  lemma FeedExtends(s: State, input: Input)
    ensures Extends(s.blocks, Feed(s, input).blocks)
  {
    if input.Wire? {
      var e := input.event;
      if e.ToolArguments? || e.ToolResult? || e.ApprovalResponse? {
        SearchedExtends(s, e);
      } else if e.Fragment? {
        FragmentExtends(s.blocks, e.part);
      } else if e.TurnEnd? || e.StepInterrupted? {
        AbandonExtends(s.blocks);
      } else if e.SubagentEvent? {
        var i := LastWhere(s.blocks, CallOf(e.task));
        if i >= 0 {
          UpdateExtends(s.blocks, i, Apply(s, e).blocks[i]);
        }
      }
    }
  }

  lemma ExtendsTransitive(a: seq<Block>, b: seq<Block>, c: seq<Block>)
    requires Extends(a, b) && Extends(b, c)
    ensures Extends(a, c)
  {
    forall i | 0 <= i < |a|
      ensures Grown(a[i], c[i])
    {
      assert Grown(a[i], b[i]) && Grown(b[i], c[i]);
    }
  }

  /** The block list is append-only over whole runs. */
  lemma {:induction false} BlocksAreAppendOnly(inputs: seq<Input>, n: nat)
    requires n <= |inputs|
    ensures Extends(Fold(inputs[..n]).blocks, Fold(inputs).blocks)
    decreases |inputs|
  {
    if n == |inputs| {
      assert inputs[..n] == inputs;
    } else {
      var before := inputs[..|inputs| - 1];
      BlocksAreAppendOnly(before, n);
      assert before[..n] == inputs[..n];
      FeedExtends(Fold(before), inputs[|inputs| - 1]);
      ExtendsTransitive(Fold(inputs[..n]).blocks, Fold(before).blocks, Fold(inputs).blocks);
    }
  }

  /** Whatever changes, `version` rises; when nothing changes it stays. */
  lemma VersionTracksChange(s: State, input: Input)
    ensures Feed(s, input).version == s.version || Feed(s, input).version == s.version + 1
    ensures Feed(s, input) != s ==> Feed(s, input).version > s.version
  {
    if input.Wire? && input.event.TurnEnd? && !SomethingOpen(s.blocks) {
      assert AbandonAll(s.blocks) == s.blocks;
    }
  }

  /** No live call outlasts the end of a turn or an interrupted step. */
  lemma NothingOpenAfterEnd(s: State, e: Event)
    requires e.TurnEnd? || e.StepInterrupted?
    ensures !SomethingOpen(Apply(s, e).blocks)
  {
  }

  function AssistantText(blocks: seq<Block>): string {
    if blocks == [] then ""
    else
      var last := blocks[|blocks| - 1];
      AssistantText(blocks[..|blocks| - 1]) + if last.AssistantBlock? then last.text else ""
  }

  function ThinkingText(blocks: seq<Block>): string {
    if blocks == [] then ""
    else
      var last := blocks[|blocks| - 1];
      ThinkingText(blocks[..|blocks| - 1]) + if last.ThinkingBlock? then last.text else ""
  }

  function TextReceived(inputs: seq<Input>): string {
    if inputs == [] then ""
    else
      var last := inputs[|inputs| - 1];
      TextReceived(inputs[..|inputs| - 1])
      + if last.Wire? && last.event.Fragment? && last.event.part.Text? then last.event.part.text else ""
  }

  function ThinkingReceived(inputs: seq<Input>): string {
    if inputs == [] then ""
    else
      var last := inputs[|inputs| - 1];
      ThinkingReceived(inputs[..|inputs| - 1])
      + if last.Wire? && last.event.Fragment? && last.event.part.Think? then last.event.part.think else ""
  }

  predicate SameText(a: Block, b: Block) {
    && (if a.AssistantBlock? then b == a else !b.AssistantBlock?)
    && (if a.ThinkingBlock? then b == a else !b.ThinkingBlock?)
  }

  /** Replacing blocks by others of the same text leaves the texts alone. */
  lemma {:induction false} TextUnmoved(a: seq<Block>, b: seq<Block>)
    requires |a| == |b| && forall i :: 0 <= i < |a| ==> SameText(a[i], b[i])
    ensures AssistantText(a) == AssistantText(b) && ThinkingText(a) == ThinkingText(b)
  {
    if a != [] {
      TextUnmoved(a[..|a| - 1], b[..|b| - 1]);
      assert SameText(a[|a| - 1], b[|b| - 1]);
    }
  }

  lemma TextPushed(a: seq<Block>, b: Block)
    ensures AssistantText(a + [b]) == AssistantText(a) + if b.AssistantBlock? then b.text else ""
    ensures ThinkingText(a + [b]) == ThinkingText(a) + if b.ThinkingBlock? then b.text else ""
  {
    assert (a + [b])[..|a|] == a;
  }

  ghost predicate NoAdjacent(blocks: seq<Block>) {
    forall i :: 0 <= i < |blocks| - 1 ==>
      && !(blocks[i].AssistantBlock? && blocks[i + 1].AssistantBlock?)
      && !(blocks[i].ThinkingBlock? && blocks[i + 1].ThinkingBlock?)
  }

  lemma TextOfLast(blocks: seq<Block>, b: Block)
    requires blocks != []
    ensures var n := |blocks|;
            && AssistantText(blocks[n - 1 := b])
               == AssistantText(blocks[..n - 1]) + (if b.AssistantBlock? then b.text else "")
            && ThinkingText(blocks[n - 1 := b])
               == ThinkingText(blocks[..n - 1]) + (if b.ThinkingBlock? then b.text else "")
  {
    var n := |blocks|;
    assert blocks[n - 1 := b][..n - 1] == blocks[..n - 1];
  }

  lemma GrownLast(a: string, b: string, c: string)
    ensures a + (b + c) == a + b + c
    ensures a + b + "" == a + b
  {
  }

  lemma FragmentText(blocks: seq<Block>, p: ContentPart)
    ensures var r := WithFragment(blocks, p);
            && AssistantText(r) == AssistantText(blocks) + (if p.Text? then p.text else "")
            && ThinkingText(r) == ThinkingText(blocks) + (if p.Think? then p.think else "")
  {
    var n, r := |blocks|, WithFragment(blocks, p);
    if |r| == n {
      var init, was := blocks[..n - 1], blocks[n - 1].text;
      TextOfLast(blocks, r[n - 1]);
      if p.Text? {
        GrownLast(AssistantText(init), was, p.text);
      } else {
        GrownLast(ThinkingText(init), was, p.think);
      }
    } else {
      TextPushed(blocks, r[n]);
    }
  }

  lemma FragmentKeepsApart(blocks: seq<Block>, p: ContentPart)
    requires NoAdjacent(blocks)
    ensures NoAdjacent(WithFragment(blocks, p))
  {
  }

  /** Any other input adds at most one block, which is neither, and alters no text. */
  ghost predicate TextAlone(a: seq<Block>, b: seq<Block>) {
    && |a| <= |b| <= |a| + 1
    && (forall i :: 0 <= i < |a| ==> SameText(a[i], b[i]))
    && (|b| > |a| ==> !b[|a|].AssistantBlock? && !b[|a|].ThinkingBlock?)
  }

  lemma OtherInputShape(s: State, input: Input)
    requires !(input.Wire? && input.event.Fragment?)
    ensures TextAlone(s.blocks, Feed(s, input).blocks)
  {
    if input.Wire? {
      var a, b := s.blocks, Apply(s, input.event).blocks;
      match input.event
      case SubagentEvent(task, inner) => assert b == WithSummary(a, task, inner);
      case TurnEnd => assert b == AbandonAll(a);
      case StepInterrupted => assert b == AbandonAll(a) + [InfoBlock("step interrupted")];
      case _ =>
    }
  }

  lemma TextLeftAlone(a: seq<Block>, b: seq<Block>)
    requires TextAlone(a, b) && NoAdjacent(a)
    ensures AssistantText(b) == AssistantText(a) && ThinkingText(b) == ThinkingText(a) && NoAdjacent(b)
  {
    TextUnmoved(a, b[..|a|]);
    if |b| == |a| {
      assert b[..|a|] == b;
    } else {
      TextPushed(b[..|a|], b[|a|]);
      assert b == b[..|a|] + [b[|a|]];
    }
    forall i | 0 <= i < |b| - 1
      ensures !(b[i].AssistantBlock? && b[i + 1].AssistantBlock?)
      ensures !(b[i].ThinkingBlock? && b[i + 1].ThinkingBlock?)
    {
      assert SameText(a[i], b[i]);
      if i + 1 < |a| {
        assert SameText(a[i + 1], b[i + 1]);
      }
    }
  }

  /** Conservation: the assistant blocks read together are exactly the text received, the
      thinking blocks the thinking received, and no two of either kind are neighbours. */
  lemma {:induction false} TextIsConserved(inputs: seq<Input>)
    ensures var blocks := Fold(inputs).blocks;
            && AssistantText(blocks) == TextReceived(inputs)
            && ThinkingText(blocks) == ThinkingReceived(inputs)
            && NoAdjacent(blocks)
  {
    if inputs != [] {
      var before, last := inputs[..|inputs| - 1], inputs[|inputs| - 1];
      TextIsConserved(before);
      if last.Wire? && last.event.Fragment? {
        FragmentText(Fold(before).blocks, last.event.part);
        FragmentKeepsApart(Fold(before).blocks, last.event.part);
      } else {
        OtherInputShape(Fold(before), last);
        TextLeftAlone(Fold(before).blocks, Fold(inputs).blocks);
      }
    }
  }

  // ---------------------------------------------------------------- the object

  class Transcript {
    var blocks: seq<Block>
    var status: Status
    var subagents: seq<Subagent>
    var version: nat

    constructor (s: State)
      ensures View() == s
    {
      blocks, status, subagents, version := s.blocks, s.status, s.subagents, s.version;
    }

    function View(): State
      reads this
    {
      State(blocks, status, subagents, version)
    }

    method ApplyEvent(e: Event) returns (changed: bool)
      modifies this
      ensures View() == Apply(old(View()), e)
      ensures changed == ApplyInner(old(View()), e).changed
      decreases e, 1
    {
      changed := Inner(e);
      if changed {
        version := version + 1;
      }
    }

    /** Search the blocks newest first. */
    method FindLast(q: Query) returns (r: int)
      ensures r == LastWhere(blocks, q)
    {
      var i := |blocks|;
      while i > 0
        invariant 0 <= i <= |blocks|
        invariant forall j :: i <= j < |blocks| ==> !Matches(blocks[j], q)
      {
        i := i - 1;
        if Matches(blocks[i], q) {
          return i;
        }
      }
      return -1;
    }

    method AbandonOpenToolCalls() returns (changed: bool)
      modifies this`blocks
      ensures blocks == AbandonAll(old(blocks))
      ensures changed == SomethingOpen(old(blocks))
    {
      changed := false;
      var i := 0;
      while i < |blocks|
        invariant 0 <= i <= |blocks| == |old(blocks)|
        invariant forall j :: 0 <= j < i ==> blocks[j] == Abandoned(old(blocks)[j])
        invariant forall j :: i <= j < |blocks| ==> blocks[j] == old(blocks)[j]
        invariant changed == SomethingOpen(old(blocks)[..i])
      {
        ghost var upTo := old(blocks)[..i + 1];
        assert upTo[..i] == old(blocks)[..i] && upTo[i] == blocks[i];
        if blocks[i].ToolBlock? && blocks[i].result.None? && !blocks[i].abandoned {
          blocks := blocks[i := blocks[i].(abandoned := true)];
          changed := true;
        }
        i := i + 1;
      }
      assert old(blocks)[..i] == old(blocks);
      assert blocks == AbandonAll(old(blocks));
    }

    method ApplyContentPart(p: ContentPart)
      modifies this`blocks
      ensures blocks == WithFragment(old(blocks), p)
    {
      var n := |blocks|;
      match p {
        case Text(_, text) =>
          if n > 0 && blocks[n - 1].AssistantBlock? {
            blocks := blocks[n - 1 := AssistantBlock(blocks[n - 1].text + text)];
          } else {
            blocks := blocks + [AssistantBlock(text)];
          }
        case Think(_, think, _) =>
          if n > 0 && blocks[n - 1].ThinkingBlock? {
            blocks := blocks[n - 1 := ThinkingBlock(blocks[n - 1].text + think)];
          } else {
            blocks := blocks + [ThinkingBlock(think)];
          }
        case ImageUrl(_, _) => blocks := blocks + [InfoBlock("[image]")];
        case AudioUrl(_, _) => blocks := blocks + [InfoBlock("[audio]")];
        case VideoUrl(_, _) => blocks := blocks + [InfoBlock("[video]")];
      }
    }

    /** Count the event, and list a tool call, on the parent's block for the task. */
    method Summarise(task: string, inner: Event)
      modifies this`blocks
      ensures blocks == WithSummary(old(blocks), task, inner)
    {
      var at := FindLast(CallOf(task));
      if at >= 0 {
        var summary := if blocks[at].subagent.Some? then blocks[at].subagent.value else Summary(0, []);
        summary := summary.(events := summary.events + 1);
        if inner.ToolBegin? {
          summary := summary.(recentTools := summary.recentTools + [inner.call.callee.name]);
          if |summary.recentTools| > MAX_SUBAGENT_TOOLS_SHOWN {
            summary := summary.(recentTools := summary.recentTools[1..]);
          }
        }
        blocks := blocks[at := blocks[at].(subagent := Some(summary))];
      }
    }

    /** Hand the inner event to the task's own transcript, made on its first event. */
    method Forward(task: string, inner: Event)
      modifies this`subagents
      ensures subagents == Deliver(old(subagents), task, inner)
      decreases inner, 2
    {
      var i := 0;
      while i < |subagents| && subagents[i].task != task
        invariant 0 <= i <= |subagents|
        invariant forall j :: 0 <= j < i ==> subagents[j].task != task
      {
        i := i + 1;
      }
      assert i == FindTask(subagents, task);
      if i == |subagents| {
        subagents := subagents + [Subagent(task, EmptyState, false)];
      }
      var sub := subagents[i];
      if inner.TurnEnd? {
        sub := sub.(done := true);
      }
      var nested := new Transcript(sub.transcript);
      var _ := nested.ApplyEvent(inner);
      subagents := subagents[i := sub.(transcript := nested.View())];
    }

    /** The events that change the newest block of a kind, if there is one. */
    method Amend(e: Event) returns (changed: bool)
      requires e.ToolArguments? || e.ToolResult? || e.ApprovalResponse?
      modifies this`blocks
      ensures View() == ApplyInner(old(View()), e).state
      ensures changed == ApplyInner(old(View()), e).changed
    {
      match e {
        case ToolArguments(part) =>
          var i := FindLast(OpenCall);
          if i < 0 {
            return false;
          }
          blocks := blocks[i := blocks[i].(call := Extended(blocks[i].call, part))];
        case ToolResult(id, result) =>
          var i := FindLast(OpenCallOf(id));
          if i < 0 {
            return false;
          }
          blocks := blocks[i := blocks[i].(result := Some(result))];
        case ApprovalResponse(id, response) =>
          var i := FindLast(ApprovalOf(id));
          if i < 0 {
            return false;
          }
          blocks := blocks[i := ApprovalBlock(blocks[i].info, Some(response))];
      }
      return true;
    }

    method Inner(e: Event) returns (changed: bool)
      modifies this
      ensures View() == ApplyInner(old(View()), e).state
      ensures changed == ApplyInner(old(View()), e).changed
      decreases e, 0
    {
      match e {
        case TurnBegin(input) =>
          blocks := blocks + [UserBlock(InputText(input), false)];
          return true;
        case SteerInput(input) =>
          blocks := blocks + [UserBlock(InputText(input), true)];
          return true;
        case TurnEnd =>
          changed := AbandonOpenToolCalls();
        case StepBegin =>
          return false;
        case StepInterrupted =>
          var _ := AbandonOpenToolCalls();
          blocks := blocks + [InfoBlock("step interrupted")];
          return true;
        case CompactionBegin =>
          blocks := blocks + [InfoBlock("compacting context...")];
          return true;
        case CompactionEnd =>
          blocks := blocks + [InfoBlock("context compacted")];
          return true;
        case StatusUpdate(update) =>
          status := MergedStatus(status, update);
          return true;
        case Fragment(part) =>
          ApplyContentPart(part);
          return true;
        case ToolBegin(call) =>
          blocks := blocks + [ToolBlock(call, None, None, false)];
          return true;
        case ToolArguments(_) =>
          changed := Amend(e);
        case ToolResult(_, _) =>
          changed := Amend(e);
        case SubagentEvent(task, inner) =>
          Summarise(task, inner);
          Forward(task, inner);
          return true;
        case Notification(title, body) =>
          blocks := blocks + [InfoBlock(title + ": " + body)];
          return true;
        case ApprovalResponse(_, _) =>
          changed := Amend(e);
        case ApprovalRequest(_) =>
          return false;
        case ToolCallRequest(_) =>
          return false;
      }
    }

    method PushApproval(info: ApprovalInfo) returns (at: nat)
      modifies this
      ensures View() == Asked(old(View()), info)
      ensures at == |old(blocks)| && blocks[at] == ApprovalBlock(info, None)
    {
      blocks := blocks + [ApprovalBlock(info, None)];
      version := version + 1;
      at := |blocks| - 1;
    }
  }
}
