/** What the blocks of a transcript record: every announcement once and in order, every result
    on its own call, every answer, argument and summary where it belongs. */
module TranscriptRecords {
  import opened Wrappers
  import opened Messages
  import opened Transcripts

  // ---------------------------------------------------------------- announcements

  /** What stays fixed of a block that is not running text. */
  datatype Mark =
    | UserMark(text: string, steer: bool)
    | CallMark(kind: string, id: string, name: string, call: ToolCall)
    | AskMark(info: ApprovalInfo)
    | InfoMark(text: string)

  function Bare(c: ToolCall): ToolCall {
    c.(callee := Callee(c.callee.name, None))
  }

  function MarkOf(b: Block): seq<Mark> {
    match b
    case UserBlock(text, steer) => [UserMark(text, steer)]
    case ToolBlock(c, _, _, _) => [CallMark(c.kind, c.id, c.callee.name, Bare(c))]
    case ApprovalBlock(info, _) => [AskMark(info)]
    case InfoBlock(text) => [InfoMark(text)]
    case _ => []
  }

  function Marks(blocks: seq<Block>): seq<Mark> {
    if blocks == [] then [] else Marks(blocks[..|blocks| - 1]) + MarkOf(blocks[|blocks| - 1])
  }

  /** What an input announces. */
  function Announced(input: Input): seq<Mark> {
    match input
    case Ask(info) => [AskMark(info)]
    case Wire(e) =>
      match e
      case TurnBegin(text) => [UserMark(InputText(text), false)]
      case SteerInput(text) => [UserMark(InputText(text), true)]
      case StepInterrupted => [InfoMark("step interrupted")]
      case CompactionBegin => [InfoMark("compacting context...")]
      case CompactionEnd => [InfoMark("context compacted")]
      case Notification(title, body) => [InfoMark(title + ": " + body)]
      case ToolBegin(c) => [CallMark(c.kind, c.id, c.callee.name, Bare(c))]
      case Fragment(ImageUrl(_, _)) => [InfoMark("[image]")]
      case Fragment(AudioUrl(_, _)) => [InfoMark("[audio]")]
      case Fragment(VideoUrl(_, _)) => [InfoMark("[video]")]
      case _ => []
  }

  function AllAnnounced(inputs: seq<Input>): seq<Mark> {
    if inputs == [] then [] else AllAnnounced(inputs[..|inputs| - 1]) + Announced(inputs[|inputs| - 1])
  }

  lemma {:induction false} MarksUnmoved(a: seq<Block>, b: seq<Block>)
    requires |a| == |b| && forall i :: 0 <= i < |a| ==> MarkOf(a[i]) == MarkOf(b[i])
    ensures Marks(a) == Marks(b)
  {
    if a != [] {
      MarksUnmoved(a[..|a| - 1], b[..|b| - 1]);
    }
  }

  lemma MarksOfExtension(a: seq<Block>, b: seq<Block>, added: seq<Mark>)
    requires Extends(a, b) && |b| <= |a| + 1
    requires added == if |b| > |a| then MarkOf(b[|a|]) else []
    ensures Marks(b) == Marks(a) + added
  {
    forall i | 0 <= i < |a|
      ensures MarkOf(a[i]) == MarkOf(b[..|a|][i])
    {
      assert Grown(a[i], b[i]);
    }
    MarksUnmoved(a, b[..|a|]);
    if |b| == |a| {
      assert b[..|a|] == b;
      assert Marks(a) + [] == Marks(a);
    } else {
      assert b[..|b| - 1] == b[..|a|];
    }
  }

  lemma FragmentAddsAnnounced(s: State, part: ContentPart)
    ensures var a, b := s.blocks, Apply(s, Fragment(part)).blocks;
            |a| <= |b| <= |a| + 1 && Announced(Wire(Fragment(part))) == if |b| > |a| then MarkOf(b[|a|]) else []
  {
    assert Apply(s, Fragment(part)).blocks == WithFragment(s.blocks, part);
  }

  lemma FeedAddsAnnounced(s: State, input: Input)
    ensures var a, b := s.blocks, Feed(s, input).blocks;
            |a| <= |b| <= |a| + 1 && Announced(input) == if |b| > |a| then MarkOf(b[|a|]) else []
  {
    if input.Wire? && input.event.Fragment? {
      FragmentAddsAnnounced(s, input.event.part);
    } else if input.Wire? {
      OtherInputShape(s, input);
      EventAddsAnnounced(s, input.event);
    }
  }

  lemma EventAddsAnnounced(s: State, e: Event)
    requires !e.Fragment? && |Apply(s, e).blocks| <= |s.blocks| + 1
    ensures var a, b := s.blocks, Apply(s, e).blocks;
            Announced(Wire(e)) == if |b| > |a| then MarkOf(b[|a|]) else []
  {
    var a, b := s.blocks, Apply(s, e).blocks;
    match e
    case SubagentEvent(task, inner) => assert b == WithSummary(a, task, inner);
    case TurnEnd => assert b == AbandonAll(a);
    case StepInterrupted => assert b == AbandonAll(a) + [InfoBlock("step interrupted")];
    case _ =>
  }

  /** The record is complete: user lines, tool calls, approvals and notices stand in the blocks
      exactly as and in the order in which they came, nothing missing and nothing added. */
  lemma {:induction false} MarksAreAnnounced(inputs: seq<Input>)
    ensures Marks(Fold(inputs).blocks) == AllAnnounced(inputs)
  {
    if inputs != [] {
      var before, last := inputs[..|inputs| - 1], inputs[|inputs| - 1];
      MarksAreAnnounced(before);
      FeedExtends(Fold(before), last);
      FeedAddsAnnounced(Fold(before), last);
      MarksOfExtension(Fold(before).blocks, Fold(inputs).blocks, Announced(last));
    }
  }

  /** Typed text is shown as it is; of a list, the texts and a word for everything else, one a line. */
  lemma InputIsShownLineByLine(p: ContentPart, a: seq<ContentPart>, b: seq<ContentPart>, text: string)
    requires a != [] && b != []
    ensures InputText(Typed(text)) == text && InputText(Parts([])) == ""
    ensures InputText(Parts([p])) == match p
              case Text(_, shown) => shown
              case Think(_, _, _) => "[thinking]"
              case ImageUrl(_, _) => "[image]"
              case AudioUrl(_, _) => "[audio]"
              case VideoUrl(_, _) => "[video]"
    ensures InputText(Parts(a + b)) == InputText(Parts(a)) + "\n" + InputText(Parts(b))
  {
    JoinLinesConcat(a, b);
  }

  lemma {:induction false} JoinLinesConcat(a: seq<ContentPart>, b: seq<ContentPart>)
    requires a != [] && b != []
    ensures JoinLines(a + b) == JoinLines(a) + "\n" + JoinLines(b)
  {
    assert (a + b)[1..] == a[1..] + b;
    if |a| == 1 {
      assert a[1..] + b == b;
    } else {
      JoinLinesConcat(a[1..], b);
    }
  }

  // ---------------------------------------------------------------- results

  predicate OpenFor(b: Block, id: string) {
    b.ToolBlock? && b.call.id == id && b.result.None?
  }

  predicate NewestOpenFor(blocks: seq<Block>, i: nat, id: string) {
    i < |blocks| && OpenFor(blocks[i], id) && forall j :: i < j < |blocks| ==> !OpenFor(blocks[j], id)
  }

  /** A result lands on the newest open call of its id, and changes nothing else; with no such
      call it changes nothing at all. */
  lemma ResultLandsOnItsCall(s: State, id: string, result: ToolReturn, i: nat)
    ensures NewestOpenFor(s.blocks, i, id) ==>
              Apply(s, ToolResult(id, result)).blocks == s.blocks[i := s.blocks[i].(result := Some(result))]
    ensures (forall j :: 0 <= j < |s.blocks| ==> !OpenFor(s.blocks[j], id)) ==> Apply(s, ToolResult(id, result)) == s
  {
    var at := LastWhere(s.blocks, OpenCallOf(id));
    assert at >= 0 ==> OpenFor(s.blocks[at], id);
    if NewestOpenFor(s.blocks, i, id) {
      assert Matches(s.blocks[i], OpenCallOf(id));
    }
  }

  lemma OthersLeaveResults(s: State, e: Event, i: nat)
    requires i < |s.blocks| && s.blocks[i].ToolBlock? && !e.ToolResult?
    ensures i < |Apply(s, e).blocks| && Apply(s, e).blocks[i].ToolBlock?
    ensures Apply(s, e).blocks[i].result == s.blocks[i].result
  {
    var a, b := s.blocks, Apply(s, e).blocks;
    match e
    case SubagentEvent(task, inner) => assert b == WithSummary(a, task, inner);
    case TurnEnd => assert b == AbandonAll(a);
    case StepInterrupted => assert b == AbandonAll(a) + [InfoBlock("step interrupted")];
    case Fragment(part) => assert b == WithFragment(a, part);
    case _ =>
  }

  /** A result appears on a call only as that call's own result comes in. */
  lemma ResultsComeFromTheirEvent(s: State, input: Input, i: nat)
    requires i < |s.blocks| && s.blocks[i].ToolBlock? && s.blocks[i].result.None?
    ensures i < |Feed(s, input).blocks|
    ensures var b := Feed(s, input).blocks[i];
            && b.ToolBlock? && b.call.id == s.blocks[i].call.id
            && (b.result.Some? ==> input == Wire(ToolResult(s.blocks[i].call.id, b.result.value)))
  {
    FeedExtends(s, input);
    assert Grown(s.blocks[i], Feed(s, input).blocks[i]);
    if input.Wire? && !input.event.ToolResult? {
      OthersLeaveResults(s, input.event, i);
    } else if input.Wire? {
      var at := LastWhere(s.blocks, OpenCallOf(input.event.callId));
      assert at >= 0 ==> OpenFor(s.blocks[at], input.event.callId);
    }
  }

  /** Input n brought the result that block i shows: it named the block's call, which was open. */
  predicate BroughtResult(inputs: seq<Input>, n: nat, i: nat, id: string, result: ToolReturn) {
    && n < |inputs| && inputs[n] == Wire(ToolResult(id, result))
    && i < |Fold(inputs[..n]).blocks| && OpenFor(Fold(inputs[..n]).blocks[i], id)
  }

  /** Over whole runs: every result shown was delivered under that block's call id, while the
      call was open. */
  lemma {:induction false} ResultsWereDelivered(inputs: seq<Input>, i: nat)
    requires i < |Fold(inputs).blocks| && Fold(inputs).blocks[i].ToolBlock? && Fold(inputs).blocks[i].result.Some?
    ensures var b := Fold(inputs).blocks[i];
            exists n: nat :: BroughtResult(inputs, n, i, b.call.id, b.result.value)
  {
    var before, last := inputs[..|inputs| - 1], inputs[|inputs| - 1];
    var s, b := Fold(before), Fold(inputs).blocks[i];
    FeedExtends(s, last);
    if i >= |s.blocks| {
      NewCallIsOpen(s, last, i);
    }
    assert Grown(s.blocks[i], b);
    if s.blocks[i].result.Some? {
      ResultsWereDelivered(before, i);
      var n: nat :| BroughtResult(before, n, i, b.call.id, b.result.value);
      StillBrought(inputs, n, i, b.call.id, b.result.value);
    } else {
      ResultsComeFromTheirEvent(s, last, i);
      assert BroughtResult(inputs, |before|, i, b.call.id, b.result.value);
    }
  }

  lemma StillBrought(inputs: seq<Input>, n: nat, i: nat, id: string, result: ToolReturn)
    requires inputs != [] && BroughtResult(inputs[..|inputs| - 1], n, i, id, result)
    ensures BroughtResult(inputs, n, i, id, result)
  {
    assert inputs[..|inputs| - 1][..n] == inputs[..n];
  }

  /** A call is shown open and without a summary. */
  lemma NewCallIsOpen(s: State, input: Input, i: nat)
    requires |s.blocks| <= i < |Feed(s, input).blocks| && Feed(s, input).blocks[i].ToolBlock?
    ensures Feed(s, input).blocks[i].result == None && Feed(s, input).blocks[i].subagent == None
  {
    FeedAddsAnnounced(s, input);
    if input.Wire? {
      NewestCallIsOpen(s, input.event);
    }
  }

  lemma NewestCallIsOpen(s: State, e: Event)
    ensures var a, b := s.blocks, Apply(s, e).blocks;
            |b| == |a| + 1 && b[|a|].ToolBlock? ==> b[|a|].result == None && b[|a|].subagent == None
  {
    var a, b := s.blocks, Apply(s, e).blocks;
    match e
    case SubagentEvent(task, inner) => assert b == WithSummary(a, task, inner);
    case TurnEnd => assert b == AbandonAll(a);
    case StepInterrupted => assert b == AbandonAll(a) + [InfoBlock("step interrupted")];
    case Fragment(part) => assert b == WithFragment(a, part);
    case _ =>
  }

  // ---------------------------------------------------------------- arguments, answers, ends

  predicate Open(b: Block) {
    b.ToolBlock? && b.result.None?
  }

  predicate NewestOpen(blocks: seq<Block>, i: nat) {
    i < |blocks| && Open(blocks[i]) && forall j :: i < j < |blocks| ==> !Open(blocks[j])
  }

  /** An argument fragment extends the arguments of the newest call without a result. */
  lemma ArgumentsLandOnNewestOpen(s: State, fragment: Option<string>, i: nat)
    ensures NewestOpen(s.blocks, i) ==>
              var after := Apply(s, ToolArguments(fragment)).blocks;
              && i < |after| && after[i].ToolBlock? && after == s.blocks[i := s.blocks[i].(call := after[i].call)]
              && Bare(after[i].call) == Bare(s.blocks[i].call)
              && ArgumentText(after[i].call.callee.arguments)
                 == ArgumentText(s.blocks[i].call.callee.arguments) + ArgumentText(fragment)
    ensures (forall j :: 0 <= j < |s.blocks| ==> !Open(s.blocks[j])) ==> Apply(s, ToolArguments(fragment)) == s
  {
    var at := LastWhere(s.blocks, OpenCall);
    assert at >= 0 ==> Open(s.blocks[at]);
    if NewestOpen(s.blocks, i) {
      assert Matches(s.blocks[i], OpenCall);
    }
  }

  predicate Asks(b: Block, id: string) {
    b.ApprovalBlock? && b.info.requestId == id
  }

  predicate NewestAsking(blocks: seq<Block>, i: nat, id: string) {
    i < |blocks| && Asks(blocks[i], id) && forall j :: i < j < |blocks| ==> !Asks(blocks[j], id)
  }

  /** An answer is shown on the newest approval of its request. */
  lemma AnswerLandsOnNewestApproval(s: State, id: string, answer: Answer, i: nat)
    ensures NewestAsking(s.blocks, i, id) ==>
              Apply(s, ApprovalResponse(id, answer)).blocks == s.blocks[i := ApprovalBlock(s.blocks[i].info, Some(answer))]
    ensures (forall j :: 0 <= j < |s.blocks| ==> !Asks(s.blocks[j], id)) ==> Apply(s, ApprovalResponse(id, answer)) == s
  {
    var at := LastWhere(s.blocks, ApprovalOf(id));
    assert at >= 0 ==> Asks(s.blocks[at], id);
    if NewestAsking(s.blocks, i, id) {
      assert Matches(s.blocks[i], ApprovalOf(id));
    }
  }

  /** The end of a turn, or an interrupted step, abandons the calls without a result, and
      those only. */
  lemma EndsAbandonTheOpen(s: State, e: Event, i: nat)
    requires i < |s.blocks| && (e.TurnEnd? || e.StepInterrupted?)
    ensures i < |Apply(s, e).blocks|
    ensures Apply(s, e).blocks[i] == if Open(s.blocks[i]) then s.blocks[i].(abandoned := true) else s.blocks[i]
  {
    assert Abandoned(s.blocks[i]) == if Open(s.blocks[i]) then s.blocks[i].(abandoned := true) else s.blocks[i];
  }

  /** Nothing else ever abandons a call. */
  lemma OnlyEndsAbandon(s: State, e: Event, i: nat)
    requires i < |s.blocks| && s.blocks[i].ToolBlock? && !e.TurnEnd? && !e.StepInterrupted?
    ensures i < |Apply(s, e).blocks| && Apply(s, e).blocks[i].ToolBlock?
    ensures Apply(s, e).blocks[i].abandoned == s.blocks[i].abandoned
  {
    var a, b := s.blocks, Apply(s, e).blocks;
    match e
    case SubagentEvent(task, inner) => assert b == WithSummary(a, task, inner);
    case Fragment(part) => assert b == WithFragment(a, part);
    case _ =>
  }

  // ---------------------------------------------------------------- status

  /** The last value given for a field, if any was. */
  function Latest<T>(inputs: seq<Input>, pick: Status -> Option<T>): Option<T> {
    if inputs == [] then None
    else
      var last := inputs[|inputs| - 1];
      if last.Wire? && last.event.StatusUpdate? && pick(last.event.update).Some? then pick(last.event.update)
      else Latest(inputs[..|inputs| - 1], pick)
  }

  /** Each field of the status is the last value given for it. */
  lemma {:induction false} StatusIsLatest(inputs: seq<Input>)
    ensures var s := Fold(inputs).status;
            && s.model == Latest(inputs, (u: Status) => u.model)
            && s.contextUsage == Latest(inputs, (u: Status) => u.contextUsage)
            && s.contextTokens == Latest(inputs, (u: Status) => u.contextTokens)
            && s.maxContextTokens == Latest(inputs, (u: Status) => u.maxContextTokens)
            && s.yoloEnabled == Latest(inputs, (u: Status) => u.yoloEnabled)
            && s.thinking == Latest(inputs, (u: Status) => u.thinking)
  {
    if inputs != [] {
      StatusIsLatest(inputs[..|inputs| - 1]);
      FeedStatus(Fold(inputs[..|inputs| - 1]), inputs[|inputs| - 1]);
    }
  }

  lemma FeedStatus(s: State, input: Input)
    ensures !(input.Wire? && input.event.StatusUpdate?) ==> Feed(s, input).status == s.status
  {
  }

  // ---------------------------------------------------------------- inline summaries

  /** The names of the calls among some events. */
  function CallNames(inners: seq<Event>): seq<string> {
    if inners == [] then []
    else
      var last := inners[|inners| - 1];
      CallNames(inners[..|inners| - 1]) + if last.ToolBegin? then [last.call.callee.name] else []
  }

  function LastFour(names: seq<string>): seq<string> {
    if |names| <= 4 then names else names[|names| - 4..]
  }

  /** The inner events sent to a task while block i was there. */
  function SentSince(inputs: seq<Input>, i: nat, task: string): seq<Event> {
    if inputs == [] then []
    else
      var init, last := inputs[..|inputs| - 1], inputs[|inputs| - 1];
      if last.Wire? && last.event.SubagentEvent? && last.event.task == task && i < |Fold(init).blocks|
      then SentSince(init, i, task) + [last.event.inner] else SentSince(init, i, task)
  }

  predicate Summarises(summary: Option<Summary>, inners: seq<Event>) {
    if inners == [] then summary == None
    else summary == Some(Summary(|inners|, LastFour(CallNames(inners))))
  }

  lemma LastFourPush(names: seq<string>, name: string)
    ensures var tools := LastFour(names) + [name];
            LastFour(names + [name]) == if |tools| > 4 then tools[1..] else tools
  {
    if |names| > 4 {
      var n := |names|;
      assert (names + [name])[n - 3..] == names[n - 3..] + [name];
      assert names[n - 4..][1..] == names[n - 3..];
      assert (names[n - 4..] + [name])[1..] == names[n - 3..] + [name];
    }
  }

  lemma CallNamesPush(inners: seq<Event>, inner: Event)
    ensures CallNames(inners + [inner])
            == if inner.ToolBegin? then CallNames(inners) + [inner.call.callee.name] else CallNames(inners)
  {
    assert (inners + [inner])[..|inners|] == inners;
    assert CallNames(inners) + [] == CallNames(inners);
  }

  lemma OneMoreEvent(summary: Option<Summary>, inners: seq<Event>, inner: Event)
    requires Summarises(summary, inners)
    ensures Summarises(Some(Summarised(summary, inner)), inners + [inner])
  {
    CallNamesPush(inners, inner);
    if inner.ToolBegin? {
      LastFourPush(CallNames(inners), inner.call.callee.name);
    }
  }

  lemma SummaryMoves(s: State, input: Input, i: nat, task: string)
    requires i < |s.blocks| && s.blocks[i].ToolBlock? && s.blocks[i].call.id == task
    requires forall j :: i < j < |s.blocks| ==> !Matches(s.blocks[j], CallOf(task))
    ensures i < |Feed(s, input).blocks| && Feed(s, input).blocks[i].ToolBlock?
    ensures Feed(s, input).blocks[i].subagent
            == if input.Wire? && input.event.SubagentEvent? && input.event.task == task
               then Some(Summarised(s.blocks[i].subagent, input.event.inner)) else s.blocks[i].subagent
  {
    FeedExtends(s, input);
    assert Grown(s.blocks[i], Feed(s, input).blocks[i]);
    if input.Wire? && input.event.SubagentEvent? {
      assert Matches(s.blocks[i], CallOf(task));
      if input.event.task == task {
        assert LastWhere(s.blocks, CallOf(task)) == i;
      }
    } else if input.Wire? {
      OthersLeaveSummaries(s, input.event, i);
    }
  }

  lemma OthersLeaveSummaries(s: State, e: Event, i: nat)
    requires i < |s.blocks| && s.blocks[i].ToolBlock? && !e.SubagentEvent?
    ensures i < |Apply(s, e).blocks| && Apply(s, e).blocks[i].ToolBlock?
    ensures Apply(s, e).blocks[i].subagent == s.blocks[i].subagent
  {
    var a, b := s.blocks, Apply(s, e).blocks;
    match e
    case TurnEnd => assert b == AbandonAll(a);
    case StepInterrupted => assert b == AbandonAll(a) + [InfoBlock("step interrupted")];
    case Fragment(part) => assert b == WithFragment(a, part);
    case _ =>
  }

  /** The inline summary of a call, while no later block has its id, counts the events sent to
      it since it was shown and lists the last four calls among them. */
  lemma {:induction false} SummaryCountsEvents(inputs: seq<Input>, i: nat)
    requires i < |Fold(inputs).blocks| && Fold(inputs).blocks[i].ToolBlock?
    requires forall j :: i < j < |Fold(inputs).blocks| ==>
               !Matches(Fold(inputs).blocks[j], CallOf(Fold(inputs).blocks[i].call.id))
    ensures Summarises(Fold(inputs).blocks[i].subagent, SentSince(inputs, i, Fold(inputs).blocks[i].call.id))
  {
    var before, last := inputs[..|inputs| - 1], inputs[|inputs| - 1];
    var s, task := Fold(before), Fold(inputs).blocks[i].call.id;
    FeedExtends(s, last);
    if i < |s.blocks| {
      assert Grown(s.blocks[i], Fold(inputs).blocks[i]);
      forall j | i < j < |s.blocks|
        ensures !Matches(s.blocks[j], CallOf(task))
      {
        assert Grown(s.blocks[j], Fold(inputs).blocks[j]);
      }
      SummaryCountsEvents(before, i);
      SummaryMoves(s, last, i, task);
      if last.Wire? && last.event.SubagentEvent? && last.event.task == task {
        OneMoreEvent(s.blocks[i].subagent, SentSince(before, i, task), last.event.inner);
      }
    } else {
      NewCallIsOpen(s, last, i);
      NothingSentBefore(before, i, task);
    }
  }

  lemma {:induction false} NothingSentBefore(inputs: seq<Input>, i: nat, task: string)
    requires i >= |Fold(inputs).blocks|
    ensures SentSince(inputs, i, task) == []
  {
    if inputs != [] {
      FeedExtends(Fold(inputs[..|inputs| - 1]), inputs[|inputs| - 1]);
      NothingSentBefore(inputs[..|inputs| - 1], i, task);
    }
  }
}
