/** Replacing the old part of a conversation by a summary: where the cut falls, what the
    summarising model is shown, and what the shortened conversation still guarantees. */
module Compaction {
  import opened Wrappers
  import opened Messages

  predicate Talks(m: Message) {
    m.role.User? || m.role.Assistant?
  }

  function TalkCount(messages: seq<Message>): nat {
    if messages == [] then 0
    else TalkCount(messages[1..]) + if Talks(messages[0]) then 1 else 0
  }

  function RoleLabel(role: Role): (r: string)
    ensures r in {"system", "user", "assistant", "tool"}
    ensures r == "system" <==> role == System
    ensures r == "user" <==> role == User
    ensures r == "assistant" <==> role == Assistant
    ensures r == "tool" <==> role == Tool
  {
    match role
    case System => "system"
    case User => "user"
    case Assistant => "assistant"
    case Tool => "tool"
  }

  /** The parts that are not private reasoning, in order. */
  function Spoken(content: seq<ContentPart>): seq<ContentPart> {
    if content == [] then []
    else
      var last := content[|content| - 1];
      Spoken(content[..|content| - 1]) + if last.Think? then [] else [last]
  }

  function Header(index: nat, m: Message): ContentPart {
    NewText("## Message " + Decimal(index + 1) + "\nRole: " + RoleLabel(m.role) + "\nContent:\n")
  }

  function Sections(messages: seq<Message>): seq<ContentPart> {
    if messages == [] then []
    else
      var n := |messages| - 1;
      Sections(messages[..n]) + ([Header(n, messages[n])] + Spoken(messages[n].content))
  }

  function SummaryRequest(messages: seq<Message>, prompt: string): Message {
    NewMessage(User, Sections(messages) + [NewText("\n" + prompt)])
  }

  datatype Prepared = Prepared(request: Option<Message>, preserved: seq<Message>)

  // ---------------------------------------------------------------- the cut

  /** Preserving starts at a user or assistant message and keeps exactly `max` of them. */
  predicate IsCut(messages: seq<Message>, max: nat, start: nat) {
    start < |messages| && Talks(messages[start]) && TalkCount(messages[start..]) == max
  }

  lemma {:induction false} LaterSuffixSaysLess(messages: seq<Message>, i: nat, j: nat)
    requires i < j <= |messages|
    decreases j - i
    ensures TalkCount(messages[j..]) + (if Talks(messages[i]) then 1 else 0) <= TalkCount(messages[i..])
  {
    assert messages[i..][1..] == messages[i + 1..];
    if i + 1 < j {
      LaterSuffixSaysLess(messages, i + 1, j);
    }
  }

  lemma CutIsUnique(messages: seq<Message>, max: nat, i: nat, j: nat)
    requires IsCut(messages, max, i) && IsCut(messages, max, j)
    ensures i == j
  {
    if i < j {
      LaterSuffixSaysLess(messages, i, j);
    } else if j < i {
      LaterSuffixSaysLess(messages, j, i);
    }
  }

  lemma CutNeedsTalk(messages: seq<Message>, max: nat, start: nat)
    requires IsCut(messages, max, start)
    ensures 0 < max <= TalkCount(messages)
  {
    assert messages[0..] == messages;
    LaterSuffixSaysLess(messages, start, |messages|);
    if start > 0 {
      LaterSuffixSaysLess(messages, 0, start);
    }
  }

  /** There is a cut exactly when enough was said. */
  lemma {:induction false} CutExists(messages: seq<Message>, max: nat)
    ensures (exists start: nat :: IsCut(messages, max, start)) <==> 0 < max <= TalkCount(messages)
  {
    forall start: nat | IsCut(messages, max, start)
      ensures 0 < max <= TalkCount(messages)
    {
      CutNeedsTalk(messages, max, start);
    }
    if 0 < max <= TalkCount(messages) {
      var rest := messages[1..];
      CutExists(rest, max);
      if max <= TalkCount(rest) {
        var start: nat :| IsCut(rest, max, start);
        assert messages[start + 1..] == rest[start..];
        assert IsCut(messages, max, start + 1);
      } else {
        assert messages[0..] == messages;
        assert IsCut(messages, max, 0);
      }
    }
  }

  function PreparedAt(messages: seq<Message>, start: nat, prompt: string): Prepared
    requires start <= |messages|
  {
    if start == 0 then Prepared(None, messages)
    else Prepared(Some(SummaryRequest(messages[..start], prompt)), messages[start..])
  }

  lemma SectionsStep(messages: seq<Message>, i: nat)
    requires i < |messages|
    ensures Sections(messages[..i + 1])
            == Sections(messages[..i]) + [Header(i, messages[i])] + Spoken(messages[i].content)
  {
    assert messages[..i + 1][..i] == messages[..i];
  }

  method FilterSpoken(content: seq<ContentPart>) returns (spoken: seq<ContentPart>)
    ensures spoken == Spoken(content)
  {
    spoken := [];
    for i := 0 to |content|
      invariant spoken == Spoken(content[..i])
    {
      assert content[..i + 1][..i] == content[..i];
      if !content[i].Think? {
        spoken := spoken + [content[i]];
      }
    }
    assert content[..|content|] == content;
  }

  /** Choose what to keep and write up the rest for the summarising model. */
  method Prepare(messages: seq<Message>, maxPreserved: nat, prompt: string) returns (r: Prepared)
    ensures forall start: nat :: IsCut(messages, maxPreserved, start) ==> r == PreparedAt(messages, start, prompt)
    ensures (forall start: nat :: !IsCut(messages, maxPreserved, start)) ==> r == Prepared(None, messages)
  {
    CutExists(messages, maxPreserved);
    if messages == [] || maxPreserved == 0 {
      return Prepared(None, messages);
    }
    var preserveStart := |messages|;
    var preserved := 0;
    var index := |messages|;
    while index > 0
      invariant 0 <= index <= |messages| == preserveStart
      invariant preserved == TalkCount(messages[index..]) < maxPreserved
    {
      index := index - 1;
      assert messages[index..] == [messages[index]] + messages[index + 1..];
      if Talks(messages[index]) {
        preserved := preserved + 1;
        if preserved == maxPreserved {
          preserveStart := index;
          break;
        }
      }
    }
    if preserved < maxPreserved {
      assert messages[0..] == messages;
      return Prepared(None, messages);
    }
    forall start: nat | IsCut(messages, maxPreserved, start)
      ensures start == preserveStart
    {
      CutIsUnique(messages, maxPreserved, start, preserveStart);
    }
    assert IsCut(messages, maxPreserved, preserveStart);
    var toCompact, toPreserve := messages[..preserveStart], messages[preserveStart..];
    if toCompact == [] {
      return Prepared(None, toPreserve);
    }
    var request := WriteUp(toCompact, prompt);
    r := Prepared(Some(request), toPreserve);
  }

  method WriteUp(messages: seq<Message>, prompt: string) returns (request: Message)
    ensures request == SummaryRequest(messages, prompt)
  {
    request := NewMessage(User, []);
    for i := 0 to |messages|
      invariant request == NewMessage(User, Sections(messages[..i]))
    {
      SectionsStep(messages, i);
      var spoken := FilterSpoken(messages[i].content);
      request := request.(content := request.content + [Header(i, messages[i])] + spoken);
    }
    assert messages[..|messages|] == messages;
    request := request.(content := request.content + [NewText("\n" + prompt)]);
  }

  // ---------------------------------------------------------------- the summary request

  /** Where the header of message i stands in the summary request. */
  function HeaderAt(messages: seq<Message>, i: nat): nat
    requires i <= |messages|
  {
    if i == 0 then 0 else HeaderAt(messages, i - 1) + 1 + |Spoken(messages[i - 1].content)|
  }

  lemma {:induction false} HeaderAtPrefix(messages: seq<Message>, n: nat, i: nat)
    requires i <= n <= |messages|
    ensures HeaderAt(messages[..n], i) == HeaderAt(messages, i)
  {
    if i > 0 {
      HeaderAtPrefix(messages, n, i - 1);
    }
  }

  lemma {:induction false} SectionsLength(messages: seq<Message>)
    ensures |Sections(messages)| == HeaderAt(messages, |messages|)
  {
    if messages != [] {
      var n := |messages| - 1;
      SectionsLength(messages[..n]);
      HeaderAtPrefix(messages, n, n);
    }
  }

  lemma PrefixExtends<T>(a: seq<T>, b: seq<T>, c: seq<T>)
    requires a <= b
    ensures a <= b + c
  {
  }

  lemma {:induction false} SectionsPrefix(messages: seq<Message>, i: nat)
    requires i <= |messages|
    ensures Sections(messages[..i]) <= Sections(messages)
    ensures |Sections(messages[..i])| == HeaderAt(messages, i)
  {
    SectionsLength(messages[..i]);
    HeaderAtPrefix(messages, i, i);
    if i == |messages| {
      assert messages[..i] == messages;
    } else {
      var n := |messages| - 1;
      SectionsPrefix(messages[..n], i);
      assert messages[..n][..i] == messages[..i];
      PrefixExtends(Sections(messages[..i]), Sections(messages[..n]), [Header(n, messages[n])] + Spoken(messages[n].content));
    }
  }

  lemma RequestSection(messages: seq<Message>, prompt: string, i: nat)
    requires i < |messages|
    ensures var content, at := SummaryRequest(messages, prompt).content, HeaderAt(messages, i);
            && at < HeaderAt(messages, i + 1) <= |content|
            && content[at] == Header(i, messages[i])
            && content[at + 1..HeaderAt(messages, i + 1)] == Spoken(messages[i].content)
  {
    SectionsPrefix(messages, i);
    SectionsPrefix(messages, i + 1);
    SectionsStep(messages, i);
    PrefixInside(Sections(messages[..i]), Header(i, messages[i]), Spoken(messages[i].content),
                 Sections(messages[..i + 1]), Sections(messages), NewText("\n" + prompt));
  }

  lemma RequestLength(messages: seq<Message>, prompt: string)
    ensures var request := SummaryRequest(messages, prompt);
            && request.role == User && request.toolCalls == None
            && |request.content| == HeaderAt(messages, |messages|) + 1
            && request.content[|request.content| - 1] == Text("text", "\n" + prompt)
  {
    SectionsLength(messages);
  }

  lemma PrefixInside<T>(before: seq<T>, header: T, body: seq<T>, upto: seq<T>, all: seq<T>, last: T)
    requires upto == before + [header] + body && upto <= all
    ensures (all + [last])[|before|] == header
    ensures (all + [last])[|before| + 1..|before| + 1 + |body|] == body
  {
    assert all[..|upto|] == upto;
    assert upto[|before|] == header && upto[|before| + 1..] == body;
  }

  /** `out` is what remains of `content` without the thinking, each part once and in order: the
      k-th part of `out` stands at `at[k]`, the positions ascend, and none but thinking is left out. */
  ghost predicate KeptAt(out: seq<ContentPart>, content: seq<ContentPart>, at: seq<nat>) {
    && |at| == |out|
    && (forall k :: 0 <= k < |at| ==> at[k] < |content| && content[at[k]] == out[k] && !out[k].Think?)
    && (forall j, k :: 0 <= j < k < |at| ==> at[j] < at[k])
    && (forall i :: 0 <= i < |content| && !content[i].Think? ==> i in at)
  }

  ghost predicate WithoutThinking(out: seq<ContentPart>, content: seq<ContentPart>) {
    exists at :: KeptAt(out, content, at)
  }

  lemma KeptPush(out: seq<ContentPart>, content: seq<ContentPart>, at: seq<nat>, p: ContentPart)
    requires KeptAt(out, content, at)
    ensures p.Think? ==> KeptAt(out, content + [p], at)
    ensures !p.Think? ==> KeptAt(out + [p], content + [p], at + [|content|])
  {
    var all := content + [p];
    forall i | 0 <= i < |all| && !all[i].Think?
      ensures i in at + [|content|] && (i < |content| ==> i in at)
    {
      if i < |content| {
        assert all[i] == content[i];
      } else {
        assert (at + [|content|])[|at|] == i;
      }
    }
  }

  lemma {:induction false} SpokenPositions(content: seq<ContentPart>) returns (at: seq<nat>)
    ensures KeptAt(Spoken(content), content, at)
  {
    if content == [] {
      at := [];
    } else {
      var init, last := content[..|content| - 1], content[|content| - 1];
      at := SpokenPositions(init);
      KeptPush(Spoken(init), init, at, last);
      assert content == init + [last];
      if last.Think? {
        assert Spoken(init) + [] == Spoken(init);
      } else {
        at := at + [|init|];
      }
    }
  }

  /** Filtering drops exactly the thinking parts and keeps the order. */
  lemma SpokenIsExact(content: seq<ContentPart>)
    ensures WithoutThinking(Spoken(content), content)
  {
    var at := SpokenPositions(content);
    assert KeptAt(Spoken(content), content, at);
  }

  /** Leaving the headers and the closing prompt aside, the request is what the old messages
      said, message by message and in order: section i is message i without its reasoning. */
  lemma RequestLayout(messages: seq<Message>, prompt: string, i: nat)
    requires i < |messages|
    ensures var content, at := SummaryRequest(messages, prompt).content, HeaderAt(messages, i);
            && at < HeaderAt(messages, i + 1) <= |content|
            && content[at] == Text("text", "## Message " + Decimal(i + 1) + "\nRole: " + RoleLabel(messages[i].role) + "\nContent:\n")
            && WithoutThinking(content[at + 1..HeaderAt(messages, i + 1)], messages[i].content)
  {
    RequestSection(messages, prompt, i);
    SpokenIsExact(messages[i].content);
  }

  // ---------------------------------------------------------------- the shortened conversation

  function Summary(reply: Message): Message {
    NewMessage(User, [SystemText("Previous context has been compacted. Here is the compaction output:")]
                     + Spoken(reply.content))
  }

  /** The whole of a shortened conversation: one user message, which says what it is and then
      all that the summarising model said but did not think, in order; and what was preserved. */
  ghost predicate Shortened(messages: seq<Message>, start: nat, reply: Message, out: seq<Message>)
    requires start <= |messages|
  {
    && |out| == 1 + |messages| - start && out[1..] == messages[start..]
    && out[0].role == User && out[0].name == None && out[0].toolCalls == None && out[0].toolCallId == None
    && out[0].content != []
    && out[0].content[0]
       == Text("text", "<system>" + "Previous context has been compacted. Here is the compaction output:" + "</system>")
    && WithoutThinking(out[0].content[1..], reply.content)
  }

  lemma SummaryIsTold(messages: seq<Message>, start: nat, reply: Message)
    requires start <= |messages|
    ensures Shortened(messages, start, reply, [Summary(reply)] + messages[start..])
  {
    SpokenIsExact(reply.content);
    assert Summary(reply).content[1..] == Spoken(reply.content);
    assert ([Summary(reply)] + messages[start..])[1..] == messages[start..];
  }

  /** Compact, given the summarising model's answer (or failure) should it be asked. */
  method Compact<E>(messages: seq<Message>, maxPreserved: nat, prompt: string, reply: Result<Message, E>)
    returns (r: Result<seq<Message>, E>)
    ensures forall start: nat :: IsCut(messages, maxPreserved, start) && start > 0 && reply.Ok?
                            ==> r == Ok([Summary(reply.value)] + messages[start..])
    ensures forall start: nat :: IsCut(messages, maxPreserved, start) && start > 0 && reply.Err?
                            ==> r == Err(reply.error)
    ensures !(exists start: nat :: start > 0 && IsCut(messages, maxPreserved, start)) ==> r == Ok(messages)
    ensures forall start: nat :: IsCut(messages, maxPreserved, start) && start > 0 && reply.Ok?
                            ==> r.Ok? && Shortened(messages, start, reply.value, r.value)
  {
    if reply.Ok? {
      forall start: nat | start <= |messages|
        ensures Shortened(messages, start, reply.value, [Summary(reply.value)] + messages[start..])
      {
        SummaryIsTold(messages, start, reply.value);
      }
    }
    var prepared := Prepare(messages, maxPreserved, prompt);
    if prepared.request.None? {
      return Ok(prepared.preserved);
    }
    match reply
    case Err(e) =>
      r := Err(e);
    case Ok(answer) =>
      var spoken := FilterSpoken(answer.content);
      var content := [SystemText("Previous context has been compacted. Here is the compaction output:")] + spoken;
      r := Ok([NewMessage(User, content)] + prepared.preserved);
  }

  /** Message i answers an assistant message, with nothing but tool messages in between. */
  predicate FollowsAssistant(messages: seq<Message>, i: nat)
    requires i < |messages|
  {
    i > 0 && (messages[i - 1].role.Assistant? || (messages[i - 1].role.Tool? && FollowsAssistant(messages, i - 1)))
  }

  ghost predicate WellFormed(messages: seq<Message>) {
    forall i :: 0 <= i < |messages| && messages[i].role.Tool? ==> FollowsAssistant(messages, i)
  }

  /** Behind a message that talks, the answers stay with their assistant. */
  lemma {:induction false} FollowsWithinSuffix(messages: seq<Message>, start: nat, first: Message, i: nat)
    requires start < |messages| && Talks(messages[start])
    requires start < i < |messages| && FollowsAssistant(messages, i)
    ensures FollowsAssistant([first] + messages[start..], i - start + 1)
  {
    var out := [first] + messages[start..];
    assert out[i - start] == messages[i - 1];
    if !messages[i - 1].role.Assistant? {
      FollowsWithinSuffix(messages, start, first, i - 1);
    }
  }

  /** A well formed conversation stays well formed, is no longer than before, and still holds
      the latest `max` exchanges with everything that follows them. */
  lemma CompactedIsWellFormed(messages: seq<Message>, max: nat, start: nat, reply: Message)
    requires WellFormed(messages) && IsCut(messages, max, start) && start > 0
    ensures WellFormed([Summary(reply)] + messages[start..])
    ensures |[Summary(reply)] + messages[start..]| <= |messages|
  {
    var out := [Summary(reply)] + messages[start..];
    forall i | 0 <= i < |out| && out[i].role.Tool?
      ensures FollowsAssistant(out, i)
    {
      assert i > 1 && out[i] == messages[start + i - 1];
      FollowsWithinSuffix(messages, start, Summary(reply), start + i - 1);
    }
  }

  /** Compacting again can only replace the summary: the preserved part is already final. */
  lemma CompactingAgain(messages: seq<Message>, max: nat, start: nat, reply: Message)
    requires IsCut(messages, max, start)
    ensures IsCut([Summary(reply)] + messages[start..], max, 1)
    ensures TalkCount([Summary(reply)] + messages[start..]) == max + 1
  {
    var out := [Summary(reply)] + messages[start..];
    assert out[1..] == messages[start..];
  }
}
