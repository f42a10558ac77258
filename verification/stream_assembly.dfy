/** How a stream of fragments becomes one assistant message: the coalescing loop of
    `generate`, the merge rules it uses, and the reference grouping it refines. */
module StreamAssembly {
  import opened Wrappers
  import Json
  import opened Messages
  import opened Seqs

  datatype Part =
    | Content(part: ContentPart)
    | Call(call: ToolCall)
    | CallPart(arguments: Option<string>)

  datatype GenerateError = StreamFailed | EmptyResponse

  /** The left part with the right one merged into it, or none when they do not merge. */
  function Merge(left: Part, right: Part): Option<Part> {
    match (left, right)
    case (Content(Text(kind, a)), Content(Text(_, b))) => Some(Content(Text(kind, a + b)))
    case (Content(Think(kind, a, e)), Content(Think(_, b, f))) =>
      if e.Some? then None else Some(Content(Think(kind, a + b, f)))
    case (Call(c), CallPart(args)) => Some(Call(Extended(c, args)))
    case (CallPart(a), CallPart(b)) => Some(CallPart(JoinArguments(a, b)))
    case _ => None
  }

  // ---------------------------------------------------------------- reference grouping

  /** Absorb into `head` as many of the parts that follow as keep merging. */
  function Absorb(head: Part, rest: seq<Part>): Part
    decreases |rest|
  {
    if rest != [] && Merge(head, rest[0]).Some? then Absorb(Merge(head, rest[0]).value, rest[1..]) else head
  }

  function Leftover(head: Part, rest: seq<Part>): (r: seq<Part>)
    ensures |r| <= |rest|
    decreases |rest|
  {
    if rest != [] && Merge(head, rest[0]).Some? then Leftover(Merge(head, rest[0]).value, rest[1..]) else rest
  }

  /** The stream cut into maximal runs of merging parts, each run merged into one. */
  function Groups(parts: seq<Part>): seq<Part>
    decreases |parts|
  {
    if parts == [] then []
    else [Absorb(parts[0], parts[1..])] + Groups(Leftover(parts[0], parts[1..]))
  }

  function Contents(parts: seq<Part>): seq<ContentPart> {
    if parts == [] then []
    else (if parts[0].Content? then [parts[0].part] else []) + Contents(parts[1..])
  }

  function Calls(parts: seq<Part>): seq<ToolCall> {
    if parts == [] then []
    else (if parts[0].Call? then [parts[0].call] else []) + Calls(parts[1..])
  }

  /** The assistant message a list of groups makes; orphaned argument fragments drop out. */
  function Assembled(groups: seq<Part>): Message {
    var calls := Calls(groups);
    Message(Assistant, Contents(groups), None, if calls == [] then None else Some(calls), None, None)
  }

  // ---------------------------------------------------------------- the loop

  /** One `generate` call. */
  class Generation {
    var message: Message
    /** Calls handed to the callback, in order. */
    var callbacks: seq<ToolCall>
    /** Fragments forwarded to the listener, in order. */
    var sent: seq<Part>

    constructor ()
      ensures message == NewMessage(Assistant, []) && callbacks == [] && sent == []
    {
      message, callbacks, sent := NewMessage(Assistant, []), [], [];
    }

    method AppendPart(part: Part)
      modifies this`message, this`callbacks
      ensures message == old(message).(
                content := old(message).content + Contents([part]),
                toolCalls := if part.Call?
                             then Some((if old(message).toolCalls.Some? then old(message).toolCalls.value else [])
                                       + [part.call])
                             else old(message).toolCalls)
      ensures callbacks == old(callbacks) + Calls([part])
    {
      assert [part][1..] == [];
      match part {
        case Content(p) =>
          message := message.(content := message.content + [p]);
        case Call(call) =>
          if message.toolCalls.None? {
            message := message.(toolCalls := Some([]));
          }
          message := message.(toolCalls := Some(message.toolCalls.value + [call]));
          callbacks := callbacks + [call];
        case CallPart(_) =>
      }
    }

    /** The stream has ended: the group being built is complete. */
    method Flush(pending: Option<Part>, ghost done: seq<Part>)
      requires message == Assembled(done) && callbacks == Calls(done)
      modifies this`message, this`callbacks
      ensures message == Assembled(done + Held(pending)) && callbacks == Calls(done + Held(pending))
    {
      if pending.Some? {
        AssembledSnoc(done, pending.value);
        AppendPart(pending.value);
      } else {
        assert done + [] == done;
      }
    }

    /** The loop: each fragment is forwarded, and joins the group being built or starts one. */
    method Collect(parts: seq<Part>) returns (pending: Option<Part>, ghost done: seq<Part>)
      requires message == NewMessage(Assistant, []) && callbacks == [] && sent == []
      modifies this
      ensures sent == parts && message == Assembled(done) && callbacks == Calls(done)
      ensures Groups(parts) == done + Held(pending)
    {
      pending, done := None, [];
      var i := 0;
      CollectingNothing(parts);
      while i < |parts|
        invariant 0 <= i <= |parts|
        invariant sent == parts[..i]
        invariant message == Assembled(done) && callbacks == Calls(done)
        invariant Collecting(done, pending, parts, i)
      {
        var part := parts[i];
        sent := sent + [part];
        if pending.None? {
          FirstTurn(done, parts, i);
          pending := Some(part);
        } else {
          var current := pending.value;
          LoopTurn(done, current, parts, i);
          var merged := Merge(current, part);
          if merged.Some? {
            pending := merged;
          } else {
            AssembledSnoc(done, current);
            AppendPart(current);
            done := done + [current];
            pending := Some(part);
          }
        }
        i := i + 1;
      }
      assert parts[..i] == parts;
      LastGroup(pending, parts);
    }

    /** Consume the stream: `parts` arrive one by one, then the stream ends or fails. */
    method Run(parts: seq<Part>, fails: bool) returns (r: Result<Message, GenerateError>)
      requires message == NewMessage(Assistant, []) && callbacks == [] && sent == []
      modifies this
      ensures sent == parts
      ensures !fails ==> message == Assembled(Groups(parts)) && callbacks == Calls(Groups(parts))
      ensures fails ==> r == Err(StreamFailed) && callbacks <= Calls(Groups(parts))
      ensures !fails ==> Holds(message, callbacks, parts)
      ensures !fails ==> r == if Contents(parts) == [] && Calls(parts) == [] then Err(EmptyResponse) else Ok(message)
    {
      ghost var done;
      var pending;
      pending, done := Collect(parts);
      if fails {
        CallsConcat(done, Held(pending));
        return Err(StreamFailed);
      }
      Flush(pending, done);
      AssembledHolds(parts);
      EmptyVerdict(parts);
      if message.content == [] && (message.toolCalls.None? || message.toolCalls.value == []) {
        return Err(EmptyResponse);
      }
      return Ok(message);
    }
  }

  /** One turn of the loop, on the reference grouping. */
  lemma GroupsStep(head: Part, rest: seq<Part>)
    ensures rest == [] ==> Groups([head] + rest) == [head] && Groups([head]) == [head]
    ensures rest != [] && Merge(head, rest[0]).Some? ==>
              Groups([head] + rest) == Groups([Merge(head, rest[0]).value] + rest[1..])
    ensures rest != [] && Merge(head, rest[0]).None? ==>
              Groups([head] + rest) == [head] + Groups(rest)
  {
    assert ([head] + rest)[1..] == rest;
    if rest == [] {
      assert [head] + rest == [head];
    } else if Merge(head, rest[0]).Some? {
      var m := Merge(head, rest[0]).value;
      assert ([m] + rest[1..])[1..] == rest[1..];
    }
  }

  function Held(pending: Option<Part>): seq<Part> {
    if pending.Some? then [pending.value] else []
  }

  /** The group being built and the fragments still to come, as one stream. */
  function Remaining(pending: Option<Part>, parts: seq<Part>, i: nat): seq<Part>
    requires i <= |parts|
  {
    if pending.Some? then [pending.value] + parts[i..] else parts[i..]
  }

  lemma LastGroup(pending: Option<Part>, parts: seq<Part>)
    ensures Groups(Remaining(pending, parts, |parts|)) == Held(pending)
  {
    if pending.Some? {
      GroupsStep(pending.value, []);
      assert Remaining(pending, parts, |parts|) == [pending.value];
    }
  }

  /** The groups finished, the one being built and the fragments still to come are the stream's. */
  ghost predicate Collecting(done: seq<Part>, pending: Option<Part>, parts: seq<Part>, i: nat)
    requires i <= |parts|
  {
    (pending.None? ==> i == 0) && Groups(parts) == done + Groups(Remaining(pending, parts, i))
  }

  lemma CollectingNothing(parts: seq<Part>)
    ensures Collecting([], None, parts, 0)
  {
    assert [] + Groups(parts) == Groups(parts) && parts[0..] == parts;
  }

  lemma FirstTurn(done: seq<Part>, parts: seq<Part>, i: nat)
    requires i < |parts| && Collecting(done, None, parts, i)
    ensures Collecting(done, Some(parts[i]), parts, i + 1)
  {
    assert Remaining(Some(parts[i]), parts, i + 1) == parts;
  }

  lemma LoopTurn(done: seq<Part>, current: Part, parts: seq<Part>, i: nat)
    requires i < |parts| && Collecting(done, Some(current), parts, i)
    ensures var m := Merge(current, parts[i]);
            if m.Some? then Collecting(done, m, parts, i + 1)
            else Collecting(done + [current], Some(parts[i]), parts, i + 1)
  {
    GroupsStep(current, parts[i..]);
    assert parts[i..] == [parts[i]] + parts[i + 1..];
    Assoc(done, [current], Groups(parts[i..]));
  }

  lemma {:induction false} ContentsConcat(a: seq<Part>, b: seq<Part>)
    ensures Contents(a + b) == Contents(a) + Contents(b)
  {
    if a == [] {
      assert a + b == b;
    } else {
      assert (a + b)[1..] == a[1..] + b;
      ContentsConcat(a[1..], b);
      Assoc(if a[0].Content? then [a[0].part] else [], Contents(a[1..]), Contents(b));
    }
  }

  lemma {:induction false} CallsConcat(a: seq<Part>, b: seq<Part>)
    ensures Calls(a + b) == Calls(a) + Calls(b)
  {
    if a == [] {
      assert a + b == b;
    } else {
      assert (a + b)[1..] == a[1..] + b;
      CallsConcat(a[1..], b);
      Assoc(if a[0].Call? then [a[0].call] else [], Calls(a[1..]), Calls(b));
    }
  }

  lemma AssembledSnoc(done: seq<Part>, p: Part)
    ensures Assembled(done + [p]) == Assembled(done).(
              content := Contents(done) + Contents([p]),
              toolCalls := if p.Call? then Some(Calls(done) + [p.call]) else Assembled(done).toolCalls)
    ensures Calls(done + [p]) == Calls(done) + Calls([p])
  {
    ContentsConcat(done, [p]);
    CallsConcat(done, [p]);
    assert [p][1..] == [];
    assert Calls([p]) == if p.Call? then [p.call] else [];
    assert Calls(done) + [] == Calls(done);
  }

  // ---------------------------------------------------------------- the empty verdict

  lemma {:induction false} AbsorbKeepsKind(head: Part, rest: seq<Part>)
    ensures var g := Absorb(head, rest);
            && g.Content? == head.Content? && g.Call? == head.Call?
    decreases |rest|
  {
    if rest != [] && Merge(head, rest[0]).Some? {
      AbsorbKeepsKind(Merge(head, rest[0]).value, rest[1..]);
    }
  }

  /** Absorbed parts of a kind follow a head of that kind. */
  lemma {:induction false} LeftoverKinds(head: Part, rest: seq<Part>)
    ensures head.Content? || Contents(Leftover(head, rest)) == Contents(rest)
    ensures Calls(Leftover(head, rest)) == Calls(rest)
    decreases |rest|
  {
    if rest != [] && Merge(head, rest[0]).Some? {
      LeftoverKinds(Merge(head, rest[0]).value, rest[1..]);
    }
  }

  /** A response is empty exactly when nothing in the stream is content or a call. */
  lemma {:induction false} EmptyVerdict(parts: seq<Part>)
    ensures Contents(Groups(parts)) == [] <==> Contents(parts) == []
    ensures Calls(Groups(parts)) == [] <==> Calls(parts) == []
    decreases |parts|
  {
    if parts != [] {
      var head, rest := parts[0], parts[1..];
      AbsorbKeepsKind(head, rest);
      LeftoverKinds(head, rest);
      EmptyVerdict(Leftover(head, rest));
      var tail := Groups(Leftover(head, rest));
      assert Groups(parts)[1..] == tail;
    }
  }

  // ---------------------------------------------------------------- regrouping

  lemma {:induction false} AbsorbStops(head: Part, rest: seq<Part>)
    ensures var left := Leftover(head, rest);
            left != [] ==> Merge(Absorb(head, rest), left[0]).None?
    decreases |rest|
  {
    if rest != [] && Merge(head, rest[0]).Some? {
      AbsorbStops(Merge(head, rest[0]).value, rest[1..]);
    }
  }

  /** Whether two parts merge depends on the right one only through its kind. */
  lemma {:induction false} MergeSeesKind(left: Part, head: Part, rest: seq<Part>)
    ensures Merge(left, Absorb(head, rest)).Some? == Merge(left, head).Some?
    decreases |rest|
  {
    if rest != [] && Merge(head, rest[0]).Some? {
      MergeSeesKind(left, Merge(head, rest[0]).value, rest[1..]);
    }
  }

  /** Grouping the groups changes nothing: they are maximal. */
  lemma {:induction false} RegroupingIsIdentity(parts: seq<Part>)
    ensures Groups(Groups(parts)) == Groups(parts)
    decreases |parts|
  {
    if parts != [] {
      var g, left := Absorb(parts[0], parts[1..]), Leftover(parts[0], parts[1..]);
      RegroupingIsIdentity(left);
      AbsorbStops(parts[0], parts[1..]);
      if left != [] {
        MergeSeesKind(g, left[0], left[1..]);
      }
      GroupsStep(g, Groups(left));
    }
  }

  // ---------------------------------------------------------------- re-chunking

  /** Merging is associative wherever the pieces themselves merge. */
  lemma MergeAssociates(l: Part, a: Part, b: Part)
    requires Merge(a, b).Some?
    ensures var x := Merge(a, b).value;
            match Merge(l, a)
            case None => Merge(l, x).None?
            case Some(la) => Merge(la, b).Some? && Merge(la, b) == Merge(l, x)
  {
    if l.Content? && l.part.Text? && a.Content? && a.part.Text? {
      assert l.part.text + (a.part.text + b.part.text) == l.part.text + a.part.text + b.part.text;
    } else if l.Content? && l.part.Think? && a.Content? && a.part.Think? {
      assert l.part.think + (a.part.think + b.part.think) == l.part.think + a.part.think + b.part.think;
    } else if a.CallPart? {
      var args := if l.Call? then l.call.callee.arguments else if l.CallPart? then l.arguments else None;
      JoinAssociates(args, a.arguments, b.arguments);
    }
  }

  lemma JoinAssociates(a: Option<string>, b: Option<string>, c: Option<string>)
    ensures JoinArguments(JoinArguments(a, b), c) == JoinArguments(a, JoinArguments(b, c))
  {
    if a.Some? && b.Some? && c.Some? {
      assert a.value + b.value + c.value == a.value + (b.value + c.value);
    }
  }

  /** Streams that agree on their next part, and group alike after it, group alike. */
  lemma GroupsAgree(head: Part, u: seq<Part>, v: seq<Part>, next: Part)
    requires u != [] && v != [] && u[0] == v[0]
    requires next == if Merge(head, u[0]).Some? then Merge(head, u[0]).value else u[0]
    requires Groups([next] + u[1..]) == Groups([next] + v[1..])
    ensures Groups([head] + u) == Groups([head] + v)
  {
    GroupsStep(head, u);
    GroupsStep(head, v);
    assert u == [u[0]] + u[1..] && v == [v[0]] + v[1..];
  }

  lemma PairAfterHead(head: Part, a: Part, b: Part, post: seq<Part>)
    requires Merge(a, b).Some?
    ensures Groups([head] + ([a, b] + post)) == Groups([head] + ([Merge(a, b).value] + post))
  {
    var x, rest := Merge(a, b).value, [b] + post;
    assert [a, b] + post == [a] + rest && ([a] + rest)[1..] == rest && rest[1..] == post;
    assert ([x] + post)[1..] == post;
    MergeAssociates(head, a, b);
    GroupsStep(head, [a] + rest);
    GroupsStep(head, [x] + post);
    GroupsStep(a, rest);
    if Merge(head, a).Some? {
      GroupsStep(Merge(head, a).value, rest);
    }
  }

  /** Two adjacent parts that merge may as well have arrived as one. */
  lemma {:induction false} MergedPairIsOne(head: Part, pre: seq<Part>, a: Part, b: Part, post: seq<Part>)
    requires Merge(a, b).Some?
    ensures Groups([head] + (pre + [a, b] + post)) == Groups([head] + (pre + [Merge(a, b).value] + post))
    decreases |pre|
  {
    var x := Merge(a, b).value;
    if pre == [] {
      assert pre + [a, b] == [a, b] && pre + [x] == [x];
      PairAfterHead(head, a, b, post);
    } else {
      var two, one := pre + [a, b] + post, pre + [x] + post;
      assert two[1..] == pre[1..] + [a, b] + post && one[1..] == pre[1..] + [x] + post;
      var next := if Merge(head, pre[0]).Some? then Merge(head, pre[0]).value else pre[0];
      MergedPairIsOne(next, pre[1..], a, b, post);
      GroupsAgree(head, two, one, next);
    }
  }

  lemma FirstOut<T>(pre: seq<T>, middle: seq<T>, post: seq<T>)
    requires pre != []
    ensures pre + middle + post == [pre[0]] + (pre[1..] + middle + post)
  {
  }

  lemma PairInFront(a: Part, b: Part, post: seq<Part>)
    requires Merge(a, b).Some?
    ensures Groups([a, b] + post) == Groups([Merge(a, b).value] + post)
  {
    var rest := [b] + post;
    assert [a, b] + post == [a] + rest && rest[1..] == post;
    GroupsStep(a, rest);
  }

  lemma MergedPairAnywhere(pre: seq<Part>, a: Part, b: Part, post: seq<Part>)
    requires Merge(a, b).Some?
    ensures Groups(pre + [a, b] + post) == Groups(pre + [Merge(a, b).value] + post)
  {
    if pre == [] {
      assert pre + [a, b] == [a, b] && pre + [Merge(a, b).value] == [Merge(a, b).value];
      PairInFront(a, b, post);
    } else {
      FirstOut(pre, [a, b], post);
      FirstOut(pre, [Merge(a, b).value], post);
      MergedPairIsOne(pre[0], pre[1..], a, b, post);
    }
  }

  /** `pieces` is a way of cutting the fragment x into consecutive pieces. */
  ghost predicate Cuts(pieces: seq<Part>, x: Part)
    decreases |pieces|
  {
    |pieces| > 0 &&
    if |pieces| == 1 then pieces[0] == x
    else Merge(pieces[0], pieces[1]).Some? && Cuts([Merge(pieces[0], pieces[1]).value] + pieces[2..], x)
  }

  lemma InTheMiddle<T>(pre: seq<T>, a: seq<T>, b: seq<T>, post: seq<T>)
    ensures pre + (a + b) + post == pre + a + (b + post)
  {
    Assoc(pre, a, b);
    Assoc(pre + a, b, post);
  }

  lemma CutsBegin(first: Part, second: Part, rest: seq<Part>, x: Part)
    requires Merge(first, second).Some? && Cuts([Merge(first, second).value] + rest, x)
    ensures Cuts([first, second] + rest, x)
  {
    assert ([first, second] + rest)[2..] == rest;
  }

  /** However a fragment is cut into pieces, the groups are the same, and with them the
      message, the callbacks and the verdict on emptiness. */
  lemma {:induction false} RechunkingIsInvisible(pre: seq<Part>, pieces: seq<Part>, x: Part, post: seq<Part>)
    requires Cuts(pieces, x)
    ensures Groups(pre + pieces + post) == Groups(pre + [x] + post)
    decreases |pieces|
  {
    if |pieces| == 1 {
      assert pieces == [x];
    } else {
      var y := Merge(pieces[0], pieces[1]).value;
      MergedPairAnywhere(pre, pieces[0], pieces[1], pieces[2..] + post);
      InTheMiddle(pre, [pieces[0], pieces[1]], pieces[2..], post);
      InTheMiddle(pre, [y], pieces[2..], post);
      assert pieces == [pieces[0], pieces[1]] + pieces[2..];
      RechunkingIsInvisible(pre, [y] + pieces[2..], x, post);
    }
  }

  function Join(ss: seq<string>): string {
    if ss == [] then "" else ss[0] + Join(ss[1..])
  }

  lemma JoinPair(a: string, b: string, rest: seq<string>)
    ensures Join([a + b] + rest) == Join([a, b] + rest)
  {
    assert ([a + b] + rest)[1..] == rest;
    assert ([a, b] + rest)[1..] == [b] + rest;
    assert ([b] + rest)[1..] == rest;
  }

  /** The cuts the stream may make: text anywhere; thinking with its signature on the last
      piece; call arguments anywhere, after the call or after an argument fragment. */
  lemma {:induction false} TextCuts(kind: string, ss: seq<string>)
    requires ss != []
    ensures Cuts(seq(|ss|, i requires 0 <= i < |ss| => Content(Text(kind, ss[i]))), Content(Text(kind, Join(ss))))
    decreases |ss|
  {
    var pieces := seq(|ss|, i requires 0 <= i < |ss| => Content(Text(kind, ss[i])));
    if |ss| == 1 {
      assert ss[1..] == [];
      assert ss[0] + Join(ss[1..]) == ss[0];
    } else {
      var t := [ss[0] + ss[1]] + ss[2..];
      JoinPair(ss[0], ss[1], ss[2..]);
      assert [ss[0], ss[1]] + ss[2..] == ss;
      TextCuts(kind, t);
      assert seq(|t|, i requires 0 <= i < |t| => Content(Text(kind, t[i])))
          == [Merge(pieces[0], pieces[1]).value] + pieces[2..];
    }
  }

  function ThinkPiece(kind: string, ss: seq<string>, e: Option<string>, i: nat): Part
    requires i < |ss|
  {
    Content(Think(kind, ss[i], if i == |ss| - 1 then e else None))
  }

  lemma {:induction false} ThinkCuts(kind: string, ss: seq<string>, e: Option<string>)
    requires ss != []
    ensures Cuts(seq(|ss|, i requires 0 <= i < |ss| => ThinkPiece(kind, ss, e, i)), Content(Think(kind, Join(ss), e)))
    decreases |ss|
  {
    var pieces := seq(|ss|, i requires 0 <= i < |ss| => ThinkPiece(kind, ss, e, i));
    if |ss| == 1 {
      assert ss[1..] == [];
      assert ss[0] + Join(ss[1..]) == ss[0];
    } else {
      var t := [ss[0] + ss[1]] + ss[2..];
      JoinPair(ss[0], ss[1], ss[2..]);
      assert [ss[0], ss[1]] + ss[2..] == ss;
      ThinkCuts(kind, t, e);
      assert seq(|t|, i requires 0 <= i < |t| => ThinkPiece(kind, t, e, i))
          == [Merge(pieces[0], pieces[1]).value] + pieces[2..];
    }
  }

  function Fragments(fs: seq<Option<string>>): seq<Part> {
    seq(|fs|, i requires 0 <= i < |fs| => CallPart(fs[i]))
  }

  lemma FirstFragment(head: Part, fs: seq<Option<string>>)
    requires fs != []
    ensures [head] + Fragments(fs) == [head, CallPart(fs[0])] + Fragments(fs[1..])
  {
  }

  function JoinedText(fs: seq<Option<string>>): string {
    if fs == [] then "" else ArgumentText(fs[0]) + JoinedText(fs[1..])
  }

  /** A call, or an argument fragment, with all the fragments behind it. */
  function WithAll(head: Part, fs: seq<Option<string>>): (r: Part)
    requires head.Call? || head.CallPart?
    ensures r.Call? == head.Call? && r.CallPart? == head.CallPart?
    decreases |fs|
  {
    if fs == [] then head else WithAll(Merge(head, CallPart(fs[0])).value, fs[1..])
  }

  /** Call arguments may be cut anywhere, behind the call (with arguments begun or not) or
      behind an argument fragment; fragments may be missing. */
  lemma {:induction false} ArgumentCuts(head: Part, fs: seq<Option<string>>)
    requires head.Call? || head.CallPart?
    ensures Cuts([head] + Fragments(fs), WithAll(head, fs))
    decreases |fs|
  {
    if fs == [] {
      assert [head] + Fragments(fs) == [head];
    } else {
      var next := CallPart(fs[0]);
      ArgumentCuts(Merge(head, next).value, fs[1..]);
      CutsBegin(head, next, Fragments(fs[1..]), WithAll(head, fs));
      FirstFragment(head, fs);
    }
  }

  /** And what they are pieces of is the one call, with its arguments' text joined in order. */
  lemma {:induction false} ArgumentsJoin(head: Part, fs: seq<Option<string>>)
    requires head.Call? || head.CallPart?
    ensures head.Call? ==>
              var c, r := head.call, WithAll(head, fs).call;
              && r.kind == c.kind && r.id == c.id && r.extras == c.extras && r.callee.name == c.callee.name
              && ArgumentText(r.callee.arguments) == ArgumentText(c.callee.arguments) + JoinedText(fs)
    ensures head.CallPart? ==>
              ArgumentText(WithAll(head, fs).arguments) == ArgumentText(head.arguments) + JoinedText(fs)
    decreases |fs|
  {
    var own := if head.Call? then ArgumentText(head.call.callee.arguments) else ArgumentText(head.arguments);
    if fs == [] {
      assert own + "" == own;
    } else {
      ArgumentsJoin(Merge(head, CallPart(fs[0])).value, fs[1..]);
      Assoc(own, ArgumentText(fs[0]), JoinedText(fs[1..]));
    }
  }

  // ---------------------------------------------------------------- conservation

  /** What a stream carries, down to the character. */
  datatype Atom =
    | TextChar(c: char)
    | ThinkChar(c: char)
    | Signature(text: string)
    | Picture(part: ContentPart)
    | CallStart(kind: string, id: string, name: string, extras: Option<map<string, Json.Json>>)
    | ArgumentChar(c: char)

  function Spelled(text: string, atom: char -> Atom): seq<Atom> {
    seq(|text|, i requires 0 <= i < |text| => atom(text[i]))
  }

  lemma SpelledConcat(a: string, b: string, atom: char -> Atom)
    ensures Spelled(a + b, atom) == Spelled(a, atom) + Spelled(b, atom)
  {
  }

  function ContentAtoms(p: ContentPart): seq<Atom> {
    match p
    case Text(_, text) => Spelled(text, c => TextChar(c))
    case Think(_, think, encrypted) =>
      Spelled(think, c => ThinkChar(c)) + if encrypted.Some? then [Signature(encrypted.value)] else []
    case _ => [Picture(p)]
  }

  function ArgumentAtoms(arguments: Option<string>): seq<Atom> {
    Spelled(ArgumentText(arguments), c => ArgumentChar(c))
  }

  function CallAtoms(c: ToolCall): seq<Atom> {
    [CallStart(c.kind, c.id, c.callee.name, c.extras)] + ArgumentAtoms(c.callee.arguments)
  }

  function ContentTrace(content: seq<ContentPart>): seq<Atom> {
    if content == [] then [] else ContentAtoms(content[0]) + ContentTrace(content[1..])
  }

  function CallTrace(calls: seq<ToolCall>): seq<Atom> {
    if calls == [] then [] else CallAtoms(calls[0]) + CallTrace(calls[1..])
  }

  /** The content a stream delivers. */
  function StreamedContent(parts: seq<Part>): seq<Atom> {
    if parts == [] then []
    else (if parts[0].Content? then ContentAtoms(parts[0].part) else []) + StreamedContent(parts[1..])
  }

  /** The calls a stream delivers; argument fragments count only while the last thing before
      them was a call or its fragments. */
  function StreamedCalls(parts: seq<Part>, inCall: bool): seq<Atom> {
    if parts == [] then []
    else
      match parts[0]
      case Content(_) => StreamedCalls(parts[1..], false)
      case Call(c) => CallAtoms(c) + StreamedCalls(parts[1..], true)
      case CallPart(args) => (if inCall then ArgumentAtoms(args) else []) + StreamedCalls(parts[1..], inCall)
  }

  lemma MergedContentAtoms(a: Part, b: Part)
    requires Merge(a, b).Some? && a.Content?
    ensures b.Content? && Merge(a, b).value.Content?
    ensures ContentAtoms(Merge(a, b).value.part) == ContentAtoms(a.part) + ContentAtoms(b.part)
  {
    if a.part.Text? {
      SpelledConcat(a.part.text, b.part.text, c => TextChar(c));
    } else {
      SpelledConcat(a.part.think, b.part.think, c => ThinkChar(c));
    }
  }

  lemma MergedArguments(left: Option<string>, right: Option<string>)
    ensures ArgumentAtoms(JoinArguments(left, right)) == ArgumentAtoms(left) + ArgumentAtoms(right)
  {
    SpelledConcat(ArgumentText(left), ArgumentText(right), c => ArgumentChar(c));
  }

  lemma {:induction false} AbsorbKeepsContent(head: Part, rest: seq<Part>)
    ensures Absorb(head, rest).Content? == head.Content?
    ensures StreamedContent([head] + rest)
            == (if head.Content? then ContentAtoms(Absorb(head, rest).part) else []) + StreamedContent(Leftover(head, rest))
    decreases |rest|
  {
    assert ([head] + rest)[1..] == rest;
    if rest != [] && Merge(head, rest[0]).Some? {
      var m := Merge(head, rest[0]).value;
      AbsorbKeepsContent(m, rest[1..]);
      assert ([m] + rest[1..])[1..] == rest[1..];
      if head.Content? {
        MergedContentAtoms(head, rest[0]);
        Assoc(ContentAtoms(head.part), ContentAtoms(rest[0].part), StreamedContent(rest[1..]));
      }
    }
  }

  /** What a part contributes to the calls, and whether fragments behind it count. */
  function CallShare(p: Part, inCall: bool): (seq<Atom>, bool) {
    match p
    case Content(_) => ([], false)
    case Call(c) => (CallAtoms(c), true)
    case CallPart(args) => (if inCall then ArgumentAtoms(args) else [], inCall)
  }

  lemma MergedCallShare(a: Part, b: Part, inCall: bool)
    requires Merge(a, b).Some?
    ensures var (x, after) := CallShare(a, inCall); var (y, last) := CallShare(b, after);
            CallShare(Merge(a, b).value, inCall) == (x + y, last)
  {
    var none: seq<Atom> := [];
    assert none + none == none;
    if a.Call? {
      MergedArguments(a.call.callee.arguments, b.arguments);
      Assoc([CallStart(a.call.kind, a.call.id, a.call.callee.name, a.call.extras)],
            ArgumentAtoms(a.call.callee.arguments), ArgumentAtoms(b.arguments));
    } else if a.CallPart? {
      MergedArguments(a.arguments, b.arguments);
    }
  }

  lemma StreamedCallsCons(p: Part, rest: seq<Part>, inCall: bool)
    ensures StreamedCalls([p] + rest, inCall) == CallShare(p, inCall).0 + StreamedCalls(rest, CallShare(p, inCall).1)
  {
    assert ([p] + rest)[1..] == rest;
    assert [] + StreamedCalls(rest, false) == StreamedCalls(rest, false);
  }

  lemma {:induction false} AbsorbKeepsCalls(head: Part, rest: seq<Part>, inCall: bool)
    ensures var (x, after) := CallShare(Absorb(head, rest), inCall);
            StreamedCalls([head] + rest, inCall) == x + StreamedCalls(Leftover(head, rest), after)
    decreases |rest|
  {
    StreamedCallsCons(head, rest, inCall);
    if rest != [] && Merge(head, rest[0]).Some? {
      var m := Merge(head, rest[0]).value;
      AbsorbKeepsCalls(m, rest[1..], inCall);
      StreamedCallsCons(m, rest[1..], inCall);
      MergedCallShare(head, rest[0], inCall);
      var (x, after) := CallShare(head, inCall);
      StreamedCallsCons(rest[0], rest[1..], after);
      assert [rest[0]] + rest[1..] == rest;
      Assoc(x, CallShare(rest[0], after).0, StreamedCalls(rest[1..], CallShare(rest[0], after).1));
    }
  }

  lemma {:induction false} ContentIsConserved(parts: seq<Part>)
    ensures ContentTrace(Contents(Groups(parts))) == StreamedContent(parts)
    decreases |parts|
  {
    if parts != [] {
      var g, left := Absorb(parts[0], parts[1..]), Leftover(parts[0], parts[1..]);
      ContentIsConserved(left);
      AbsorbKeepsContent(parts[0], parts[1..]);
      assert [parts[0]] + parts[1..] == parts;
      assert ([g] + Groups(left))[1..] == Groups(left);
      var tail := Contents(Groups(left));
      if g.Content? {
        assert ([g.part] + tail)[1..] == tail;
      } else {
        assert [] + tail == tail && [] + StreamedContent(left) == StreamedContent(left);
      }
    }
  }

  lemma {:induction false} CallsAreConserved(parts: seq<Part>)
    ensures CallTrace(Calls(Groups(parts))) == StreamedCalls(parts, false)
    decreases |parts|
  {
    if parts != [] {
      var g, left := Absorb(parts[0], parts[1..]), Leftover(parts[0], parts[1..]);
      CallsAreConserved(left);
      AbsorbKeepsCalls(parts[0], parts[1..], false);
      AbsorbStops(parts[0], parts[1..]);
      assert [parts[0]] + parts[1..] == parts;
      assert ([g] + Groups(left))[1..] == Groups(left);
      var tail := Calls(Groups(left));
      if g.Call? {
        assert left == [] || !left[0].CallPart?;
        assert StreamedCalls(left, true) == StreamedCalls(left, false);
        assert ([g.call] + tail)[1..] == tail;
      } else {
        assert [] + tail == tail && [] + StreamedCalls(left, false) == StreamedCalls(left, false);
      }
    }
  }

  /** The message and its callbacks hold the stream, to the character and in order: its
      content, and its calls with the argument fragments that followed them. */
  predicate Holds(m: Message, callbacks: seq<ToolCall>, parts: seq<Part>) {
    && m == Message(Assistant, m.content, None, if callbacks == [] then None else Some(callbacks), None, None)
    && ContentTrace(m.content) == StreamedContent(parts)
    && CallTrace(callbacks) == StreamedCalls(parts, false)
  }

  /** Coalescing loses, adds and reorders nothing. */
  lemma AssembledHolds(parts: seq<Part>)
    ensures Holds(Assembled(Groups(parts)), Calls(Groups(parts)), parts)
  {
    ContentIsConserved(parts);
    CallsAreConserved(parts);
  }
}
