/** The conversation context and the log file that backs it.

    Every change is appended to the file and mirrored in memory; `restore` replays the file,
    `revert_to` rewrites it up to a checkpoint, `clear` starts a new one. The replaced files
    are kept aside. The file is a sequence of lines; I/O that fails is not modelled beyond a
    file that is not there. */
module ContextLog {
  import opened Wrappers
  import opened Json
  import opened Messages
  import opened MessageCodec

  const MAX_INT64: int := 0x7fff_ffff_ffff_ffff

  type int64 = x: int | -MAX_INT64 - 1 <= x <= MAX_INT64

  datatype Line = Blank | Garbled | Value(v: Json)

  datatype Memory = Memory(history: seq<Message>, tokenCount: int, nextId: int)

  const EmptyMemory := Memory([], 0, 0)

  datatype ContextError = AlreadyModified | NoSuchCheckpoint | NoRotation | NoFile | Malformed | IdsExhausted

  // ---------------------------------------------------------------- lines

  function UsageLine(n: int): Line {
    Value(Obj(map["role" := Str("_usage"), "token_count" := Int(n)]))
  }

  function CheckpointLine(id: int): Line {
    Value(Obj(map["role" := Str("_checkpoint"), "id" := Int(id)]))
  }

  function MessageLine(m: Message): Line {
    Value(Strip(Encode(m)))
  }

  predicate IsUsage(v: Json) {
    GetStr(v, "role") == Some("_usage")
  }

  predicate IsCheckpoint(v: Json) {
    GetStr(v, "role") == Some("_checkpoint")
  }

  function Absorb(m: Memory, v: Json): Option<Memory> {
    if IsUsage(v) then
      match GetInt64(v, "token_count")
      case Some(n) => Some(m.(tokenCount := n))
      case None => Some(m)
    else if IsCheckpoint(v) then
      match GetInt64(v, "id")
      case Some(id) => Some(m.(nextId := id + 1))
      case None => Some(m)
    else
      match Decode(v)
      case Some(msg) => Some(m.(history := m.history + [msg]))
      case None => None
  }

  function ReadLine(m: Memory, l: Line): Option<Memory> {
    match l
    case Blank => Some(m)
    case Garbled => None
    case Value(v) => Absorb(m, v)
  }

  /** What reading the lines in order makes of a memory; none when a line does not parse. */
  function Replay(m: Memory, lines: seq<Line>): Option<Memory>
    decreases |lines|
  {
    if lines == [] then Some(m)
    else
      match ReadLine(m, lines[0])
      case None => None
      case Some(m') => Replay(m', lines[1..])
  }

  predicate Stops(l: Line, k: int) {
    l.Value? && IsCheckpoint(l.v) && GetInt64(l.v, "id") == Some(k)
  }

  /** The lines a revert to k writes back: those before the first checkpoint k, blanks gone. */
  function KeptLines(lines: seq<Line>, k: int): seq<Line> {
    if lines == [] || Stops(lines[0], k) then []
    else if lines[0].Blank? then KeptLines(lines[1..], k)
    else [lines[0]] + KeptLines(lines[1..], k)
  }

  function MessageLines(ms: seq<Message>): seq<Line> {
    seq(|ms|, i requires 0 <= i < |ms| => MessageLine(ms[i]))
  }

  lemma MessageLinesSnoc(ms: seq<Message>, i: nat, line: Line)
    requires i < |ms| && line == MessageLine(ms[i])
    ensures MessageLines(ms[..i + 1]) == MessageLines(ms[..i]) + [line]
  {
  }

  function CheckpointMessage(id: int): Message {
    NewMessage(User, [SystemText("CHECKPOINT " + Numeral(id))])
  }

  function Numeral(n: int): string {
    if n < 0 then "-" + Decimal(-n) else Decimal(n)
  }

  // ---------------------------------------------------------------- operations on values

  datatype Store = Store(memory: Memory, file: Option<seq<Line>>, rotated: seq<seq<Line>>)

  datatype Op =
    | Append(messages: seq<Message>)
    | Usage(n: int64)
    | Mark(addUserMessage: bool)
    | Revert(k: int64)
    | Clear

  function Lines(s: Store): seq<Line> {
    if s.file.Some? then s.file.value else []
  }

  function Appended(s: Store, lines: seq<Line>): Store {
    s.(file := Some(Lines(s) + lines))
  }

  /** One operation, or none when it reports an error. */
  function Apply(s: Store, op: Op): Option<Store> {
    var m := s.memory;
    match op
    case Append(ms) => Some(Appended(s, MessageLines(ms)).(memory := m.(history := m.history + ms)))
    case Usage(n) => Some(Appended(s, [UsageLine(n)]).(memory := m.(tokenCount := n)))
    case Mark(add) =>
      if m.nextId >= MAX_INT64 then None
      else
        var ms := MarkMessages(m.nextId, add);
        Some(Appended(s, [CheckpointLine(m.nextId)] + MessageLines(ms))
             .(memory := m.(nextId := m.nextId + 1, history := m.history + ms)))
    case Revert(k) =>
      if k >= m.nextId || s.file.None? then None
      else
        var kept := KeptLines(Lines(s), k);
        (match Replay(EmptyMemory, kept)
         case None => None
         case Some(m') => Some(Store(m', Some(kept), s.rotated + [Lines(s)])))
    case Clear =>
      if s.file.None? then None
      else Some(Store(EmptyMemory, Some([]), s.rotated + [Lines(s)]))
  }

  function ApplyAll(s: Store, ops: seq<Op>): Option<Store> {
    if ops == [] then Some(s)
    else
      match ApplyAll(s, ops[..|ops| - 1])
      case None => None
      case Some(s') => Apply(s', ops[|ops| - 1])
  }

  // ---------------------------------------------------------------- reading lines back

  lemma {:induction false} ReplayConcat(m: Memory, a: seq<Line>, b: seq<Line>)
    ensures Replay(m, a + b)
            == match Replay(m, a) case None => None case Some(m') => Replay(m', b)
    decreases |a|
  {
    if a == [] {
      assert a + b == b;
    } else {
      assert (a + b)[1..] == a[1..] + b;
      match ReadLine(m, a[0]) {
        case None =>
        case Some(m') => ReplayConcat(m', a[1..], b);
      }
    }
  }

  lemma BookkeepingReadsBack(m: Memory, n: int64)
    ensures ReadLine(m, UsageLine(n)) == Some(m.(tokenCount := n))
    ensures ReadLine(m, CheckpointLine(n)) == Some(m.(nextId := n + 1))
    ensures forall k :: Stops(CheckpointLine(n), k) <==> k == n
    ensures forall k :: !Stops(UsageLine(n), k)
  {
    var u := Obj(map["role" := Str("_usage"), "token_count" := Int(n)]);
    assert GetStr(u, "role") == Some("_usage") && GetInt64(u, "token_count") == Some(n);
    var c := Obj(map["role" := Str("_checkpoint"), "id" := Int(n)]);
    assert GetStr(c, "role") == Some("_checkpoint") && GetInt64(c, "id") == Some(n);
  }

  lemma MessageReadsBack(m: Memory, msg: Message)
    requires WellKinded(msg)
    ensures ReadLine(m, MessageLine(msg)) == Some(m.(history := m.history + [msg]))
    ensures forall k :: !Stops(MessageLine(msg), k)
  {
    RoundTrip(msg);
    NoMessageLooksLikeBookkeeping(msg);
  }

  ghost predicate Pushes(l: Line, msg: Message) {
    forall m :: ReadLine(m, l) == Some(m.(history := m.history + [msg]))
  }

  lemma PushThenRest<T>(a: seq<T>, b: seq<T>)
    requires b != []
    ensures (a + [b[0]]) + b[1..] == a + b
  {
  }

  lemma {:induction false} ReplayPushes(m: Memory, lines: seq<Line>, ms: seq<Message>)
    requires |lines| == |ms|
    requires forall i :: 0 <= i < |ms| ==> Pushes(lines[i], ms[i])
    ensures Replay(m, lines) == Some(m.(history := m.history + ms))
    decreases |ms|
  {
    if ms == [] {
      assert m.history + ms == m.history;
    } else {
      assert Pushes(lines[0], ms[0]);
      var m' := m.(history := m.history + [ms[0]]);
      assert ReadLine(m, lines[0]) == Some(m');
      ReplayPushes(m', lines[1..], ms[1..]);
      PushThenRest(m.history, ms);
    }
  }

  lemma MessagesPush(ms: seq<Message>, lines: seq<Line>)
    requires lines == MessageLines(ms)
    requires forall i :: 0 <= i < |ms| ==> WellKinded(ms[i])
    ensures forall i :: 0 <= i < |ms| ==> Pushes(lines[i], ms[i])
  {
    forall i | 0 <= i < |ms|
      ensures Pushes(lines[i], ms[i])
    {
      forall m
        ensures ReadLine(m, lines[i]) == Some(m.(history := m.history + [ms[i]]))
      {
        MessageReadsBack(m, ms[i]);
      }
    }
  }

  lemma MessagesReadBack(m: Memory, ms: seq<Message>, lines: seq<Line>)
    requires lines == MessageLines(ms)
    requires forall i :: 0 <= i < |ms| ==> WellKinded(ms[i])
    ensures Replay(m, lines) == Some(m.(history := m.history + ms))
  {
    MessagesPush(ms, lines);
    ReplayPushes(m, lines, ms);
  }

  /** After the lines of before stands one line per message, which reads back as it when its
      parts carry their own tags. */
  ghost predicate LinesHold(before: seq<Line>, after: seq<Line>, ms: seq<Message>) {
    && before <= after && |after| == |before| + |ms|
    && forall i :: 0 <= i < |ms| ==>
         var l := after[|before| + i];
         l.Value? && (WellKinded(ms[i]) ==> Decode(l.v) == Some(ms[i]))
  }

  lemma MessageLinesHold(before: seq<Line>, ms: seq<Message>)
    ensures LinesHold(before, before + MessageLines(ms), ms)
  {
    forall i | 0 <= i < |ms|
      ensures WellKinded(ms[i]) ==> Decode(MessageLine(ms[i]).v) == Some(ms[i])
    {
      RoundTrip(ms[i]);
    }
  }

  /** The first n messages are in the file. */
  ghost predicate Written(before: seq<Line>, after: seq<Line>, ms: seq<Message>, n: nat)
    requires n <= |ms|
  {
    after == before + MessageLines(ms[..n])
  }

  lemma NoneWritten(before: seq<Line>, ms: seq<Message>)
    ensures Written(before, before + [], ms, 0)
  {
  }

  lemma OneMoreWritten(before: seq<Line>, after: seq<Line>, ms: seq<Message>, n: nat, line: Line)
    requires n < |ms| && line == MessageLine(ms[n]) && Written(before, after, ms, n)
    ensures Written(before, after + [line], ms, n + 1)
  {
    MessageLinesSnoc(ms, n, line);
    assert before + MessageLines(ms[..n]) + [line] == before + (MessageLines(ms[..n]) + [line]);
  }

  lemma AllWritten(before: seq<Line>, after: seq<Line>, ms: seq<Message>)
    requires Written(before, after, ms, |ms|)
    ensures after == before + MessageLines(ms) && LinesHold(before, after, ms)
  {
    assert ms[..|ms|] == ms;
    MessageLinesHold(before, ms);
  }

  // ---------------------------------------------------------------- memory refines the log

  /** The memory is what replaying the active file from scratch gives. */
  ghost predicate Synced(s: Store) {
    Replay(EmptyMemory, Lines(s)) == Some(s.memory)
  }

  /** Messages are appended with tags that match their parts, as their constructors give. */
  ghost predicate Proper(op: Op) {
    op.Append? ==> forall i :: 0 <= i < |op.messages| ==> WellKinded(op.messages[i])
  }

  lemma ReplayCons(m: Memory, l: Line, lines: seq<Line>)
    requires ReadLine(m, l).Some?
    ensures Replay(m, [l] + lines) == Replay(ReadLine(m, l).value, lines)
  {
    assert ([l] + lines)[1..] == lines;
  }

  /** What a checkpoint adds to the history. */
  function MarkMessages(id: int, add: bool): (ms: seq<Message>)
    ensures forall i :: 0 <= i < |ms| ==> WellKinded(ms[i])
  {
    if add then [CheckpointMessage(id)] else []
  }

  /** Replay never makes up an id below the 64-bit range. */
  lemma {:induction false} NextIdInRange(m: Memory, lines: seq<Line>)
    requires m.nextId >= -MAX_INT64 - 1 && Replay(m, lines).Some?
    ensures Replay(m, lines).value.nextId >= -MAX_INT64 - 1
    decreases |lines|
  {
    if lines != [] {
      NextIdInRange(ReadLine(m, lines[0]).value, lines[1..]);
    }
  }

  /** Lines that replay to a new memory, once appended, replay with the rest to it too. */
  lemma ExtendKeepsSync(s: Store, s': Store, lines: seq<Line>)
    requires Synced(s) && Replay(s.memory, lines) == Some(s'.memory)
    requires Lines(s') == Lines(s) + lines
    ensures Synced(s')
  {
    ReplayConcat(EmptyMemory, Lines(s), lines);
  }

  lemma AppendKeepsSync(s: Store, ms: seq<Message>)
    requires Synced(s) && Proper(Append(ms))
    ensures Synced(Apply(s, Append(ms)).value)
  {
    MessagesReadBack(s.memory, ms, MessageLines(ms));
    ExtendKeepsSync(s, Apply(s, Append(ms)).value, MessageLines(ms));
  }

  lemma MarkReplays(m: Memory, c: Line, ms: seq<Message>, lines: seq<Line>)
    requires ReadLine(m, c) == Some(m.(nextId := m.nextId + 1))
    requires lines == MessageLines(ms) && forall i :: 0 <= i < |ms| ==> WellKinded(ms[i])
    ensures Replay(m, [c] + lines) == Some(m.(nextId := m.nextId + 1, history := m.history + ms))
  {
    MessagesReadBack(m.(nextId := m.nextId + 1), ms, lines);
    ReplayCons(m, c, lines);
  }

  lemma MarkKeepsSync(s: Store, add: bool)
    requires Synced(s) && Apply(s, Mark(add)).Some?
    ensures Synced(Apply(s, Mark(add)).value)
  {
    var id, ms := s.memory.nextId, MarkMessages(s.memory.nextId, add);
    NextIdInRange(EmptyMemory, Lines(s));
    BookkeepingReadsBack(s.memory, id);
    MarkReplays(s.memory, CheckpointLine(id), ms, MessageLines(ms));
    ExtendKeepsSync(s, Apply(s, Mark(add)).value, [CheckpointLine(id)] + MessageLines(ms));
  }

  lemma UsageKeepsSync(s: Store, n: int64)
    requires Synced(s)
    ensures Synced(Apply(s, Usage(n)).value)
  {
    BookkeepingReadsBack(s.memory, n);
    assert [UsageLine(n)][1..] == [];
    ExtendKeepsSync(s, Apply(s, Usage(n)).value, [UsageLine(n)]);
  }

  lemma StepKeepsSync(s: Store, op: Op)
    requires Synced(s) && Proper(op) && Apply(s, op).Some?
    ensures Synced(Apply(s, op).value)
  {
    match op
    case Append(ms) => AppendKeepsSync(s, ms);
    case Usage(n) => UsageKeepsSync(s, n);
    case Mark(add) => MarkKeepsSync(s, add);
    case _ =>
  }

  /** From any synced start (a new context on no file, or any restored one), every run of
      successful operations leaves memory equal to a replay of the active file. */
  lemma {:induction false} MemoryRefinesLog(s: Store, ops: seq<Op>)
    requires Synced(s) && ApplyAll(s, ops).Some?
    requires forall i :: 0 <= i < |ops| ==> Proper(ops[i])
    ensures Synced(ApplyAll(s, ops).value)
  {
    if ops != [] {
      MemoryRefinesLog(s, ops[..|ops| - 1]);
      StepKeepsSync(ApplyAll(s, ops[..|ops| - 1]).value, ops[|ops| - 1]);
    }
  }

  // ---------------------------------------------------------------- checkpoint ids

  /** The ids of the checkpoint lines, in order. */
  function Ids(lines: seq<Line>): seq<int> {
    if lines == [] then []
    else if lines[0].Value? && IsCheckpoint(lines[0].v) && GetInt64(lines[0].v, "id").Some?
    then [GetInt64(lines[0].v, "id").value] + Ids(lines[1..])
    else Ids(lines[1..])
  }

  predicate NoBlanks(lines: seq<Line>) {
    forall i :: 0 <= i < |lines| ==> !lines[i].Blank?
  }

  /** A log this context could have written itself. */
  ghost predicate Own(s: Store) {
    && Synced(s)
    && NoBlanks(Lines(s))
    && |Ids(Lines(s))| == s.memory.nextId
    && forall i :: 0 <= i < s.memory.nextId ==> Ids(Lines(s))[i] == i
  }

  lemma {:induction false} IdsConcat(a: seq<Line>, b: seq<Line>)
    ensures Ids(a + b) == Ids(a) + Ids(b)
  {
    if a == [] {
      assert a + b == b;
    } else {
      assert (a + b)[1..] == a[1..] + b;
      IdsConcat(a[1..], b);
    }
  }

  lemma {:induction false} NoIds(lines: seq<Line>)
    requires forall i :: 0 <= i < |lines| ==> lines[i].Value? && !IsCheckpoint(lines[i].v)
    ensures Ids(lines) == [] && NoBlanks(lines)
  {
    if lines != [] {
      NoIds(lines[1..]);
    }
  }

  lemma MessagesHaveNoIds(ms: seq<Message>)
    ensures Ids(MessageLines(ms)) == [] && NoBlanks(MessageLines(ms))
  {
    var lines := MessageLines(ms);
    forall i | 0 <= i < |lines|
      ensures lines[i].Value? && !IsCheckpoint(lines[i].v)
    {
      NoMessageLooksLikeBookkeeping(ms[i]);
    }
    NoIds(lines);
  }

  /** Lines without blanks and without a checkpoint k pass through a revert to k. */
  lemma {:induction false} KeptPassesPrefix(a: seq<Line>, b: seq<Line>, k: int)
    requires NoBlanks(a) && k !in Ids(a)
    ensures KeptLines(a + b, k) == a + KeptLines(b, k)
  {
    if a == [] {
      assert a + b == b;
    } else {
      assert (a + b)[1..] == a[1..] + b;
      assert NoBlanks(a[1..]);
      assert !Stops(a[0], k);
      KeptPassesPrefix(a[1..], b, k);
    }
  }

  /** What a revert to k keeps: a prefix of the log, with the ids before the first k. */
  lemma {:induction false} KeptIds(lines: seq<Line>, k: int)
    requires NoBlanks(lines)
    ensures var kept := KeptLines(lines, k);
            && NoBlanks(kept) && kept <= lines
            && k !in Ids(kept) && Ids(kept) <= Ids(lines)
            && (k !in Ids(lines) ==> kept == lines)
            && (k in Ids(lines) ==> |Ids(kept)| < |Ids(lines)| && Ids(lines)[|Ids(kept)|] == k)
  {
    if lines != [] && !Stops(lines[0], k) {
      assert NoBlanks(lines[1..]);
      KeptIds(lines[1..], k);
      assert lines == [lines[0]] + lines[1..];
      assert KeptLines(lines, k)[1..] == KeptLines(lines[1..], k);
    }
  }

  /** Replay ends with the id after the last checkpoint read. */
  lemma {:induction false} ReplayNextId(m: Memory, lines: seq<Line>)
    requires Replay(m, lines).Some?
    ensures var ids := Ids(lines);
            Replay(m, lines).value.nextId == if ids == [] then m.nextId else ids[|ids| - 1] + 1
    decreases |lines|
  {
    if lines != [] {
      ReplayNextId(ReadLine(m, lines[0]).value, lines[1..]);
    }
  }

  /** A prefix of a log that replays replays too. */
  lemma PrefixReplays(a: seq<Line>, lines: seq<Line>)
    requires a <= lines && Replay(EmptyMemory, lines).Some?
    ensures Replay(EmptyMemory, a).Some?
  {
    assert lines == a + lines[|a|..];
    ReplayConcat(EmptyMemory, a, lines[|a|..]);
  }

  /** On its own log a revert always succeeds, and leaves exactly the ids below k (a
      negative id, which no checkpoint has, keeps every line). */
  lemma RevertKeepsOwn(s: Store, k: int64)
    requires Own(s) && s.file.Some? && k < s.memory.nextId
    ensures Apply(s, Revert(k)).Some?
    ensures var s' := Apply(s, Revert(k)).value;
            && Own(s')
            && s'.memory.nextId == (if k < 0 then s.memory.nextId else k)
            && (k < 0 ==> Lines(s') == Lines(s) && s'.memory == s.memory)
  {
    var kept := KeptLines(Lines(s), k);
    KeptIds(Lines(s), k);
    PrefixReplays(kept, Lines(s));
    ReplayNextId(EmptyMemory, kept);
    if 0 <= k {
      assert Ids(Lines(s))[k] == k;
    }
  }

  /** Appending lines that number on from where the log stands keeps the log own. */
  lemma ExtendKeepsOwn(s: Store, s': Store, lines: seq<Line>)
    requires Own(s) && Synced(s') && Lines(s') == Lines(s) + lines && NoBlanks(lines)
    requires Ids(lines) == if s'.memory.nextId == s.memory.nextId then [] else [s.memory.nextId]
    requires s.memory.nextId <= s'.memory.nextId <= s.memory.nextId + 1
    ensures Own(s')
  {
    IdsConcat(Lines(s), lines);
  }

  lemma MarkLines(id: int64, ms: seq<Message>)
    ensures var lines := [CheckpointLine(id)] + MessageLines(ms);
            NoBlanks(lines) && Ids(lines) == [id]
  {
    IdsConcat([CheckpointLine(id)], MessageLines(ms));
    MessagesHaveNoIds(ms);
    CheckpointHasId(id);
  }

  lemma StepKeepsOwn(s: Store, op: Op)
    requires Own(s) && Proper(op) && Apply(s, op).Some?
    ensures Own(Apply(s, op).value)
  {
    StepKeepsSync(s, op);
    var s' := Apply(s, op).value;
    match op
    case Append(ms) =>
      MessagesHaveNoIds(ms);
      ExtendKeepsOwn(s, s', MessageLines(ms));
    case Usage(n) =>
      UsageHasNoId(n);
      ExtendKeepsOwn(s, s', [UsageLine(n)]);
    case Mark(add) =>
      var ms := MarkMessages(s.memory.nextId, add);
      MarkLines(s.memory.nextId, ms);
      ExtendKeepsOwn(s, s', [CheckpointLine(s.memory.nextId)] + MessageLines(ms));
    case Revert(k) => RevertKeepsOwn(s, k);
    case Clear =>
  }

  /** A context on no file, or on a cleared one, owns its log. */
  lemma FreshIsOwn(s: Store)
    requires s.memory == EmptyMemory && Lines(s) == []
    ensures Own(s)
  {
  }

  /** Over every run from an empty log the ids in it stay exactly 0 .. next - 1. */
  lemma {:induction false} RunKeepsOwn(s: Store, ops: seq<Op>)
    requires Own(s) && ApplyAll(s, ops).Some?
    requires forall i :: 0 <= i < |ops| ==> Proper(ops[i])
    ensures Own(ApplyAll(s, ops).value)
  {
    if ops != [] {
      RunKeepsOwn(s, ops[..|ops| - 1]);
      StepKeepsOwn(ApplyAll(s, ops[..|ops| - 1]).value, ops[|ops| - 1]);
    }
  }

  lemma UsageHasNoId(n: int64)
    ensures Ids([UsageLine(n)]) == []
  {
    var u := Obj(map["role" := Str("_usage"), "token_count" := Int(n)]);
    assert GetStr(u, "role") == Some("_usage");
    assert [UsageLine(n)][1..] == [];
  }

  lemma CheckpointHasId(n: int64)
    ensures Ids([CheckpointLine(n)]) == [n]
  {
    var c := Obj(map["role" := Str("_checkpoint"), "id" := Int(n)]);
    assert GetStr(c, "role") == Some("_checkpoint") && GetInt64(c, "id") == Some(n);
    assert [CheckpointLine(n)][1..] == [];
  }

  // ---------------------------------------------------------------- time travel

  /** The operations that do not reach back past checkpoint k. */
  predicate Later(op: Op, k: int) {
    !op.Clear? && (op.Revert? ==> op.k < 0 || k < op.k)
  }

  /** Whatever happens after checkpoint k, short of reaching back past it, the log goes on
      starting with the lines of that moment and the checkpoint. */
  lemma {:induction false} PrefixSurvives(s: Store, ops: seq<Op>, base: seq<Line>, k: int64)
    requires Own(s) && 0 <= k < s.memory.nextId
    requires base + [CheckpointLine(k)] <= Lines(s) && Ids(base) == seq(k, i => i)
    requires forall i :: 0 <= i < |ops| ==> Proper(ops[i]) && Later(ops[i], k)
    requires ApplyAll(s, ops).Some?
    ensures var s' := ApplyAll(s, ops).value;
            Own(s') && k < s'.memory.nextId && base + [CheckpointLine(k)] <= Lines(s') && s'.file.Some?
  {
    if ops != [] {
      PrefixSurvives(s, ops[..|ops| - 1], base, k);
      var t, op := ApplyAll(s, ops[..|ops| - 1]).value, ops[|ops| - 1];
      StepKeepsOwn(t, op);
      if op.Revert? {
        RevertKeepsOwn(t, op.k);
        KeepsEarlierCheckpoint(Lines(t), base, k, op.k);
      }
    }
  }

  lemma KeepsEarlierCheckpoint(lines: seq<Line>, base: seq<Line>, k: int64, j: int)
    requires NoBlanks(lines) && base + [CheckpointLine(k)] <= lines
    requires 0 <= k && Ids(base) == seq(k, i => i) && (j < 0 || k < j)
    ensures base + [CheckpointLine(k)] <= KeptLines(lines, j)
  {
    var head := base + [CheckpointLine(k)];
    IdsConcat(base, [CheckpointLine(k)]);
    CheckpointHasId(k);
    assert forall i :: 0 <= i < |head| ==> head[i] == lines[i];
    assert lines == head + lines[|head|..];
    KeptPassesPrefix(head, lines[|head|..], j);
  }

  /** A checkpoint leaves an own log that goes on from the lines before it. */
  lemma MarkExtends(s: Store, add: bool)
    requires Own(s) && Apply(s, Mark(add)).Some?
    ensures var s' := Apply(s, Mark(add)).value;
            && Own(s') && s.memory.nextId < s'.memory.nextId
            && Lines(s) + [CheckpointLine(s.memory.nextId)] <= Lines(s')
    ensures Ids(Lines(s)) == seq(s.memory.nextId, i => i)
  {
    StepKeepsOwn(s, Mark(add));
    var ms := MarkMessages(s.memory.nextId, add);
    var c := [CheckpointLine(s.memory.nextId)];
    assert Lines(s) + (c + MessageLines(ms)) == Lines(s) + c + MessageLines(ms);
  }

  /** Reverting to a checkpoint that still follows its own prefix gives that prefix back. */
  lemma RevertCutsHere(s: Store, base: seq<Line>, k: int64, m: Memory)
    requires s.file.Some? && k < s.memory.nextId
    requires base + [CheckpointLine(k)] <= Lines(s)
    requires NoBlanks(base) && k !in Ids(base) && Replay(EmptyMemory, base) == Some(m)
    ensures Apply(s, Revert(k)) == Some(Store(m, Some(base), s.rotated + [Lines(s)]))
  {
    var rest := Lines(s)[|base|..];
    assert Lines(s) == base + rest;
    assert rest[0] == (base + [CheckpointLine(k)])[|base|];
    BookkeepingReadsBack(m, k);
    KeptPassesPrefix(base, rest, k);
    assert base + [] == base;
  }

  /** Time travel. If a checkpoint allocates id k, then after any successful mix of appends,
      usage updates, further checkpoints and reverts to later (or negative) ids, reverting
      to k succeeds and restores the history, the token count, the next id and the log lines
      exactly as they were just before that checkpoint. */
  lemma TimeTravel(s: Store, add: bool, ops: seq<Op>)
    requires Own(s) && Apply(s, Mark(add)).Some?
    requires forall i :: 0 <= i < |ops| ==> Proper(ops[i]) && Later(ops[i], s.memory.nextId)
    requires ApplyAll(Apply(s, Mark(add)).value, ops).Some?
    ensures var later := ApplyAll(Apply(s, Mark(add)).value, ops).value;
            Apply(later, Revert(s.memory.nextId))
            == Some(Store(s.memory, Some(Lines(s)), later.rotated + [Lines(later)]))
  {
    MarkExtends(s, add);
    var marked := Apply(s, Mark(add)).value;
    PrefixSurvives(marked, ops, Lines(s), s.memory.nextId);
    RevertCutsHere(ApplyAll(marked, ops).value, Lines(s), s.memory.nextId, s.memory);
  }

  /** Reverting to k and then to an earlier j is reverting to j. */
  lemma RevertsCompose(s: Store, k: int64, j: int64)
    requires Own(s) && s.file.Some? && 0 <= j < k < s.memory.nextId
    ensures Apply(s, Revert(k)).Some? && Apply(Apply(s, Revert(k)).value, Revert(j)).Some?
    ensures Apply(s, Revert(j)).Some?
    ensures var two, one := Apply(Apply(s, Revert(k)).value, Revert(j)).value, Apply(s, Revert(j)).value;
            two.memory == one.memory && Lines(two) == Lines(one)
  {
    RevertKeepsOwn(s, k);
    RevertKeepsOwn(s, j);
    var s1 := Apply(s, Revert(k)).value;
    RevertKeepsOwn(s1, j);
    assert Ids(Lines(s))[j] == j;
    KeptTwice(Lines(s), k, j);
  }

  lemma {:induction false} KeptTwice(lines: seq<Line>, k: int, j: int)
    requires NoBlanks(lines)
    requires var ids := Ids(lines); forall i :: 0 <= i < |ids| && ids[i] == k ==>
               exists h :: 0 <= h < i && ids[h] == j
    ensures KeptLines(KeptLines(lines, k), j) == KeptLines(lines, j)
  {
    KeptIds(lines, k);
    var kept := KeptLines(lines, k);
    if k in Ids(lines) {
      var n := |Ids(kept)|;
      var h :| 0 <= h < n && Ids(lines)[h] == j;
      assert Ids(kept)[h] == j;
      var rest := lines[|kept|..];
      assert lines == kept + rest;
      KeptStopsInside(kept, rest, j);
    }
  }

  lemma {:induction false} KeptStopsInside(a: seq<Line>, b: seq<Line>, j: int)
    requires NoBlanks(a) && j in Ids(a)
    ensures KeptLines(a + b, j) == KeptLines(a, j)
  {
    assert (a + b)[1..] == a[1..] + b;
    if !Stops(a[0], j) {
      assert NoBlanks(a[1..]);
      KeptStopsInside(a[1..], b, j);
    }
  }

  // ---------------------------------------------------------------- the object

  class Context {
    var history: seq<Message>
    var tokenCount: int
    var nextCheckpointId: int
    /** The active file and the ones rotated away, as the file system holds them. */
    var file: Option<seq<Line>>
    var rotated: seq<seq<Line>>

    constructor (file: Option<seq<Line>>)
      ensures View() == Store(EmptyMemory, file, [])
    {
      history, tokenCount, nextCheckpointId := [], 0, 0;
      this.file, rotated := file, [];
    }

    function View(): Store
      reads this
    {
      Store(Memory(history, tokenCount, nextCheckpointId), file, rotated)
    }

    /** Read one value into memory; false when it is not a message either. */
    method Take(v: Json) returns (ok: bool)
      modifies this`history, this`tokenCount, this`nextCheckpointId
      ensures ok <==> Absorb(old(View()).memory, v).Some?
      ensures View().memory == if ok then Absorb(old(View()).memory, v).value else old(View()).memory
    {
      if IsUsage(v) {
        var n := GetInt64(v, "token_count");
        if n.Some? {
          tokenCount := n.value;
        }
        return true;
      }
      if IsCheckpoint(v) {
        var id := GetInt64(v, "id");
        if id.Some? {
          nextCheckpointId := id.value + 1;
        }
        return true;
      }
      var message := Decode(v);
      if message.None? {
        return false;
      }
      history := history + [message.value];
      return true;
    }

    method Restore() returns (r: Result<bool, ContextError>)
      modifies this`history, this`tokenCount, this`nextCheckpointId
      ensures old(history) != [] ==> r == Err(AlreadyModified) && View() == old(View())
      ensures old(history) == [] && Lines(old(View())) == [] ==> r == Ok(false) && View() == old(View())
      ensures old(history) == [] && Lines(old(View())) != [] ==>
                var m := Replay(old(View()).memory, Lines(old(View())));
                if m.Some? then r == Ok(true) && View().memory == m.value else r == Err(Malformed)
      ensures old(View()).memory == EmptyMemory && r.Ok? ==> Synced(View())
    {
      if history != [] {
        return Err(AlreadyModified);
      }
      if file.None? || file.value == [] {
        return Ok(false);
      }
      var lines := file.value;
      ghost var start := View().memory;
      var i := 0;
      while i < |lines|
        invariant 0 <= i <= |lines|
        invariant Replay(View().memory, lines[i..]) == Replay(start, lines)
      {
        assert lines[i..][0] == lines[i] && lines[i..][1..] == lines[i + 1..];
        match lines[i] {
          case Blank =>
          case Garbled =>
            return Err(Malformed);
          case Value(v) =>
            var ok := Take(v);
            if !ok {
              return Err(Malformed);
            }
        }
        i := i + 1;
      }
      return Ok(true);
    }

    method Write(lines: seq<Line>)
      modifies this`file
      ensures View() == Appended(old(View()), lines)
    {
      file := Some((if file.Some? then file.value else []) + lines);
    }

    method AppendMessages(messages: seq<Message>)
      modifies this`history, this`file
      ensures Some(View()) == Apply(old(View()), Append(messages))
      ensures history == old(history) + messages
      ensures file.Some? && LinesHold(old(Lines(View())), file.value, messages)
    {
      history := history + messages;
      ghost var before := Lines(View());
      Write([]);
      var i := 0;
      NoneWritten(before, messages);
      while i < |messages|
        invariant 0 <= i <= |messages|
        invariant file.Some? && Written(before, file.value, messages, i)
        invariant history == old(history) + messages
      {
        var line := LineOf(messages[i]);
        OneMoreWritten(before, file.value, messages, i, line);
        Write([line]);
        i := i + 1;
      }
      AllWritten(before, file.value, messages);
    }

    method LineOf(message: Message) returns (line: Line)
      ensures line == MessageLine(message)
    {
      var value := Encode(message);
      var stripped := StripMessageNulls(value);
      line := Value(stripped);
    }

    method UpdateTokenCount(n: int64)
      modifies this`tokenCount, this`file
      ensures Some(View()) == Apply(old(View()), Usage(n))
      ensures tokenCount == n && history == old(history) && nextCheckpointId == old(nextCheckpointId)
      ensures file == Some(old(Lines(View())) + [Value(Obj(map["role" := Str("_usage"), "token_count" := Int(n)]))])
    {
      tokenCount := n;
      Write([UsageLine(n)]);
    }

    /** Refused, before anything is written, once the next id no longer fits its 64 bits. */
    method Checkpoint(addUserMessage: bool) returns (r: Result<(), ContextError>)
      modifies this`nextCheckpointId, this`history, this`file
      ensures r.Ok? <==> Apply(old(View()), Mark(addUserMessage)).Some?
      ensures r.Ok? ==> Some(View()) == Apply(old(View()), Mark(addUserMessage))
      ensures r.Err? ==> r.error == IdsExhausted && View() == old(View())
      ensures r.Ok? <==> old(nextCheckpointId) < MAX_INT64
      ensures r.Ok? ==>
                var id := old(nextCheckpointId);
                var line := Value(Obj(map["role" := Str("_checkpoint"), "id" := Int(id)]));
                var said := if addUserMessage then [CheckpointMessage(id)] else [];
                && nextCheckpointId == id + 1 && tokenCount == old(tokenCount) && history == old(history) + said
                && file.Some? && LinesHold(old(Lines(View())) + [line], file.value, said)
    {
      if nextCheckpointId >= MAX_INT64 {
        return Err(IdsExhausted);
      }
      var id := nextCheckpointId;
      nextCheckpointId := nextCheckpointId + 1;
      ghost var before := Lines(View());
      MessageLinesHold(before + [CheckpointLine(id)], []);
      Write([CheckpointLine(id)]);
      if addUserMessage {
        AppendMessages([CheckpointMessage(id)]);
        assert before + [CheckpointLine(id)] + MessageLines([CheckpointMessage(id)])
            == before + ([CheckpointLine(id)] + MessageLines([CheckpointMessage(id)]));
      } else {
        assert [CheckpointLine(id)] + MessageLines([]) == [CheckpointLine(id)];
        assert history + [] == history;
      }
      return Ok(());
    }

    /** The copy loop of a revert: keep lines until checkpoint k, reading them as they go. */
    method CopyUntil(lines: seq<Line>, k: int64) returns (ok: bool)
      requires file == Some([])
      modifies this`history, this`tokenCount, this`nextCheckpointId, this`file
      ensures ok <==> Replay(old(View()).memory, KeptLines(lines, k)).Some?
      ensures ok ==> file == Some(KeptLines(lines, k))
                     && Some(View().memory) == Replay(old(View()).memory, KeptLines(lines, k))
    {
      var i := 0;
      assert [] + KeptLines(lines[0..], k) == KeptLines(lines, k);
      while i < |lines|
        invariant 0 <= i <= |lines| && file.Some?
        invariant file.value + KeptLines(lines[i..], k) == KeptLines(lines, k)
        invariant Replay(View().memory, KeptLines(lines[i..], k))
                  == Replay(old(View()).memory, KeptLines(lines, k))
      {
        assert lines[i..][0] == lines[i] && lines[i..][1..] == lines[i + 1..];
        ghost var done, rest := file.value, KeptLines(lines[i + 1..], k);
        match lines[i] {
          case Blank =>
          case Garbled =>
            return false;
          case Value(v) =>
            if IsCheckpoint(v) && GetInt64(v, "id") == Some(k) {
              break;
            }
            assert ([lines[i]] + rest)[1..] == rest;
            assert done + ([lines[i]] + rest) == done + [lines[i]] + rest;
            Write([lines[i]]);
            var taken := Take(v);
            if !taken {
              return false;
            }
        }
        i := i + 1;
      }
      assert file.value + [] == file.value;
      return true;
    }

    /** `canRotate` is whether a free name was found for the old file and it could be moved. */
    method RevertTo(checkpointId: int64, canRotate: bool) returns (r: Result<(), ContextError>)
      modifies this
      ensures r.Ok? <==> canRotate && Apply(old(View()), Revert(checkpointId)).Some?
      ensures r.Ok? ==> Some(View()) == Apply(old(View()), Revert(checkpointId))
      ensures r.Err? && r.error != Malformed ==> View() == old(View())
      ensures r == Err(Malformed) ==> rotated == old(rotated) + [Lines(old(View()))]
      ensures r == Err(NoSuchCheckpoint) <==> checkpointId >= old(nextCheckpointId)
      ensures r == Err(NoRotation) <==> checkpointId < old(nextCheckpointId) && !canRotate
    {
      if checkpointId >= nextCheckpointId {
        return Err(NoSuchCheckpoint);
      }
      if !canRotate {
        return Err(NoRotation);
      }
      if file.None? {
        return Err(NoFile);
      }
      var lines := file.value;
      rotated := rotated + [lines];
      history, tokenCount, nextCheckpointId := [], 0, 0;
      file := Some([]);
      var ok := CopyUntil(lines, checkpointId);
      if !ok {
        return Err(Malformed);
      }
      return Ok(());
    }

    method ClearAll(canRotate: bool) returns (r: Result<(), ContextError>)
      modifies this
      ensures r.Ok? <==> canRotate && Apply(old(View()), Clear).Some?
      ensures View() == if r.Ok? then Apply(old(View()), Clear).value else old(View())
      ensures r.Ok? <==> canRotate && old(file).Some?
      ensures r.Ok? ==> history == [] && tokenCount == 0 && nextCheckpointId == 0 && file == Some([])
                        && rotated == old(rotated) + [old(file).value]
    {
      if !canRotate {
        return Err(NoRotation);
      }
      if file.None? {
        return Err(NoFile);
      }
      rotated := rotated + [file.value];
      file := Some([]);
      history, tokenCount, nextCheckpointId := [], 0, 0;
      return Ok(());
    }
  }
}
