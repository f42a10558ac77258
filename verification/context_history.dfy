/** What a context holds after a run, told by what was said to it. */
module ContextHistories {
  import opened Wrappers
  import opened Json
  import opened Messages
  import MessageCodec
  import opened ContextLog
  import opened Seqs

  /** Checkpoints taken. */
  function Marks(ops: seq<Op>): nat {
    if ops == [] then 0
    else Marks(ops[..|ops| - 1]) + if ops[|ops| - 1].Mark? then 1 else 0
  }

  /** What one operation says, when the next checkpoint takes the id `next`. */
  function Told(next: int, op: Op): seq<Message> {
    match op
    case Append(ms) => ms
    case Mark(add) => if add then [CheckpointMessage(next)] else []
    case _ => []
  }

  /** Everything appended, and the markers of checkpoints that asked for one, in order. The
      first checkpoint takes the id `next`, each one more. */
  function Said(next: int, ops: seq<Op>): seq<Message> {
    if ops == [] then []
    else
      var before := ops[..|ops| - 1];
      Said(next, before) + Told(next + Marks(before), ops[|ops| - 1])
  }

  /** The token count last reported, `n` when none was. */
  function LastUsage(n: int, ops: seq<Op>): int {
    if ops == [] then n
    else if ops[|ops| - 1].Usage? then ops[|ops| - 1].n
    else LastUsage(n, ops[..|ops| - 1])
  }

  predicate Onward(ops: seq<Op>) {
    forall i :: 0 <= i < |ops| ==> !ops[i].Revert? && !ops[i].Clear?
  }

  lemma OneMoreSaid(s: Store, op: Op)
    requires !op.Revert? && !op.Clear? && Apply(s, op).Some?
    ensures var m := Apply(s, op).value.memory;
            && m.history == s.memory.history + Told(s.memory.nextId, op)
            && m.nextId == s.memory.nextId + (if op.Mark? then 1 else 0)
            && m.tokenCount == if op.Usage? then op.n else s.memory.tokenCount
  {
    assert s.memory.history + [] == s.memory.history;
  }

  /** Without a revert or a clear nothing said is lost, doubled or moved: the history is the
      start's followed by everything appended or marked, in order. */
  lemma {:induction false} NothingSaidIsLost(s: Store, ops: seq<Op>)
    requires Onward(ops) && ApplyAll(s, ops).Some?
    ensures var m := ApplyAll(s, ops).value.memory;
            && m.history == s.memory.history + Said(s.memory.nextId, ops)
            && m.nextId == s.memory.nextId + Marks(ops)
            && m.tokenCount == LastUsage(s.memory.tokenCount, ops)
  {
    if ops == [] {
      assert s.memory.history + [] == s.memory.history;
    } else {
      var before, op := ops[..|ops| - 1], ops[|ops| - 1];
      NothingSaidIsLost(s, before);
      var now := ApplyAll(s, before).value;
      OneMoreSaid(now, op);
      Assoc(s.memory.history, Said(s.memory.nextId, before), Told(now.memory.nextId, op));
    }
  }

  lemma {:induction false} RunsChain(s: Store, a: seq<Op>, b: seq<Op>)
    ensures ApplyAll(s, a + b)
            == match ApplyAll(s, a) case None => None case Some(s') => ApplyAll(s', b)
    decreases |b|
  {
    if b == [] {
      assert a + b == a;
    } else {
      assert (a + b)[..|a + b| - 1] == a + b[..|b| - 1];
      RunsChain(s, a, b[..|b| - 1]);
    }
  }

  /** A clear forgets all that came before it, whatever that was: what follows it stands alone. */
  lemma ClearForgets(s: Store, a: seq<Op>, b: seq<Op>)
    requires Onward(b) && ApplyAll(s, a + [Clear] + b).Some?
    ensures ApplyAll(s, a + [Clear] + b).value.memory == Memory(Said(0, b), LastUsage(0, b), Marks(b))
  {
    RunsChain(s, a + [Clear], b);
    assert (a + [Clear])[..|a|] == a;
    var cleared := ApplyAll(s, a + [Clear]).value;
    NothingSaidIsLost(cleared, b);
    assert [] + Said(0, b) == Said(0, b);
  }

  /** When an operation reports an error: never an append or a usage report, a checkpoint when
      ids run out, a clear without a file, and a revert to an id not allocated yet. */
  lemma OperationsSucceed(s: Store, op: Op)
    requires Own(s)
    ensures Apply(s, op).None? <==>
              match op
              case Append(_) => false
              case Usage(_) => false
              case Mark(_) => s.memory.nextId >= MAX_INT64
              case Clear => s.file.None?
              case Revert(k) => k >= s.memory.nextId || s.file.None?
  {
    if op.Revert? && op.k < s.memory.nextId && s.file.Some? {
      RevertKeepsOwn(s, op.k);
    }
  }

  /** A checkpoint's marker names its id in decimal. */
  lemma MarkerNamesItsId(id: nat)
    ensures CheckpointMessage(id)
            == Message(User, [Text("text", "<system>CHECKPOINT " + Decimal(id) + "</system>")], None, None, None, None)
  {
    assert "<system>" + ("CHECKPOINT " + Decimal(id)) + "</system>" == "<system>CHECKPOINT " + Decimal(id) + "</system>";
  }

  // ---------------------------------------------------------------- lines that are not messages

  /** A blank line is skipped wherever it stands, by a restore and by a revert. */
  lemma BlanksAreSkipped(m: Memory, a: seq<Line>, b: seq<Line>, k: int)
    ensures Replay(m, a + [Blank] + b) == Replay(m, a + b)
    ensures KeptLines(a + [Blank] + b, k) == KeptLines(a + b, k)
  {
    ReplayConcat(m, a + [Blank], b);
    ReplayConcat(m, a, [Blank]);
    ReplayConcat(m, a, b);
    assert [Blank][1..] == [];
    BlankIsNotKept(a, b, k);
  }

  lemma {:induction false} BlankIsNotKept(a: seq<Line>, b: seq<Line>, k: int)
    ensures KeptLines(a + [Blank] + b, k) == KeptLines(a + b, k)
  {
    if a == [] {
      assert a + [Blank] + b == [Blank] + b && a + b == b && ([Blank] + b)[1..] == b;
    } else {
      assert (a + [Blank] + b)[1..] == a[1..] + [Blank] + b && (a + b)[1..] == a[1..] + b;
      BlankIsNotKept(a[1..], b, k);
    }
  }

  /** A line that is no JSON, or a value that is neither bookkeeping nor a message, fails the
      reading of any file that has it. */
  lemma BadLineFails(m: Memory, a: seq<Line>, l: Line, b: seq<Line>)
    requires l == Garbled || (l.Value? && GetStr(l.v, "role") != Some("_usage")
                              && GetStr(l.v, "role") != Some("_checkpoint") && MessageCodec.Decode(l.v) == None)
    ensures Replay(m, a + [l] + b) == None
  {
    ReplayConcat(m, a + [l], b);
    ReplayConcat(m, a, [l]);
  }

  /** A bookkeeping line without its number, or with one too large, says nothing. */
  lemma NumberlessBookkeepingIsIgnored(m: Memory, v: Json, rest: seq<Line>)
    requires (GetStr(v, "role") == Some("_usage") && GetInt64(v, "token_count") == None)
             || (GetStr(v, "role") == Some("_checkpoint") && GetInt64(v, "id") == None)
    ensures Replay(m, [Value(v)] + rest) == Replay(m, rest)
  {
    assert ([Value(v)] + rest)[1..] == rest;
  }
}
