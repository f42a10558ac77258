/** The two bounded line readers of the bridge: the daemon's, over whatever chunks the socket
    delivers, and the client's, over a reader cut off after the longest admissible line. */
module LineReader {
  import opened Wrappers
  import opened Bytes
  import opened TextUtil

  const MAX_LINE_BYTES: nat := 65536

  const NEWLINE: byte := 10

  type Decoder = Bytes -> string

  /** Lossy decoding treats the newline, an ASCII byte, on its own. */
  ghost predicate KeepsNewline(decode: Decoder) {
    forall b: Bytes :: decode(b + [NEWLINE]) == decode(b) + "\n"
  }

  function Join(chunks: seq<Bytes>): Bytes {
    if chunks == [] then [] else chunks[0] + Join(chunks[1..])
  }

  /** The position of the first newline, or the length where there is none. */
  function FirstNewline(s: Bytes): (n: nat)
    ensures n <= |s| && (n < |s| ==> s[n] == NEWLINE)
    ensures forall i :: 0 <= i < n ==> s[i] != NEWLINE
  {
    if s == [] || s[0] == NEWLINE then 0 else 1 + FirstNewline(s[1..])
  }

  predicate HasNewline(s: Bytes) {
    FirstNewline(s) < |s|
  }

  lemma FirstNewlineIs(s: Bytes, n: nat)
    requires n < |s| && s[n] == NEWLINE && forall i :: 0 <= i < n ==> s[i] != NEWLINE
    ensures FirstNewline(s) == n
  {
  }

  lemma FirstNewlineConcat(a: Bytes, b: Bytes)
    requires !HasNewline(a)
    ensures FirstNewline(a + b) == |a| + FirstNewline(b)
  {
    var n := FirstNewline(b);
    if n < |b| {
      assert forall i :: 0 <= i < |a| + n ==> (a + b)[i] == (if i < |a| then a[i] else b[i - |a|]);
      FirstNewlineIs(a + b, |a| + n);
    } else {
      assert forall i :: 0 <= i < |a + b| ==> (a + b)[i] != NEWLINE;
    }
  }

  lemma FirstNewlineInside(a: Bytes, b: Bytes)
    requires HasNewline(a)
    ensures FirstNewline(a + b) == FirstNewline(a)
  {
    FirstNewlineIs(a + b, FirstNewline(a));
  }

  // ---------------------------------------------------------------- the reader underneath

  predicate NoneEmpty(chunks: seq<Bytes>) {
    forall i :: 0 <= i < |chunks| ==> chunks[i] != []
  }

  function Consumed(chunks: seq<Bytes>, n: nat): seq<Bytes>
    requires chunks == [] ==> n == 0
    requires chunks != [] ==> n <= |chunks[0]|
  {
    if chunks == [] then []
    else if n == |chunks[0]| then chunks[1..]
    else [chunks[0][n..]] + chunks[1..]
  }

  lemma DropInside(a: Bytes, b: Bytes, n: nat)
    requires n <= |a|
    ensures (a + b)[n..] == a[n..] + b && (n == |a| ==> (a + b)[n..] == b)
  {
  }

  lemma ConsumedStream(chunks: seq<Bytes>, n: nat)
    requires NoneEmpty(chunks) && (chunks == [] ==> n == 0) && (chunks != [] ==> n <= |chunks[0]|)
    ensures n <= |Join(chunks)| && Join(Consumed(chunks, n)) == Join(chunks)[n..]
    ensures NoneEmpty(Consumed(chunks, n))
  {
    if chunks != [] {
      DropInside(chunks[0], Join(chunks[1..]), n);
      if n < |chunks[0]| {
        assert Consumed(chunks, n)[1..] == chunks[1..];
      }
    }
  }

  /** A buffered reader: each refill yields the next chunk, and an empty one only at the end. */
  class ChunkReader {
    var chunks: seq<Bytes>

    ghost predicate Valid()
      reads this
    {
      NoneEmpty(chunks)
    }

    ghost function Stream(): Bytes
      reads this
    {
      Join(chunks)
    }

    constructor (chunks: seq<Bytes>)
      requires NoneEmpty(chunks)
      ensures Valid() && this.chunks == chunks
    {
      this.chunks := chunks;
    }

    method FillBuf() returns (available: Bytes)
      requires Valid()
      ensures available == if chunks == [] then [] else chunks[0]
      ensures available <= Stream() && (available == [] <==> Stream() == [])
    {
      available := if chunks == [] then [] else chunks[0];
    }

    method Consume(n: nat)
      requires Valid() && (chunks == [] ==> n == 0) && (chunks != [] ==> n <= |chunks[0]|)
      modifies this
      ensures Valid() && chunks == Consumed(old(chunks), n)
      ensures n <= |old(Stream())| && Stream() == old(Stream())[n..]
    {
      ConsumedStream(chunks, n);
      if chunks != [] {
        chunks := if n == |chunks[0]| then chunks[1..] else [chunks[0][n..]] + chunks[1..];
      }
    }
  }

  // ---------------------------------------------------------------- the daemon's reader

  datatype LineError = Closed | TooLong

  /** What the daemon reads with `buf` already collected, and the chunks it leaves. */
  function DaemonRead(chunks: seq<Bytes>, buf: Bytes): (Result<Bytes, LineError>, seq<Bytes>) {
    if chunks == [] then (Err(Closed), [])
    else
      var first := chunks[0];
      if HasNewline(first) then (Ok(buf + first[..FirstNewline(first)]), Consumed(chunks, FirstNewline(first) + 1))
      else if |buf + first| > MAX_LINE_BYTES then (Err(TooLong), chunks[1..])
      else DaemonRead(chunks[1..], buf + first)
  }

  function Decoded(line: Result<Bytes, LineError>, decode: Decoder): Result<string, LineError> {
    match line
    case Ok(b) => Ok(TrimEnd(decode(b)))
    case Err(e) => Err(e)
  }

  /** The daemon's loop. */
  method ReadLine(reader: ChunkReader, decode: Decoder) returns (r: Result<string, LineError>)
    requires reader.Valid()
    modifies reader
    ensures reader.Valid()
    ensures r == Decoded(DaemonRead(old(reader.chunks), []).0, decode)
    ensures reader.chunks == DaemonRead(old(reader.chunks), []).1
  {
    var buf: Bytes := [];
    while true
      invariant reader.Valid()
      invariant DaemonRead(old(reader.chunks), []) == DaemonRead(reader.chunks, buf)
      decreases |reader.chunks|
    {
      var available := reader.FillBuf();
      if available == [] {
        return Err(Closed);
      }
      var pos := FirstNewline(available);
      if pos < |available| {
        buf := buf + available[..pos];
        reader.Consume(pos + 1);
        break;
      }
      buf := buf + available;
      reader.Consume(|available|);
      if |buf| > MAX_LINE_BYTES {
        return Err(TooLong);
      }
    }
    r := Ok(TrimEnd(decode(buf)));
  }

  /** How much arrived in chunks wholly before the one with the newline. */
  function WholeBefore(chunks: seq<Bytes>): nat {
    if chunks == [] || HasNewline(chunks[0]) then 0 else |chunks[0]| + WholeBefore(chunks[1..])
  }

  lemma {:induction false} WholeBeforeBound(chunks: seq<Bytes>)
    ensures WholeBefore(chunks) <= FirstNewline(Join(chunks))
    ensures !HasNewline(Join(chunks)) ==> WholeBefore(chunks) == |Join(chunks)|
  {
    if chunks != [] {
      if HasNewline(chunks[0]) {
        FirstNewlineInside(chunks[0], Join(chunks[1..]));
      } else {
        WholeBeforeBound(chunks[1..]);
        FirstNewlineConcat(chunks[0], Join(chunks[1..]));
      }
    }
  }

  lemma LineAcrossChunks(buf: Bytes, first: Bytes, others: Bytes, n: nat)
    requires n <= |others|
    ensures buf + (first + others)[..|first| + n] == buf + first + others[..n]
    ensures n < |others| ==> (first + others)[|first| + n + 1..] == others[n + 1..]
  {
    assert (first + others)[..|first| + n] == first + others[..n];
  }

  /** The outcome of reading with `buf` collected and the stream `s` to come. */
  ghost predicate Verdict(r: (Result<Bytes, LineError>, seq<Bytes>), buf: Bytes, s: Bytes, whole: nat) {
    var (line, rest) := r;
    var n := FirstNewline(s);
    && (line.Ok? || line == Err(TooLong) || line == Err(Closed))
    && (line == Err(TooLong) <==> |buf| + whole > MAX_LINE_BYTES)
    && (line == Err(Closed) <==> |buf| + |s| <= MAX_LINE_BYTES && !HasNewline(s))
    && (line.Ok? ==> n < |s| && line.value == buf + s[..n] && Join(rest) == s[n + 1..])
  }

  lemma VerdictAcrossChunks(r: (Result<Bytes, LineError>, seq<Bytes>), buf: Bytes, first: Bytes, others: Bytes, whole: nat)
    requires !HasNewline(first) && Verdict(r, buf + first, others, whole)
    ensures Verdict(r, buf, first + others, |first| + whole)
  {
    FirstNewlineConcat(first, others);
    LineAcrossChunks(buf, first, others, FirstNewline(others));
  }

  lemma {:induction false} DaemonReadFrom(chunks: seq<Bytes>, buf: Bytes)
    requires NoneEmpty(chunks) && |buf| <= MAX_LINE_BYTES
    ensures Verdict(DaemonRead(chunks, buf), buf, Join(chunks), WholeBefore(chunks))
    decreases |chunks|
  {
    if chunks != [] {
      var first, others := chunks[0], Join(chunks[1..]);
      if HasNewline(first) {
        FirstNewlineInside(first, others);
        ConsumedStream(chunks, FirstNewline(first) + 1);
        assert (first + others)[..FirstNewline(first)] == first[..FirstNewline(first)];
      } else if |buf + first| <= MAX_LINE_BYTES {
        DaemonReadFrom(chunks[1..], buf + first);
        VerdictAcrossChunks(DaemonRead(chunks, buf), buf, first, others, WholeBefore(chunks[1..]));
      }
    }
  }

  /** Exactly what decides the daemon's answer: it refuses a line when the chunks wholly
      before the newline's exceed the cap, and otherwise takes it, however long it is, and
      leaves the bytes behind the newline alone. */
  lemma DaemonVerdict(chunks: seq<Bytes>)
    requires NoneEmpty(chunks)
    ensures var (line, rest) := DaemonRead(chunks, []); var s := Join(chunks); var n := FirstNewline(s);
            && (line.Ok? || line == Err(TooLong) || line == Err(Closed))
            && (line == Err(TooLong) <==> WholeBefore(chunks) > 65536)
            && (line == Err(Closed) <==> |s| <= 65536 && !HasNewline(s))
            && (line.Ok? ==> n < |s| && line.value == s[..n] && Join(rest) == s[n + 1..])
  {
    DaemonReadFrom(chunks, []);
    var s := Join(chunks);
    assert [] + s[..FirstNewline(s)] == s[..FirstNewline(s)];
  }

  /** A first line within the cap is read the same however the stream was chunked. */
  lemma ChunkingDoesNotMatter(a: seq<Bytes>, b: seq<Bytes>)
    requires NoneEmpty(a) && NoneEmpty(b) && Join(a) == Join(b)
    requires FirstNewline(Join(a)) <= 65536
    ensures DaemonRead(a, []).0 == DaemonRead(b, []).0
    ensures HasNewline(Join(a)) ==> DaemonRead(a, []).0 == Ok(Join(a)[..FirstNewline(Join(a))])
    ensures HasNewline(Join(a)) ==> Join(DaemonRead(a, []).1) == Join(a)[FirstNewline(Join(a)) + 1..] == Join(DaemonRead(b, []).1)
  {
    DaemonVerdict(a);
    DaemonVerdict(b);
    WholeBeforeBound(a);
    WholeBeforeBound(b);
  }

  lemma LongLineInOneChunk(s: Bytes)
    requires HasNewline(s)
    ensures Join([s]) == s && DaemonRead([s], []).0 == Ok(s[..FirstNewline(s)])
  {
    assert [s][1..] == [] && s + [] == s;
    assert [] + s[..FirstNewline(s)] == s[..FirstNewline(s)];
  }

  lemma LongLineInTwoChunks(a: Bytes, b: Bytes)
    requires !HasNewline(a) && |a| > MAX_LINE_BYTES
    ensures Join([a, b]) == a + b && DaemonRead([a, b], []).0 == Err(TooLong)
  {
    var chunks := [a, b];
    assert chunks[0] == a && chunks[1..] == [b] && [b][1..] == [];
    assert Join([b]) == b + Join([]) && b + [] == b;
    assert [] + a == a && |[] + chunks[0]| > MAX_LINE_BYTES;
  }

  /** Past the cap it does matter: every overlong line is taken in one delivery and refused
      in another. */
  lemma LongLinesDependOnChunking(s: Bytes)
    requires HasNewline(s) && FirstNewline(s) > MAX_LINE_BYTES
    ensures var n := FirstNewline(s);
            && Join([s]) == Join([s[..n], s[n..]]) == s
            && DaemonRead([s], []).0 == Ok(s[..n])
            && DaemonRead([s[..n], s[n..]], []).0 == Err(TooLong)
  {
    var n := FirstNewline(s);
    LongLineInOneChunk(s);
    assert forall i :: 0 <= i < n ==> s[..n][i] != NEWLINE;
    LongLineInTwoChunks(s[..n], s[n..]);
    assert s[..n] + s[n..] == s;
  }

  /** Whatever the outcome, no more is ever collected than the cap and one chunk. */
  lemma {:induction false} BufferIsBounded(chunks: seq<Bytes>, buf: Bytes, chunk: nat)
    requires NoneEmpty(chunks) && |buf| <= MAX_LINE_BYTES
    requires forall i :: 0 <= i < |chunks| ==> |chunks[i]| <= chunk
    ensures |buf| + |Join(chunks)| <= MAX_LINE_BYTES + chunk + |Join(DaemonRead(chunks, buf).1)|
    decreases |chunks|
  {
    if chunks != [] {
      var first := chunks[0];
      if HasNewline(first) {
        ConsumedStream(chunks, FirstNewline(first) + 1);
      } else if |buf + first| <= MAX_LINE_BYTES {
        BufferIsBounded(chunks[1..], buf + first, chunk);
      }
    }
  }

  // ---------------------------------------------------------------- the client's reader

  datatype FrameError = NoReply | MidFrame | FrameTooLong

  /** What the client makes of a stream: chunks play no part. */
  function ClientRead(s: Bytes, decode: Decoder): (Result<string, FrameError>, Bytes) {
    var limit := MAX_LINE_BYTES + 1;
    var seen := if |s| < limit then s else s[..limit];
    if seen == [] then (Err(NoReply), s)
    else if HasNewline(seen) then
      (Ok(TrimEnd(decode(seen[..FirstNewline(seen) + 1]))), s[FirstNewline(seen) + 1..])
    else if |seen| > MAX_LINE_BYTES then (Err(FrameTooLong), s[|seen|..])
    else (Err(MidFrame), s[|seen|..])
  }

  lemma FirstNewlineTaken(available: Bytes, used: nat)
    requires used == if HasNewline(available) then FirstNewline(available) + 1 else |available|
    ensures FirstNewline(available[..used]) == FirstNewline(available)
  {
    if HasNewline(available) {
      FirstNewlineIs(available[..used], used - 1);
    } else {
      assert available[..used] == available;
    }
  }

  /** One refill of a reader that gives at most `room` more bytes, used up to the newline. */
  method Refill(reader: ChunkReader, room: nat) returns (got: Bytes)
    requires reader.Valid()
    modifies reader
    ensures reader.Valid() && |got| <= room
    ensures got <= old(reader.Stream()) && reader.Stream() == old(reader.Stream())[|got|..]
    ensures HasNewline(got) ==> FirstNewline(got) == |got| - 1
    ensures got == [] ==> room == 0 || reader.Stream() == []
  {
    var inner := reader.FillBuf();
    var available := if |inner| < room then inner else inner[..room];
    var pos := FirstNewline(available);
    var used := if pos < |available| then pos + 1 else |available|;
    got := available[..used];
    FirstNewlineTaken(available, used);
    reader.Consume(used);
  }

  lemma TakeMore(s: Bytes, k: nat, got: Bytes)
    requires k <= |s| && got <= s[k..]
    ensures s[..k] + got == s[..k + |got|] && s[k..][|got|..] == s[k + |got|..]
  {
    assert s[k..][..|got|] == got;
  }

  /** Reading up to a newline through a reader that gives at most `limit` bytes. */
  method ReadUntilNewline(reader: ChunkReader, limit: nat) returns (buf: Bytes)
    requires reader.Valid()
    modifies reader
    ensures reader.Valid() && |buf| <= limit
    ensures buf <= old(reader.Stream()) && reader.Stream() == old(reader.Stream())[|buf|..]
    ensures HasNewline(buf) ==> FirstNewline(buf) == |buf| - 1
    ensures !HasNewline(buf) ==> |buf| == limit || reader.Stream() == []
  {
    buf := [];
    ghost var s := reader.Stream();
    while |buf| < limit
      invariant reader.Valid() && |buf| <= limit
      invariant |buf| <= |s| && buf == s[..|buf|] && reader.Stream() == s[|buf|..]
      invariant !HasNewline(buf)
      decreases limit - |buf|
    {
      var got := Refill(reader, limit - |buf|);
      TakeMore(s, |buf|, got);
      FirstNewlineConcat(buf, got);
      buf := buf + got;
      if got == [] || got[|got| - 1] == NEWLINE {
        return;
      }
    }
  }

  /** The client's reader. */
  method ReadFrameLine(reader: ChunkReader, decode: Decoder) returns (r: Result<string, FrameError>)
    requires reader.Valid()
    modifies reader
    ensures reader.Valid() && (r, reader.Stream()) == ClientRead(old(reader.Stream()), decode)
  {
    ghost var s := reader.Stream();
    var buf := ReadUntilNewline(reader, MAX_LINE_BYTES + 1);
    ReadPrefix(s, buf, reader.Stream(), decode);
    if |buf| == 0 {
      r := Err(NoReply);
    } else if buf[|buf| - 1] != NEWLINE {
      r := Err(if |buf| > MAX_LINE_BYTES then FrameTooLong else MidFrame);
    } else {
      r := Ok(TrimEnd(decode(buf)));
    }
  }

  lemma ReadPrefix(s: Bytes, buf: Bytes, rest: Bytes, decode: Decoder)
    requires buf <= s && rest == s[|buf|..] && |buf| <= MAX_LINE_BYTES + 1
    requires HasNewline(buf) ==> FirstNewline(buf) == |buf| - 1
    requires !HasNewline(buf) ==> |buf| == MAX_LINE_BYTES + 1 || rest == []
    ensures HasNewline(buf) <==> buf != [] && buf[|buf| - 1] == NEWLINE
    ensures ClientRead(s, decode)
            == (if buf == [] then (Err(NoReply), rest)
                else if HasNewline(buf) then (Ok(TrimEnd(decode(buf))), rest)
                else if |buf| > MAX_LINE_BYTES then (Err(FrameTooLong), rest)
                else (Err(MidFrame), rest))
  {
    var limit := MAX_LINE_BYTES + 1;
    var seen := if |s| < limit then s else s[..limit];
    if HasNewline(buf) {
      FirstNewlineInside(buf, seen[|buf|..]);
      assert seen == buf + seen[|buf|..];
      assert seen[..|buf|] == buf;
    } else {
      assert seen == buf;
    }
  }

  lemma ClientReadsLine(s: Bytes, decode: Decoder)
    requires HasNewline(s) && FirstNewline(s) <= MAX_LINE_BYTES
    ensures var n := FirstNewline(s);
            ClientRead(s, decode) == (Ok(TrimEnd(decode(s[..n] + [NEWLINE]))), s[n + 1..])
  {
    var n := FirstNewline(s);
    var line := s[..n] + [NEWLINE];
    FirstNewlineIs(line, n);
    ReadPrefix(s, line, s[n + 1..], decode);
  }

  lemma DecodedLine(line: Bytes, decode: Decoder)
    requires KeepsNewline(decode)
    ensures TrimEnd(decode(line + [NEWLINE])) == TrimEnd(decode(line))
  {
    var text := decode(line);
    assert (text + "\n")[..|text|] == text;
  }

  /** What either reader hands over is the first line, decoded, without the white space at its
      end; what the other may add is only its newline. */
  lemma LinesAreHandedOver(chunks: seq<Bytes>, decode: Decoder)
    requires NoneEmpty(chunks) && HasNewline(Join(chunks)) && FirstNewline(Join(chunks)) <= MAX_LINE_BYTES
    ensures var s := Join(chunks);
            var line := s[..FirstNewline(s)];
            && Decoded(DaemonRead(chunks, []).0, decode) == Ok(TrimEnd(decode(line)))
            && ClientRead(s, decode).0 == Ok(TrimEnd(decode(line + [NEWLINE])))
  {
    DaemonVerdict(chunks);
    WholeBeforeBound(chunks);
    ClientReadsLine(Join(chunks), decode);
  }

  /** And otherwise each says what went wrong: the line too long, the stream over before a
      newline, or over before anything. */
  lemma FailuresAreTold(chunks: seq<Bytes>, decode: Decoder)
    requires NoneEmpty(chunks) && !HasNewline(Join(chunks))
    ensures var n := |Join(chunks)|;
            && Decoded(DaemonRead(chunks, []).0, decode) == Err(if n > MAX_LINE_BYTES then TooLong else Closed)
            && ClientRead(Join(chunks), decode).0
               == Err(if n == 0 then NoReply else if n > MAX_LINE_BYTES then FrameTooLong else MidFrame)
  {
    DaemonVerdict(chunks);
    WholeBeforeBound(chunks);
    var s := Join(chunks);
    var limit := MAX_LINE_BYTES + 1;
    if |s| >= limit {
      assert s == s[..limit] + s[limit..];
      if HasNewline(s[..limit]) {
        FirstNewlineInside(s[..limit], s[limit..]);
      }
    }
  }

  /** The twins agree on every line within the cap: the same text, and the same bytes left
      for whoever reads next. */
  lemma TwinsAgree(chunks: seq<Bytes>, decode: Decoder)
    requires NoneEmpty(chunks) && KeepsNewline(decode)
    requires HasNewline(Join(chunks)) && FirstNewline(Join(chunks)) <= MAX_LINE_BYTES
    ensures var (line, rest) := DaemonRead(chunks, []); var (frame, left) := ClientRead(Join(chunks), decode);
            Decoded(line, decode).Ok? && frame.Ok? && Decoded(line, decode).value == frame.value && Join(rest) == left
  {
    var s := Join(chunks);
    DaemonVerdict(chunks);
    WholeBeforeBound(chunks);
    ClientReadsLine(s, decode);
    DecodedLine(s[..FirstNewline(s)], decode);
  }

  /** Beyond the cap only the daemon may be lenient: the client refuses every longer line. */
  lemma ClientRefusesLongLines(s: Bytes, decode: Decoder)
    ensures ClientRead(s, decode).0 == Err(FrameTooLong) <==> FirstNewline(s) > 65536
    ensures ClientRead(s, decode).0.Ok? <==> HasNewline(s) && FirstNewline(s) <= 65536
  {
    var limit := MAX_LINE_BYTES + 1;
    if |s| >= limit {
      var seen, n := s[..limit], FirstNewline(s);
      assert s == seen + s[limit..];
      if HasNewline(seen) {
        FirstNewlineInside(seen, s[limit..]);
      } else {
        FirstNewlineConcat(seen, s[limit..]);
      }
    }
  }
}
