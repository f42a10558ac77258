/** The write-undo history of `CachedKaos`: what every write records, how the history is
    trimmed, and what `undo` does to the files.

    What the operating system answers is a parameter: how it answers the questions asked
    before a write (`Probe`) and whether it carries out a write or a removal (`Outcome`). */
module UndoLog {
  import opened Wrappers
  import opened Bytes

  const MAX_UNDO_FILE_BYTES: nat := 10 * 1024 * 1024
  const MAX_UNDO_ENTRIES: nat := 64
  const MAX_UNDO_BYTES: nat := 32 * 1024 * 1024

  type Path = string
  type Disk = map<Path, Bytes>

  datatype PreWrite = Absent | Content(bytes: Bytes) | Unrecorded

  datatype WriteEntry = WriteEntry(path: Path, original: PreWrite)

  /** How the system answers about a file that exists: the metadata call may fail, or the
      read after it. */
  datatype Probe = Readable | StatFails | ReadFails

  /** A write that is refused may leave anything, or nothing, at its path. */
  datatype Outcome = Done | Refused(left: Option<Bytes>)

  datatype UndoError = WriteFailed(path: Path) | DeleteFailed(path: Path) | NotRetained(path: Path)

  datatype UndoReport = UndoReport(
    available: nat, applied: nat, restored: nat, deleted: nat, skipped: nat, errors: seq<UndoError>)

  datatype WriteOp = WriteOp(path: Path, data: Bytes, append: bool, probe: Probe, outcome: Outcome)

  datatype Log = Log(disk: Disk, history: seq<WriteEntry>)

  function Lookup(disk: Disk, p: Path): Option<Bytes> {
    if p in disk then Some(disk[p]) else None
  }

  function Place(disk: Disk, p: Path, content: Option<Bytes>): (r: Disk)
    ensures Lookup(r, p) == content
    ensures forall q :: q != p ==> Lookup(r, q) == Lookup(disk, q)
  {
    if content.Some? then disk[p := content.value] else disk - {p}
  }

  lemma SameDisk(a: Disk, b: Disk)
    requires forall p :: Lookup(a, p) == Lookup(b, p)
    ensures a == b
  {
    forall p
      ensures p in a <==> p in b
      ensures p in a ==> a[p] == b[p]
    {
      assert Lookup(a, p) == Lookup(b, p);
    }
  }

  function RetainedBytes(e: WriteEntry): nat {
    if e.original.Content? then |e.original.bytes| else 0
  }

  // ---------------------------------------------------------------- trimming

  function Retained(h: seq<WriteEntry>): nat {
    if h == [] then 0 else RetainedBytes(h[0]) + Retained(h[1..])
  }

  predicate Fits(h: seq<WriteEntry>) {
    |h| <= MAX_UNDO_ENTRIES && Retained(h) <= MAX_UNDO_BYTES
  }

  /** Drop oldest entries until both caps hold. */
  function Trimmed(h: seq<WriteEntry>): seq<WriteEntry> {
    if Fits(h) then h else Trimmed(h[1..])
  }

  /** The trimmed history is the longest suffix within both caps. */
  lemma {:induction false} TrimKeepsLongest(h: seq<WriteEntry>)
    ensures var r := Trimmed(h);
            && |r| <= |h| && r == h[|h| - |r|..]
            && |r| <= 64 && Retained(r) <= 32 * 1024 * 1024
            && forall d :: 0 <= d < |h| - |r| ==> |h[d..]| > 64 || Retained(h[d..]) > 32 * 1024 * 1024
  {
    if !Fits(h) {
      TrimKeepsLongest(h[1..]);
      var r := Trimmed(h[1..]);
      assert h[1..][|h| - 1 - |r|..] == h[|h| - |r|..];
      forall d | 0 <= d < |h| - |r|
        ensures !Fits(h[d..])
      {
        if d == 0 {
          assert h[0..] == h;
        } else {
          assert h[d..] == h[1..][d - 1..];
        }
      }
    }
  }

  /** One entry retains too little to be trimmed on its own, so the newest always survives. */
  lemma NewestSurvives(h: seq<WriteEntry>, e: WriteEntry)
    requires RetainedBytes(e) <= MAX_UNDO_FILE_BYTES
    ensures var r := Trimmed(h + [e]);
            && |r| > 0 && r[|r| - 1] == e
            && exists d :: 0 <= d <= |h| && r[..|r| - 1] == h[d..]
  {
    var all := h + [e];
    TrimKeepsLongest(all);
    var r := Trimmed(all);
    assert all[|h|..] == [e];
    assert Retained([e]) == RetainedBytes(e) + Retained([]);
    var d := |all| - |r|;
    assert r[..|r| - 1] == h[d..];
  }

  lemma RetainedStep(h: seq<WriteEntry>, d: nat)
    requires d < |h|
    ensures Retained(h[d..]) == RetainedBytes(h[d]) + Retained(h[d + 1..])
  {
    assert h[d..][1..] == h[d + 1..];
  }

  /** Trimming can be resumed from any suffix that is not yet past the answer. */
  lemma TrimmedFrom(h: seq<WriteEntry>, d: nat)
    requires d <= |h|
    requires forall i :: 0 <= i < d ==> !Fits(h[i..])
    ensures Trimmed(h) == Trimmed(h[d..])
    decreases d
  {
    if d == 0 {
      assert h[0..] == h;
    } else {
      TrimmedFrom(h, d - 1);
      assert h[d - 1..][1..] == h[d..];
    }
  }

  // ---------------------------------------------------------------- writes

  /** What is remembered of a file about to be overwritten. A failing metadata call reads
      as "not there", a failing read does not. */
  function Capture(disk: Disk, w: WriteOp): PreWrite {
    if w.path !in disk || w.probe == StatFails then Absent
    else if |disk[w.path]| > MAX_UNDO_FILE_BYTES then Unrecorded
    else if w.probe == ReadFails then Unrecorded
    else Content(disk[w.path])
  }

  function Landed(disk: Disk, w: WriteOp): Disk {
    match w.outcome
    case Refused(left) => Place(disk, w.path, left)
    case Done =>
      var kept := if w.append && w.path in disk then disk[w.path] else [];
      Place(disk, w.path, Some(kept + w.data))
  }

  function Wrote(log: Log, w: WriteOp): Log {
    Log(Landed(log.disk, w), Trimmed(log.history + [WriteEntry(w.path, Capture(log.disk, w))]))
  }

  // ---------------------------------------------------------------- undo

  function RestoreEntry(disk: Disk, e: WriteEntry, o: Outcome): Disk {
    match e.original
    case Content(bytes) => Place(disk, e.path, if o.Done? then Some(bytes) else o.left)
    case Absent => if o.Done? then Place(disk, e.path, None) else disk
    case Unrecorded => disk
  }

  /** How one entry shows in the report; a file already gone counts as deleted. */
  function Tally(r: UndoReport, disk: Disk, e: WriteEntry, o: Outcome): UndoReport {
    var r := r.(applied := r.applied + 1);
    match e.original
    case Content(_) =>
      if o.Done? then r.(restored := r.restored + 1)
      else r.(errors := r.errors + [WriteFailed(e.path)])
    case Absent =>
      if o.Done? || e.path !in disk then r.(deleted := r.deleted + 1)
      else r.(errors := r.errors + [DeleteFailed(e.path)])
    case Unrecorded => r.(skipped := r.skipped + 1, errors := r.errors + [NotRetained(e.path)])
  }

  /** Undo the newest `k` entries; `io(i)` is what becomes of the i-th file operation. */
  function Undone(log: Log, k: nat, io: nat -> Outcome, i: nat): Log
    requires k <= |log.history|
    decreases k
  {
    if k == 0 then log
    else
      var last := |log.history| - 1;
      Undone(Log(RestoreEntry(log.disk, log.history[last], io(i)), log.history[..last]), k - 1, io, i + 1)
  }

  function Reported(r: UndoReport, log: Log, k: nat, io: nat -> Outcome, i: nat): UndoReport
    requires k <= |log.history|
    decreases k
  {
    if k == 0 then r
    else
      var last := |log.history| - 1;
      Reported(Tally(r, log.disk, log.history[last], io(i)),
               Log(RestoreEntry(log.disk, log.history[last], io(i)), log.history[..last]), k - 1, io, i + 1)
  }

  /** What undoing k more entries will come to. */
  function Outlook(r: UndoReport, log: Log, k: nat, io: nat -> Outcome, i: nat): (Log, UndoReport)
    requires k <= |log.history|
  {
    (Undone(log, k, io, i), Reported(r, log, k, io, i))
  }

  lemma UndoTurn(r: UndoReport, log: Log, next: Log, k: nat, io: nat -> Outcome, i: nat)
    requires 0 < k <= |log.history|
    requires next.history == log.history[..|log.history| - 1]
    requires next.disk == RestoreEntry(log.disk, log.history[|log.history| - 1], io(i))
    ensures Outlook(r, log, k, io, i)
            == Outlook(Tally(r, log.disk, log.history[|log.history| - 1], io(i)), next, k - 1, io, i + 1)
  {
  }

  function Depth(log: Log, steps: nat): nat {
    if steps <= |log.history| then steps else |log.history|
  }

  function AllDone(): nat -> Outcome {
    _ => Done
  }

  /** Every entry consumed ends as restored, deleted or an error, I/O failures included;
      every skipped one is among the errors. */
  lemma {:induction false} ReportAddsUp(r: UndoReport, log: Log, k: nat, io: nat -> Outcome, i: nat)
    requires k <= |log.history|
    requires r.restored + r.deleted + |r.errors| == r.applied && r.skipped <= |r.errors|
    ensures var r' := Reported(r, log, k, io, i);
            && r'.restored + r'.deleted + |r'.errors| == r'.applied == r.applied + k
            && r'.skipped <= |r'.errors|
            && r'.available == r.available
    decreases k
  {
    if k > 0 {
      var last := |log.history| - 1;
      ReportAddsUp(Tally(r, log.disk, log.history[last], io(i)),
                   Log(RestoreEntry(log.disk, log.history[last], io(i)), log.history[..last]), k - 1, io, i + 1);
    }
  }

  lemma {:induction false} StepsCompose(r: UndoReport, log: Log, a: nat, b: nat, io: nat -> Outcome, i: nat)
    requires a + b <= |log.history|
    ensures |Undone(log, a, io, i).history| == |log.history| - a
    ensures Undone(Undone(log, a, io, i), b, io, i + a) == Undone(log, a + b, io, i)
    ensures Reported(Reported(r, log, a, io, i), Undone(log, a, io, i), b, io, i + a)
            == Reported(r, log, a + b, io, i)
    decreases a
  {
    if a > 0 {
      var last := |log.history| - 1;
      var next := Log(RestoreEntry(log.disk, log.history[last], io(i)), log.history[..last]);
      UndoTurn(r, log, next, a, io, i);
      UndoTurn(r, log, next, a + b, io, i);
      StepsCompose(Tally(r, log.disk, log.history[last], io(i)), next, a - 1, b, io, i + 1);
    }
  }

  function Blank(available: nat): UndoReport {
    UndoReport(available, 0, 0, 0, 0, [])
  }

  /** What two reports tell together, of the history the first one saw. */
  function Both(r: UndoReport, q: UndoReport): UndoReport {
    UndoReport(r.available, r.applied + q.applied, r.restored + q.restored, r.deleted + q.deleted,
               r.skipped + q.skipped, r.errors + q.errors)
  }

  lemma TallyAdds(r: UndoReport, q: UndoReport, disk: Disk, e: WriteEntry, o: Outcome)
    ensures Tally(Both(r, q), disk, e, o) == Both(r, Tally(q, disk, e, o))
  {
  }

  /** Reporting on from r is r together with a report of its own. */
  lemma {:induction false} ReportContinues(r: UndoReport, q: UndoReport, log: Log, k: nat, io: nat -> Outcome, i: nat)
    requires k <= |log.history|
    ensures Reported(Both(r, q), log, k, io, i) == Both(r, Reported(q, log, k, io, i))
    decreases k
  {
    if k > 0 {
      var last := |log.history| - 1;
      var e := log.history[last];
      TallyAdds(r, q, log.disk, e, io(i));
      ReportContinues(r, Tally(q, log.disk, e, io(i)),
                      Log(RestoreEntry(log.disk, e, io(i)), log.history[..last]), k - 1, io, i + 1);
    }
  }

  /** `undo(a)` then `undo(b)` is `undo(a + b)`, asked for more than there is or not: the same
      files, the same history, and the two reports tell together what the one would. */
  lemma UndoComposes(log: Log, a: nat, b: nat, io: nat -> Outcome)
    ensures var k := Depth(log, a); var mid := Undone(log, k, io, 0);
            var l, n := Depth(mid, b), Depth(log, a + b);
            && Undone(mid, l, io, k) == Undone(log, n, io, 0)
            && Both(Reported(Blank(|log.history|), log, k, io, 0), Reported(Blank(|mid.history|), mid, l, io, k))
               == Reported(Blank(|log.history|), log, n, io, 0)
  {
    var k := Depth(log, a);
    var mid := Undone(log, k, io, 0);
    UndoneHistory(log, k, io, 0);
    var l := Depth(mid, b);
    var first := Reported(Blank(|log.history|), log, k, io, 0);
    StepsCompose(Blank(|log.history|), log, k, l, io, 0);
    ReportContinues(first, Blank(|mid.history|), mid, l, io, k);
    assert first.errors + [] == first.errors;
    assert Both(first, Blank(|mid.history|)) == first;
  }

  lemma {:induction false} UndoneHistory(log: Log, k: nat, io: nat -> Outcome, i: nat)
    requires k <= |log.history|
    ensures Undone(log, k, io, i).history == log.history[..|log.history| - k]
    decreases k
  {
    if k > 0 {
      var last := |log.history| - 1;
      UndoneHistory(Log(RestoreEntry(log.disk, log.history[last], io(i)), log.history[..last]), k - 1, io, i + 1);
      assert log.history[..last][..last - (k - 1)] == log.history[..|log.history| - k];
    }
  }

  /** Undoing reads only the entries it consumes. */
  lemma {:induction false} OlderEntriesDoNotMatter(disk: Disk, h: seq<WriteEntry>, g: seq<WriteEntry>, k: nat,
                                                   io: nat -> Outcome, i: nat)
    requires k <= |h| && k <= |g|
    requires h[|h| - k..] == g[|g| - k..]
    ensures Undone(Log(disk, h), k, io, i).disk == Undone(Log(disk, g), k, io, i).disk
    decreases k
  {
    if k > 0 {
      var lh, lg := |h| - 1, |g| - 1;
      assert h[lh] == h[|h| - k..][k - 1] && g[lg] == g[|g| - k..][k - 1];
      assert h[..lh][lh - (k - 1)..] == h[|h| - k..][..k - 1];
      assert g[..lg][lg - (k - 1)..] == g[|g| - k..][..k - 1];
      OlderEntriesDoNotMatter(RestoreEntry(disk, h[lh], io(i)), h[..lh], g[..lg], k - 1, io, i + 1);
    }
  }

  /** Whether undoing this one write puts the files back exactly: nothing was there; or what
      was there could be read and was small enough to keep; or, its metadata read, the write
      left the file as it was. */
  ghost predicate Reversible(disk: Disk, w: WriteOp) {
    || w.path !in disk
    || (w.probe == Readable && |disk[w.path]| <= 10 * 1024 * 1024)
    || (w.probe != StatFails && Lookup(Landed(disk, w), w.path) == Lookup(disk, w.path))
  }

  /** One write undone, refused or not, gives the files back exactly when the write was
      reversible. */
  lemma UndoOneExactly(disk: Disk, w: WriteOp)
    ensures RestoreEntry(Landed(disk, w), WriteEntry(w.path, Capture(disk, w)), Done) == disk
            <==> Reversible(disk, w)
  {
    var back := RestoreEntry(Landed(disk, w), WriteEntry(w.path, Capture(disk, w)), Done);
    if Reversible(disk, w) {
      forall p
        ensures Lookup(back, p) == Lookup(disk, p)
      {
      }
      SameDisk(back, disk);
    } else {
      assert Lookup(back, w.path) != Lookup(disk, w.path);
    }
  }

  /** A file whose metadata cannot be read is recorded as absent, and undo deletes it. */
  lemma FailedStatIsUndoneByDeletion(disk: Disk, w: WriteOp)
    requires w.path in disk && w.probe == StatFails
    ensures !Reversible(disk, w)
    ensures w.path !in RestoreEntry(Landed(disk, w), WriteEntry(w.path, Capture(disk, w)), Done)
  {
    var back := RestoreEntry(Landed(disk, w), WriteEntry(w.path, Capture(disk, w)), Done);
    assert Lookup(back, w.path) == None;
  }

  lemma UndoneStep(log: Log, next: Log, k: nat, i: nat)
    requires 0 < k <= |log.history|
    requires next.history == log.history[..|log.history| - 1]
    requires next.disk == RestoreEntry(log.disk, log.history[|log.history| - 1], Done)
    ensures Undone(log, k, AllDone(), i) == Undone(next, k - 1, AllDone(), i + 1)
  {
  }

  lemma SuffixOfSuffix<T>(h: seq<T>, d: nat, k: nat)
    requires d <= |h| && k <= |h| - d
    ensures h[d..][|h[d..]| - k..] == h[|h| - k..]
  {
  }

  /** Undoing the newest entry, when that restores the disk of a prior log whose history it
      was added to, leaves the prior log's entries to undo. */
  lemma PeelNewest(now: Log, prior: Log, d: nat, k: nat, i: nat)
    requires 0 < k <= |now.history| && d <= |prior.history|
    requires now.history[..|now.history| - 1] == prior.history[d..]
    requires RestoreEntry(now.disk, now.history[|now.history| - 1], Done) == prior.disk
    ensures k - 1 <= |prior.history|
    ensures Undone(now, k, AllDone(), i).disk == Undone(prior, k - 1, AllDone(), i + 1).disk
  {
    var older := now.history[..|now.history| - 1];
    UndoneStep(now, Log(prior.disk, older), k, i);
    SuffixOfSuffix(prior.history, d, k - 1);
    OlderEntriesDoNotMatter(prior.disk, older, prior.history, k - 1, AllDone(), i + 1);
  }

  /** Undoing from `now` first gets back to `prior`'s files, with `prior`'s entries to go. */
  ghost predicate LeadsBack(now: Log, prior: Log) {
    && |now.history| <= |prior.history| + 1
    && forall k: nat, i: nat :: 0 < k <= |now.history| ==>
         Undone(now, k, AllDone(), i).disk == Undone(prior, k - 1, AllDone(), i + 1).disk
  }

  lemma RestoringLeadsBack(now: Log, prior: Log, d: nat)
    requires now.history != [] && d <= |prior.history|
    requires now.history[..|now.history| - 1] == prior.history[d..]
    requires RestoreEntry(now.disk, now.history[|now.history| - 1], Done) == prior.disk
    ensures LeadsBack(now, prior)
  {
    forall k: nat, i: nat | 0 < k <= |now.history|
      ensures Undone(now, k, AllDone(), i).disk == Undone(prior, k - 1, AllDone(), i + 1).disk
    {
      PeelNewest(now, prior, d, k, i);
    }
  }

  /** Undoing the newest entry takes a reversible write back out of the way. */
  lemma WriteLeadsBack(prior: Log, w: WriteOp)
    requires Reversible(prior.disk, w)
    ensures LeadsBack(Wrote(prior, w), prior)
  {
    var now := Wrote(prior, w);
    NewestSurvives(prior.history, WriteEntry(w.path, Capture(prior.disk, w)));
    var d :| 0 <= d <= |prior.history| && now.history[..|now.history| - 1] == prior.history[d..];
    UndoOneExactly(prior.disk, w);
    RestoringLeadsBack(now, prior, d);
  }

  lemma {:induction false} UndoFollowsBack(logs: seq<Log>, m: nat, n: nat, i: nat)
    requires m <= n < |logs| && n - m <= |logs[n].history|
    requires forall j :: m < j <= n ==> LeadsBack(logs[j], logs[j - 1])
    ensures Undone(logs[n], n - m, AllDone(), i).disk == logs[m].disk
    decreases n - m
  {
    if m < n {
      assert LeadsBack(logs[n], logs[n - 1]);
      assert Undone(logs[n], n - m, AllDone(), i).disk == Undone(logs[n - 1], n - m - 1, AllDone(), i + 1).disk;
      UndoFollowsBack(logs, m, n - 1, i + 1);
    }
  }

  /** Write j takes log j to log j + 1. */
  ghost predicate WriteStep(logs: seq<Log>, ws: seq<WriteOp>, j: nat)
    requires |logs| == |ws| + 1 && j < |ws|
  {
    logs[j + 1] == Wrote(logs[j], ws[j])
  }

  /** `logs` is a run of the writes `ws`: the log before each, and the last one after all. */
  ghost predicate IsRun(logs: seq<Log>, ws: seq<WriteOp>) {
    |logs| == |ws| + 1 && forall j :: 0 <= j < |ws| ==> WriteStep(logs, ws, j)
  }

  /** Undo inverts any run of writes: after n of them, undoing back to the m-th, inside the
      surviving history and with each write since reversible, gives exactly the files of then. */
  lemma UndoInvertsWrites(logs: seq<Log>, ws: seq<WriteOp>, m: nat, n: nat, i: nat)
    requires IsRun(logs, ws) && m <= n <= |ws|
    requires n - m <= |logs[n].history|
    requires forall j :: m <= j < n ==> Reversible(logs[j].disk, ws[j])
    ensures Undone(logs[n], n - m, AllDone(), i).disk == logs[m].disk
  {
    forall j | m < j <= n
      ensures LeadsBack(logs[j], logs[j - 1])
    {
      assert WriteStep(logs, ws, j - 1);
      WriteLeadsBack(logs[j - 1], ws[j - 1]);
    }
    UndoFollowsBack(logs, m, n, i);
  }

  predicate Recorded(e: WriteEntry) {
    !e.original.Unrecorded?
  }

  function Original(e: WriteEntry): Option<Bytes>
    requires Recorded(e)
  {
    if e.original.Content? then Some(e.original.bytes) else None
  }

  /** With entries that were never captured in between, each path still gets the content
      held just before its oldest captured entry among the last k. */
  lemma {:induction false} UndoGivesOldestRecorded(log: Log, k: nat, at: nat, i: nat)
    requires k <= |log.history| && |log.history| - k <= at < |log.history|
    requires Recorded(log.history[at])
    requires forall j :: |log.history| - k <= j < at && log.history[j].path == log.history[at].path ==>
               !Recorded(log.history[j])
    ensures Lookup(Undone(log, k, AllDone(), i).disk, log.history[at].path) == Original(log.history[at])
    decreases k
  {
    var last := |log.history| - 1;
    var next := Log(RestoreEntry(log.disk, log.history[last], Done), log.history[..last]);
    if at < last {
      UndoGivesOldestRecorded(next, k - 1, at, i + 1);
    } else {
      UndoLeavesOthers(next, k - 1, log.history[at].path, i + 1);
    }
  }

  /** A path with no captured entry among the last k is left as it is. */
  lemma {:induction false} UndoLeavesOthers(log: Log, k: nat, p: Path, i: nat)
    requires k <= |log.history|
    requires forall j :: |log.history| - k <= j < |log.history| && log.history[j].path == p ==>
               !Recorded(log.history[j])
    ensures Lookup(Undone(log, k, AllDone(), i).disk, p) == Lookup(log.disk, p)
    decreases k
  {
    if k > 0 {
      var last := |log.history| - 1;
      UndoLeavesOthers(Log(RestoreEntry(log.disk, log.history[last], Done), log.history[..last]), k - 1, p, i + 1);
    }
  }

  // ---------------------------------------------------------------- the report

  /** How many of the newest k entries hold content whose write-back was carried out. */
  function WrittenBack(h: seq<WriteEntry>, k: nat, io: nat -> Outcome, i: nat): nat
    requires k <= |h|
  {
    if k == 0 then 0
    else
      WrittenBack(h[..|h| - 1], k - 1, io, i + 1)
      + if h[|h| - 1].original.Content? && io(i).Done? then 1 else 0
  }

  function NeverCaptured(h: seq<WriteEntry>, k: nat): nat
    requires k <= |h|
  {
    if k == 0 then 0
    else NeverCaptured(h[..|h| - 1], k - 1) + if h[|h| - 1].original.Unrecorded? then 1 else 0
  }

  /** How many of them made new files that were removed, or were gone already. */
  function Removed(log: Log, k: nat, io: nat -> Outcome, i: nat): nat
    requires k <= |log.history|
    decreases k
  {
    if k == 0 then 0
    else
      var e := log.history[|log.history| - 1];
      Removed(Log(RestoreEntry(log.disk, e, io(i)), log.history[..|log.history| - 1]), k - 1, io, i + 1)
      + if e.original.Absent? && (io(i).Done? || e.path !in log.disk) then 1 else 0
  }

  /** The report counts each kind of outcome on its own: contents written back, new files that
      are gone, and entries that were never captured, each of those also an error. */
  lemma {:induction false} ReportCountsEachKind(r: UndoReport, log: Log, k: nat, io: nat -> Outcome, i: nat)
    requires k <= |log.history|
    ensures var q := Reported(r, log, k, io, i);
            && q.restored == r.restored + WrittenBack(log.history, k, io, i)
            && q.deleted == r.deleted + Removed(log, k, io, i)
            && q.skipped == r.skipped + NeverCaptured(log.history, k)
            && q.applied == r.applied + k
            && r.errors <= q.errors
    decreases k
  {
    if k > 0 {
      var last := |log.history| - 1;
      ReportCountsEachKind(Tally(r, log.disk, log.history[last], io(i)),
                           Log(RestoreEntry(log.disk, log.history[last], io(i)), log.history[..last]), k - 1, io, i + 1);
    }
  }

  /** An error names the file it is about and what went wrong there. */
  lemma OneErrorPerFailure(r: UndoReport, disk: Disk, e: WriteEntry, o: Outcome)
    ensures var added := Tally(r, disk, e, o).errors[|r.errors|..];
            && r.errors <= Tally(r, disk, e, o).errors
            && (added == [] <==> (e.original.Content? && o.Done?)
                                 || (e.original.Absent? && (o.Done? || e.path !in disk)))
            && (added != [] ==> added == [if e.original.Content? then WriteFailed(e.path)
                                          else if e.original.Absent? then DeleteFailed(e.path) else NotRetained(e.path)])
  {
  }

  // ---------------------------------------------------------------- the object

  class CachedKaos {
    var disk: Disk
    var writeHistory: seq<WriteEntry>
    var mutations: nat

    constructor (files: Disk)
      ensures disk == files && writeHistory == [] && mutations == 0
    {
      disk, writeHistory, mutations := files, [], 0;
    }

    function View(): Log
      reads this
    {
      Log(disk, writeHistory)
    }

    method TrimHistory()
      modifies this`writeHistory
      ensures writeHistory == Trimmed(old(writeHistory))
    {
      var h := writeHistory;
      var dropCount := if |h| > MAX_UNDO_ENTRIES then |h| - MAX_UNDO_ENTRIES else 0;
      var retained := Retained(h[dropCount..]);
      while retained > MAX_UNDO_BYTES && dropCount < |h|
        invariant dropCount <= |h| && |h| - dropCount <= MAX_UNDO_ENTRIES
        invariant retained == Retained(h[dropCount..])
        invariant forall d :: 0 <= d < dropCount ==> !Fits(h[d..])
        decreases |h| - dropCount
      {
        RetainedStep(h, dropCount);
        retained := retained - RetainedBytes(h[dropCount]);
        dropCount := dropCount + 1;
      }
      TrimmedFrom(h, dropCount);
      writeHistory := h[dropCount..];
    }

    method RecordWrite(w: WriteOp)
      modifies this`writeHistory
      ensures writeHistory == Trimmed(old(writeHistory) + [WriteEntry(w.path, Capture(disk, w))])
      ensures writeHistory != [] && var e := writeHistory[|writeHistory| - 1];
              && e.path == w.path
              && (e.original.Absent? <==> w.path !in disk || w.probe == StatFails)
              && (e.original.Content? <==>
                    w.path in disk && w.probe == Readable && |disk[w.path]| <= MAX_UNDO_FILE_BYTES)
              && (e.original.Content? ==> e.original.bytes == disk[w.path])
    {
      NewestSurvives(writeHistory, WriteEntry(w.path, Capture(disk, w)));
      var original := Absent;
      if w.path in disk && w.probe != StatFails {
        if |disk[w.path]| > MAX_UNDO_FILE_BYTES || w.probe == ReadFails {
          original := Unrecorded;
        } else {
          original := Content(disk[w.path]);
        }
      }
      writeHistory := writeHistory + [WriteEntry(w.path, original)];
      TrimHistory();
    }

    /** `write_bytes` and `write_text` alike: record, bump, write, bump. */
    method Write(w: WriteOp) returns (r: Result<nat, Path>)
      modifies this
      ensures View() == Wrote(old(View()), w)
      ensures mutations == old(mutations) + 2
      ensures r == if w.outcome.Done? then Ok(|w.data|) else Err(w.path)
      ensures w.outcome.Done? ==>
                var kept := if w.append && w.path in old(disk) then old(disk)[w.path] else [];
                w.path in disk && disk[w.path] == kept + w.data
      ensures forall q :: q != w.path ==> Lookup(disk, q) == Lookup(old(disk), q)
    {
      RecordWrite(w);
      mutations := mutations + 1;
      disk := Landed(disk, w);
      mutations := mutations + 1;
      r := if w.outcome.Done? then Ok(|w.data|) else Err(w.path);
    }

    /** One turn of `undo`'s loop: pop the newest entry and put its path back. */
    method UndoNewest(before: UndoReport, outcome: Outcome) returns (report: UndoReport)
      requires writeHistory != []
      modifies this`disk, this`writeHistory
      ensures writeHistory == old(writeHistory)[..|old(writeHistory)| - 1]
      ensures disk == RestoreEntry(old(disk), old(writeHistory)[|old(writeHistory)| - 1], outcome)
      ensures report == Tally(before, old(disk), old(writeHistory)[|old(writeHistory)| - 1], outcome)
      ensures var e := old(writeHistory)[|old(writeHistory)| - 1];
              && (forall q :: q != e.path || e.original.Unrecorded? ==> Lookup(disk, q) == Lookup(old(disk), q))
              && (e.original.Content? && outcome.Done? ==> Lookup(disk, e.path) == Some(e.original.bytes))
              && (e.original.Absent? ==> Lookup(disk, e.path) == if outcome.Done? then None else Lookup(old(disk), e.path))
    {
      var entry := writeHistory[|writeHistory| - 1];
      writeHistory := writeHistory[..|writeHistory| - 1];
      report := before.(applied := before.applied + 1);
      match entry.original {
        case Content(bytes) =>
          if outcome.Done? {
            report := report.(restored := report.restored + 1);
            disk := disk[entry.path := bytes];
          } else {
            report := report.(errors := report.errors + [WriteFailed(entry.path)]);
            disk := Place(disk, entry.path, outcome.left);
          }
        case Absent =>
          if entry.path !in disk {
            report := report.(deleted := report.deleted + 1);
            assert disk - {entry.path} == disk;
          } else if outcome.Done? {
            report := report.(deleted := report.deleted + 1);
            disk := disk - {entry.path};
          } else {
            report := report.(errors := report.errors + [DeleteFailed(entry.path)]);
          }
        case Unrecorded =>
          report := report.(skipped := report.skipped + 1,
                            errors := report.errors + [NotRetained(entry.path)]);
      }
    }

    method Undo(steps: nat, io: nat -> Outcome) returns (report: UndoReport)
      modifies this
      ensures var k := Depth(old(View()), steps);
              && View() == Undone(old(View()), k, io, 0)
              && report == Reported(Blank(|old(writeHistory)|), old(View()), k, io, 0)
              && mutations == old(mutations) + (if k > 0 then 1 else 0)
              && writeHistory == old(writeHistory)[..|old(writeHistory)| - k]
              && report.applied == k
      ensures report.available == |old(writeHistory)|
      ensures report.applied == if steps <= |old(writeHistory)| then steps else |old(writeHistory)|
    {
      var available := |writeHistory|;
      report := Blank(available);
      ghost var log, blank := View(), report;
      var k := if steps <= available then steps else available;
      var i := 0;
      while i < k
        invariant 0 <= i <= k && k - i <= |writeHistory|
        invariant Outlook(report, View(), k - i, io, i) == Outlook(blank, log, k, io, 0)
        invariant mutations == old(mutations)
      {
        ghost var was, before := View(), report;
        report := UndoNewest(report, io(i));
        UndoTurn(before, was, View(), k - i, io, i);
        i := i + 1;
      }
      UndoneHistory(log, k, io, 0);
      ReportAddsUp(blank, log, k, io, 0);
      if report.applied > 0 {
        mutations := mutations + 1;
      }
    }
  }
}
