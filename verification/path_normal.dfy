/** Lexical path normalisation: what `..` and `.` cancel to, without asking the file system. */
module PathNormal {
  import opened Wrappers

  datatype Component =
    | Prefix(drive: string)
    | RootDir
    | CurDir
    | ParentDir
    | Normal(name: string)

  type Path = seq<Component>

  /** How a path reads: a drive only first, a root only first or behind the drive, and `..`
      is never a name. */
  predicate IsPath(path: Path) {
    forall i :: 0 <= i < |path| ==>
      && (path[i].Prefix? ==> i == 0)
      && (path[i].RootDir? ==> i == 0 || (i == 1 && path[0].Prefix?))
      && (path[i].Normal? ==> path[i].name != "..")
  }

  /** What the loop has gathered. Among the parts, ".." stands for the parent. */
  datatype Gathered = Gathered(prefix: Option<string>, hasRoot: bool, parts: seq<string>)

  const NOTHING := Gathered(None, false, [])

  function Gather(g: Gathered, c: Component): Gathered {
    match c
    case Prefix(p) => g.(prefix := Some(p))
    case RootDir => g.(hasRoot := true)
    case CurDir => g
    case ParentDir =>
      if g.parts != [] && g.parts[|g.parts| - 1] != ".." then g.(parts := g.parts[..|g.parts| - 1])
      else if g.hasRoot then g
      else g.(parts := g.parts + [".."])
    case Normal(name) => g.(parts := g.parts + [name])
  }

  function GatherAll(path: Path): Gathered {
    if path == [] then NOTHING else Gather(GatherAll(path[..|path| - 1]), path[|path| - 1])
  }

  function PartComponent(part: string): Component {
    if part == ".." then ParentDir else Normal(part)
  }

  function PartComponents(parts: seq<string>): Path {
    seq(|parts|, i requires 0 <= i < |parts| => PartComponent(parts[i]))
  }

  function Anchor(g: Gathered): Path {
    (if g.prefix.Some? then [Prefix(g.prefix.value)] else []) + if g.hasRoot then [RootDir] else []
  }

  function Emit(g: Gathered): Path {
    Anchor(g) + PartComponents(g.parts)
  }

  function Normalized(path: Path): Path {
    var out := Emit(GatherAll(path));
    if out == [] then [CurDir] else out
  }

  /** The normalising loop, and the path put together from what it gathered. */
  method NormalizePath(path: Path) returns (out: Path)
    ensures out == Normalized(path)
  {
    var parts: seq<string> := [];
    var prefix: Option<string> := None;
    var hasRoot := false;
    for i := 0 to |path|
      invariant Gathered(prefix, hasRoot, parts) == GatherAll(path[..i])
    {
      assert path[..i + 1][..i] == path[..i];
      match path[i]
      case Prefix(p) => prefix := Some(p);
      case RootDir => hasRoot := true;
      case CurDir =>
      case ParentDir =>
        if parts != [] {
          if parts[|parts| - 1] != ".." {
            parts := parts[..|parts| - 1];
          } else if !hasRoot {
            parts := parts + [".."];
          }
        } else if !hasRoot {
          parts := parts + [".."];
        }
      case Normal(part) => parts := parts + [part];
    }
    assert path[..|path|] == path;
    out := PutTogether(prefix, hasRoot, parts);
  }

  method PutTogether(prefix: Option<string>, hasRoot: bool, parts: seq<string>) returns (out: Path)
    ensures var g := Gathered(prefix, hasRoot, parts); out == if Emit(g) == [] then [CurDir] else Emit(g)
  {
    out := [];
    if prefix.Some? {
      out := out + [Prefix(prefix.value)];
    }
    if hasRoot {
      out := out + [RootDir];
    }
    ghost var anchor := out;
    for i := 0 to |parts|
      invariant out == anchor + PartComponents(parts[..i])
    {
      assert PartComponents(parts[..i + 1]) == PartComponents(parts[..i]) + [PartComponent(parts[i])];
      out := out + [PartComponent(parts[i])];
    }
    assert parts[..|parts|] == parts;
    if out == [] {
      out := out + [CurDir];
    }
  }

  // ---------------------------------------------------------------- walking

  /** A directory: its drive, if any, and the names from that drive's root. */
  datatype Place = Place(drive: Option<string>, dirs: seq<string>)

  /** The directory each drive currently has open. */
  type Drives = string -> seq<string>

  function Step(at: Place, c: Component, drives: Drives): Place {
    match c
    case Prefix(p) => Place(Some(p), drives(p))
    case RootDir => at.(dirs := [])
    case CurDir => at
    case ParentDir => if at.dirs == [] then at else at.(dirs := at.dirs[..|at.dirs| - 1])
    case Normal(name) => at.(dirs := at.dirs + [name])
  }

  function Walk(at: Place, path: Path, drives: Drives): Place {
    if path == [] then at else Step(Walk(at, path[..|path| - 1], drives), path[|path| - 1], drives)
  }

  /** Paths that lead to the same place from everywhere. */
  ghost predicate SameWalk(a: Path, b: Path) {
    forall at: Place, drives: Drives :: Walk(at, a, drives) == Walk(at, b, drives)
  }

  lemma WalkPush(at: Place, path: Path, c: Component, drives: Drives)
    ensures Walk(at, path + [c], drives) == Step(Walk(at, path, drives), c, drives)
  {
    assert (path + [c])[..|path|] == path;
  }

  // ---------------------------------------------------------------- the shape of the result

  /** The leading parents. */
  function Ups(parts: seq<string>): (n: nat)
    ensures n <= |parts|
  {
    if parts == [] || parts[0] != ".." then 0 else 1 + Ups(parts[1..])
  }

  /** Every `..` comes before every name, and there is none under a root. */
  predicate Tidy(g: Gathered) {
    && (forall i :: 0 <= i < Ups(g.parts) ==> g.parts[i] == "..")
    && (forall i :: Ups(g.parts) <= i < |g.parts| ==> g.parts[i] != "..")
    && (g.hasRoot ==> Ups(g.parts) == 0)
  }

  lemma {:induction false} UpsIs(parts: seq<string>, n: nat)
    requires n <= |parts| && (forall i :: 0 <= i < n ==> parts[i] == "..")
    requires n < |parts| ==> parts[n] != ".."
    ensures Ups(parts) == n
  {
    if n > 0 {
      UpsIs(parts[1..], n - 1);
    }
  }

  lemma PushKeepsTidy(g: Gathered, c: Component)
    requires Tidy(g) && (c.ParentDir? || (c.Normal? && c.name != ".."))
    ensures Tidy(Gather(g, c))
  {
    var n, u := |g.parts|, Ups(g.parts);
    var after := Gather(g, c).parts;
    if c.Normal? {
      UpsIs(after, u);
    } else if n > 0 && g.parts[n - 1] != ".." {
      UpsIs(after, u);
    } else if !g.hasRoot {
      assert u == n;
      UpsIs(after, n + 1);
    }
  }

  lemma {:induction false} GatheredIsTidy(path: Path)
    requires IsPath(path)
    ensures Tidy(GatherAll(path))
    ensures path == [] || (|path| == 1 && path[0].Prefix?) ==> !GatherAll(path).hasRoot && GatherAll(path).parts == []
  {
    if path != [] {
      var init, last := path[..|path| - 1], path[|path| - 1];
      GatheredIsTidy(init);
      if last.ParentDir? || last.Normal? {
        PushKeepsTidy(GatherAll(init), last);
      }
    }
  }

  lemma EmittedAt(g: Gathered, i: nat)
    requires Tidy(g) && i < |Emit(g)|
    ensures i >= |Anchor(g)| ==> i - |Anchor(g)| < |g.parts| && Emit(g)[i] == PartComponent(g.parts[i - |Anchor(g)|])
    ensures i < |Anchor(g)| ==> Emit(g)[i] == Anchor(g)[i]
    ensures Emit(g)[i].Prefix? ==> i == 0
    ensures Emit(g)[i].RootDir? ==> g.hasRoot && (i == 0 || (i == 1 && Emit(g)[0].Prefix?))
    ensures Emit(g)[i].ParentDir? <==> 0 <= i - |Anchor(g)| < Ups(g.parts)
    ensures Emit(g)[i].Normal? ==> i - |Anchor(g)| >= Ups(g.parts) && Emit(g)[i].name != ".."
    ensures !Emit(g)[i].CurDir?
  {
    if i >= |Anchor(g)| {
      assert Emit(g)[i] == PartComponent(g.parts[i - |Anchor(g)|]);
    }
  }

  /** The result reads as a path; its parents precede its names; and if it has a root it has
      no parents at all. */
  lemma NormalShape(path: Path)
    requires IsPath(path)
    ensures IsPath(Normalized(path)) && Normalized(path) != []
    ensures forall i, j :: 0 <= i < j < |Normalized(path)| && Normalized(path)[j].ParentDir? ==> !Normalized(path)[i].Normal?
    ensures RootDir in Normalized(path) ==> ParentDir !in Normalized(path)
    ensures CurDir in Normalized(path) <==> Normalized(path) == [CurDir]
  {
    GatheredIsTidy(path);
    EmittedShape(GatherAll(path));
  }

  lemma EmittedShape(g: Gathered)
    requires Tidy(g)
    ensures IsPath(Emit(g))
    ensures forall i, j :: 0 <= i < j < |Emit(g)| && Emit(g)[j].ParentDir? ==> !Emit(g)[i].Normal?
    ensures RootDir in Emit(g) ==> ParentDir !in Emit(g)
    ensures CurDir !in Emit(g)
  {
    forall i: nat | i < |Emit(g)|
      ensures Emit(g)[i].Prefix? ==> i == 0
      ensures Emit(g)[i].RootDir? ==> g.hasRoot && (i == 0 || (i == 1 && Emit(g)[0].Prefix?))
      ensures Emit(g)[i].ParentDir? <==> 0 <= i - |Anchor(g)| < Ups(g.parts)
      ensures Emit(g)[i].Normal? ==> i - |Anchor(g)| >= Ups(g.parts) && Emit(g)[i].name != ".."
      ensures !Emit(g)[i].CurDir?
    {
      EmittedAt(g, i);
    }
  }

  // ---------------------------------------------------------------- meaning

  lemma EmitPush(g: Gathered, part: string)
    ensures Emit(g.(parts := g.parts + [part])) == Emit(g) + [PartComponent(part)]
  {
    assert PartComponents(g.parts + [part]) == PartComponents(g.parts) + [PartComponent(part)];
  }

  lemma AnchorWalk(at: Place, g: Gathered, drives: Drives)
    ensures var start := if g.prefix.Some? then Place(Some(g.prefix.value), drives(g.prefix.value)) else at;
            Walk(at, Anchor(g), drives) == if g.hasRoot then start.(dirs := []) else start
  {
    var drive: Path := if g.prefix.Some? then [Prefix(g.prefix.value)] else [];
    if g.prefix.Some? {
      WalkPush(at, [], drive[0], drives);
      assert [] + [drive[0]] == drive;
    }
    if g.hasRoot {
      WalkPush(at, drive, RootDir, drives);
    } else {
      assert Anchor(g) == drive;
    }
  }

  lemma NameAndParentCancel(at: Place, name: string, drives: Drives)
    ensures Step(Step(at, Normal(name), drives), ParentDir, drives) == at
  {
    assert (at.dirs + [name])[..|at.dirs|] == at.dirs;
  }

  /** A name and the parent behind it cancel. */
  lemma PopKeepsMeaning(at: Place, g: Gathered, drives: Drives)
    requires g.parts != [] && g.parts[|g.parts| - 1] != ".."
    ensures var shorter := g.(parts := g.parts[..|g.parts| - 1]);
            Walk(at, Emit(shorter), drives) == Step(Walk(at, Emit(g), drives), ParentDir, drives)
  {
    var init, last := g.parts[..|g.parts| - 1], g.parts[|g.parts| - 1];
    var shorter := g.(parts := init);
    assert g == shorter.(parts := init + [last]);
    EmitPush(shorter, last);
    WalkPush(at, Emit(shorter), Normal(last), drives);
    NameAndParentCancel(Walk(at, Emit(shorter), drives), last, drives);
  }

  /** The parent of a root is the root. */
  lemma ParentOfRoot(at: Place, g: Gathered, drives: Drives)
    requires g.hasRoot && g.parts == []
    ensures Walk(at, Emit(g), drives) == Step(Walk(at, Emit(g), drives), ParentDir, drives)
  {
    assert Emit(g) == Anchor(g);
    AnchorWalk(at, g, drives);
  }

  lemma GatherKeepsMeaning(at: Place, g: Gathered, c: Component, drives: Drives)
    requires Tidy(g)
    requires c.ParentDir? || (c.Normal? && c.name != "..")
    ensures Walk(at, Emit(Gather(g, c)), drives) == Step(Walk(at, Emit(g), drives), c, drives)
  {
    if c.Normal? {
      EmitPush(g, c.name);
      WalkPush(at, Emit(g), c, drives);
    } else if g.parts != [] && g.parts[|g.parts| - 1] != ".." {
      PopKeepsMeaning(at, g, drives);
    } else if g.hasRoot {
      ParentOfRoot(at, g, drives);
    } else {
      EmitPush(g, "..");
      WalkPush(at, Emit(g), ParentDir, drives);
    }
  }

  lemma {:induction false} GatheredWalk(at: Place, path: Path, drives: Drives)
    requires IsPath(path)
    ensures Walk(at, Emit(GatherAll(path)), drives) == Walk(at, path, drives)
  {
    if path != [] {
      var init, last := path[..|path| - 1], path[|path| - 1];
      GatheredWalk(at, init, drives);
      GatheredIsTidy(init);
      var g := GatherAll(init);
      if last.ParentDir? || last.Normal? {
        GatherKeepsMeaning(at, g, last, drives);
      } else if !last.CurDir? {
        assert Emit(g) == Anchor(g);
        assert Emit(Gather(g, last)) == Anchor(Gather(g, last));
        AnchorWalk(at, g, drives);
        AnchorWalk(at, Gather(g, last), drives);
      }
    }
  }

  /** Normalising preserves what the path means: from any directory, whatever the drives'
      own directories, the result leads where the path led. */
  lemma NormalizingKeepsMeaning(path: Path)
    requires IsPath(path)
    ensures SameWalk(path, Normalized(path))
  {
    forall at: Place, drives: Drives
      ensures Walk(at, path, drives) == Walk(at, Normalized(path), drives)
    {
      GatheredWalk(at, path, drives);
      WalkPush(at, [], CurDir, drives);
      assert [] + [CurDir] == [CurDir];
    }
  }

  // ---------------------------------------------------------------- completeness

  /** Where a tidy path leads, in closed form: up, then down. */
  function Climb(dirs: seq<string>, ups: nat): seq<string> {
    if |dirs| <= ups then [] else dirs[..|dirs| - ups]
  }

  function Moved(dirs: seq<string>, parts: seq<string>): seq<string> {
    Climb(dirs, Ups(parts)) + parts[Ups(parts)..]
  }

  lemma MovedDown(dirs: seq<string>, parts: seq<string>, name: string)
    requires Tidy(Gathered(None, false, parts)) && name != ".."
    ensures Moved(dirs, parts + [name]) == Moved(dirs, parts) + [name]
  {
    var u := Ups(parts);
    UpsIs(parts + [name], u);
    assert (parts + [name])[u..] == parts[u..] + [name];
  }

  lemma MovedUp(dirs: seq<string>, parts: seq<string>)
    requires Ups(parts) == |parts| && forall i :: 0 <= i < |parts| ==> parts[i] == ".."
    ensures var before := Moved(dirs, parts);
            Moved(dirs, parts + [".."]) == if before == [] then [] else before[..|before| - 1]
  {
    var n := |parts|;
    UpsIs(parts + [".."], n + 1);
    assert parts[n..] == [] && (parts + [".."])[n + 1..] == [];
    assert Climb(dirs, n) + [] == Climb(dirs, n) && Climb(dirs, n + 1) + [] == Climb(dirs, n + 1);
  }

  lemma PartsPush(at: Place, parts: seq<string>, part: string, drives: Drives)
    ensures Walk(at, PartComponents(parts + [part]), drives)
            == Step(Walk(at, PartComponents(parts), drives), PartComponent(part), drives)
  {
    assert PartComponents(parts + [part]) == PartComponents(parts) + [PartComponent(part)];
    WalkPush(at, PartComponents(parts), PartComponent(part), drives);
  }

  lemma InitIsTidy(parts: seq<string>)
    requires parts != [] && Tidy(Gathered(None, false, parts))
    ensures Tidy(Gathered(None, false, parts[..|parts| - 1]))
    ensures parts[|parts| - 1] == ".." ==> Ups(parts[..|parts| - 1]) == |parts| - 1
  {
    var n, u := |parts| - 1, Ups(parts);
    UpsIs(parts[..n], if u <= n then u else n);
  }

  lemma {:induction false} PartsWalk(at: Place, parts: seq<string>, drives: Drives)
    requires Tidy(Gathered(None, false, parts))
    ensures Walk(at, PartComponents(parts), drives) == at.(dirs := Moved(at.dirs, parts))
  {
    if parts == [] {
      assert Moved(at.dirs, parts) == at.dirs;
    } else {
      var init, last := parts[..|parts| - 1], parts[|parts| - 1];
      assert parts == init + [last];
      InitIsTidy(parts);
      PartsWalk(at, init, drives);
      PartsPush(at, init, last, drives);
      if last == ".." {
        MovedUp(at.dirs, init);
      } else {
        MovedDown(at.dirs, init, last);
      }
    }
  }

  lemma {:induction false} WalkConcat(at: Place, a: Path, b: Path, drives: Drives)
    ensures Walk(at, a + b, drives) == Walk(Walk(at, a, drives), b, drives)
  {
    if b == [] {
      assert a + b == a;
    } else {
      assert (a + b)[..|a + b| - 1] == a + b[..|b| - 1];
      WalkConcat(at, a, b[..|b| - 1], drives);
    }
  }

  function Reach(at: Place, g: Gathered, drives: Drives): Place {
    var start := if g.prefix.Some? then Place(Some(g.prefix.value), drives(g.prefix.value)) else at;
    var dirs := if g.hasRoot then [] else start.dirs;
    start.(dirs := Moved(dirs, g.parts))
  }

  lemma EmitReaches(at: Place, g: Gathered, drives: Drives)
    requires Tidy(g)
    ensures Walk(at, Emit(g), drives) == Reach(at, g, drives)
  {
    AnchorWalk(at, g, drives);
    WalkConcat(at, Anchor(g), PartComponents(g.parts), drives);
    PartsWalk(Walk(at, Anchor(g), drives), g.parts, drives);
  }

  function Repeated(name: string, n: nat): seq<string> {
    seq(n, i => name)
  }

  /** Different amounts of climbing show from a directory deep enough, under names that the
      path going higher does not use first. */
  lemma ClimbsDiffer(a: seq<string>, b: seq<string>, low: nat, high: nat, name: string, deep: nat)
    requires low < high < deep && (b != [] ==> b[0] != name)
    ensures Climb(Repeated(name, deep), low) + a != Climb(Repeated(name, deep), high) + b
  {
    var x, y := Climb(Repeated(name, deep), low) + a, Climb(Repeated(name, deep), high) + b;
    assert |x| > deep - high && x[deep - high] == name;
    assert b != [] ==> y[deep - high] == b[0];
    assert b == [] ==> |y| == deep - high;
  }

  function FreshName(parts: seq<string>): (name: string)
    ensures forall i :: 0 <= i < |parts| ==> parts[i] != name
    ensures forall i :: 0 <= i < |parts| ==> |parts[i]| < |name|
  {
    if parts == [] then "x"
    else
      var name := FreshName(parts[1..]);
      if |parts[0]| < |name| then name else parts[0] + "x"
  }

  lemma SameClimbDiffers(a: seq<string>, b: seq<string>, dirs: seq<string>)
    requires Tidy(Gathered(None, false, a)) && Tidy(Gathered(None, false, b)) && a != b && Ups(a) == Ups(b)
    ensures Moved(dirs, a) != Moved(dirs, b)
  {
    var u := Ups(a);
    assert a[..u] == b[..u];
    assert a == a[..u] + a[u..] && b == b[..u] + b[u..];
    SamePrefixDiffers(Climb(dirs, u), a[u..], b[u..]);
  }

  lemma PartsDiffer(a: seq<string>, b: seq<string>, name: string)
    requires Tidy(Gathered(None, false, a)) && Tidy(Gathered(None, false, b)) && a != b
    requires name !in a && name !in b
    ensures Moved(Repeated(name, |a| + |b| + 1), a) != Moved(Repeated(name, |a| + |b| + 1), b)
  {
    var deep := |a| + |b| + 1;
    if Ups(a) < Ups(b) {
      ClimbsDiffer(a[Ups(a)..], b[Ups(b)..], Ups(a), Ups(b), name, deep);
    } else if Ups(b) < Ups(a) {
      ClimbsDiffer(b[Ups(b)..], a[Ups(a)..], Ups(b), Ups(a), name, deep);
    } else {
      SameClimbDiffers(a, b, Repeated(name, deep));
    }
  }

  lemma SamePrefixDiffers<T>(p: seq<T>, a: seq<T>, b: seq<T>)
    requires a != b
    ensures p + a != p + b
  {
    assert (p + a)[|p|..] == a && (p + b)[|p|..] == b;
  }

  lemma RootsDiffer(a: seq<string>, b: seq<string>, base: seq<string>)
    requires |base| > |a| + |b|
    ensures a != Moved(base, b)
  {
  }

  lemma RootedMoved(parts: seq<string>)
    requires Ups(parts) == 0
    ensures Moved([], parts) == parts
  {
    assert parts[0..] == parts;
  }

  lemma SamePrefixGatheredDiffer(a: Gathered, b: Gathered, name: string, drives: Drives)
    requires Tidy(a) && Tidy(b) && a.prefix == b.prefix && a != b && name !in a.parts && name !in b.parts
    requires a.prefix.Some? ==> drives(a.prefix.value) == Repeated(name, |a.parts| + |b.parts| + 1)
    ensures var at := Place(None, Repeated(name, |a.parts| + |b.parts| + 1));
            Reach(at, a, drives).dirs != Reach(at, b, drives).dirs
  {
    var base := Repeated(name, |a.parts| + |b.parts| + 1);
    if a.hasRoot {
      RootedMoved(a.parts);
      if b.hasRoot {
        RootedMoved(b.parts);
      } else {
        RootsDiffer(a.parts, b.parts, base);
      }
    } else if b.hasRoot {
      RootedMoved(b.parts);
      RootsDiffer(b.parts, a.parts, base);
    } else {
      PartsDiffer(a.parts, b.parts, name);
    }
  }

  lemma FreshForBoth(a: seq<string>, b: seq<string>) returns (name: string)
    ensures name !in a && name !in b
  {
    name := FreshName(a + b);
    assert forall i :: 0 <= i < |a| ==> a[i] == (a + b)[i];
    assert forall i :: 0 <= i < |b| ==> b[i] == (a + b)[|a| + i];
  }

  lemma DrivesDiffer(a: Gathered, b: Gathered, base: seq<string>, drives: Drives)
    requires a.prefix != b.prefix
    ensures Reach(Place(None, base), a, drives).drive != Reach(Place(None, base), b, drives).drive
  {
  }

  /** Gathered paths that differ are told apart by walking them from some directory. */
  lemma GatheredDiffer(a: Gathered, b: Gathered) returns (at: Place, drives: Drives)
    requires Tidy(a) && Tidy(b) && a != b
    ensures Reach(at, a, drives) != Reach(at, b, drives)
  {
    var name := FreshForBoth(a.parts, b.parts);
    var base := Repeated(name, |a.parts| + |b.parts| + 1);
    at, drives := Place(None, base), _ => base;
    if a.prefix == b.prefix {
      SamePrefixGatheredDiffer(a, b, name, drives);
    } else {
      DrivesDiffer(a, b, base, drives);
    }
  }

  /** The normal form is complete: two paths have the same one exactly when they lead to the
      same place from every directory. */
  lemma NormalFormsDecideMeaning(a: Path, b: Path)
    requires IsPath(a) && IsPath(b)
    ensures Normalized(a) == Normalized(b) <==> SameWalk(a, b)
  {
    NormalizingKeepsMeaning(a);
    NormalizingKeepsMeaning(b);
    GatheredIsTidy(a);
    GatheredIsTidy(b);
    var ga, gb := GatherAll(a), GatherAll(b);
    if ga != gb {
      var at, drives := GatheredDiffer(ga, gb);
      EmitReaches(at, ga, drives);
      EmitReaches(at, gb, drives);
      GatheredWalk(at, a, drives);
      GatheredWalk(at, b, drives);
      assert Walk(at, a, drives) != Walk(at, b, drives);
    }
  }

  /** Normalising what is normal changes nothing. */
  lemma NormalizingIsIdempotent(path: Path)
    requires IsPath(path)
    ensures Normalized(Normalized(path)) == Normalized(path)
  {
    NormalShape(path);
    NormalizingKeepsMeaning(path);
    NormalFormsDecideMeaning(path, Normalized(path));
  }
}
