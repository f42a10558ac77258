/** The directory index of `CachedKaos` as a transition system.

    Any number of `get_paths` calls, writes, directory creations, undos, snapshot
    restores and executed processes interleave, one atomic step at a time. Shared state
    is the file tree, the atomic mutation counter and the locked index. A scan is not
    atomic: it tests one path per step.

    `past` (one moment per step), the times kept in tasks, and `Scan.began` / `Scan.seen`
    are bookkeeping: no step's guard or effect on the shared state depends on them. */
module IndexProtocol {
  import opened Wrappers

  type Path = string

  /** A walk of the tree: when it began, when each path was tested, what it listed. */
  datatype Scan = Scan(began: nat, seen: map<Path, nat>, found: set<Path>)

  /** A published scan with the mutation count it is valid as of. */
  datatype Index = Index(generation: nat, scan: Scan)

  /** What a change in flight was asked for by. Only `Write` (write_bytes, write_text,
      mkdir) bumps on both sides; only `Restore` can give up without bumping at all. */
  datatype Kind = Write | Undo | Restore

  datatype Task =
      // get_paths
    | Called(since: nat)
    | Outrun(since: nat)
    | Walking(since: nat, generation: nat, scan: Scan)
    | Publishing(since: nat, generation: nat, scan: Scan)
    | Returned(since: nat, scan: Scan)
    | ScanFailed
      // changes made by this program
    | Changing(kind: Kind, touched: nat)
    | Escaped(touched: nat)
      // executed processes
    | Spawning(launched: nat)
    | Alive(touched: nat)
    | Exited(touched: nat)
    | Orphan(touched: nat)
      // a change whose last effect came before a bump of its own
    | Settled(touched: nat, marked: nat, handle: bool)

  datatype Moment = Moment(tree: set<Path>, counter: nat, actor: nat)

  datatype State = State(
    universe: set<Path>,
    tree: set<Path>,
    counter: nat,
    index: Option<Index>,
    tasks: map<nat, Task>,
    past: seq<Moment>)

  datatype Action =
    | Call(id: nat)
    | CheckIndex(id: nat)
    | LoadGeneration(id: nat)
    | Test(id: nat, path: Path)
    | FailScan(id: nat)
    | Recheck(id: nat)
    | Publish(id: nat)
    | BeginWrite(id: nat)
    | BeginUnmarked(id: nat, kind: Kind)
    | Touch(id: nat, tree: set<Path>)
    | EndChange(id: nat)
    | GiveUp(id: nat)
    | Exec(id: nat)
    | SpawnOk(id: nat)
    | SpawnFails(id: nat)
    | Exit(id: nat)
    | Wait(id: nat)
    | Drop(id: nat)

  /** The first states: an index missing (`empty`) or scanned at construction (`new`). */
  ghost predicate Init(s: State) {
    && s.tree <= s.universe
    && s.counter == 0
    && s.tasks == map[]
    && s.past == [Moment(s.tree, 0, 0)]
    && (s.index.Some? ==>
          s.index.value == Index(0, Scan(0, map p | p in s.universe :: 0, s.tree)))
  }

  function Now(s: State): nat
    requires |s.past| > 0
  {
    |s.past| - 1
  }

  /** Whether the step can be taken. */
  predicate Enabled(s: State, a: Action) {
    if a.Call? || a.BeginWrite? || a.Exec? then a.id !in s.tasks
    else if a.BeginUnmarked? then a.id !in s.tasks && a.kind != Write
    else a.id in s.tasks && var t := s.tasks[a.id];
      match a
      case CheckIndex(_) => t.Called?
      case LoadGeneration(_) => t.Outrun?
      case Test(_, p) => t.Walking? && p in s.universe && p !in t.scan.seen
      case FailScan(_) => t.Walking?
      case Recheck(_) => t.Walking? && t.scan.seen.Keys == s.universe
      case Publish(_) => t.Publishing?
      case Touch(_, tree) => (t.Changing? || t.Alive? || t.Orphan?) && tree <= s.universe
      case EndChange(_) => t.Changing?
      case GiveUp(_) => t.Changing? && t.kind == Restore
      case SpawnOk(_) => t.Spawning?
      case SpawnFails(_) => t.Spawning?
      case Exit(_) => t.Alive?
      case Wait(_) => t.Alive? || t.Exited? || (t.Settled? && t.handle)
      case Drop(_) => t.Alive? || t.Exited? || (t.Settled? && t.handle)
      case _ => false
  }

  function Bump(s: State, id: nat, t: Task): State {
    s.(counter := s.counter + 1, tasks := s.tasks[id := t])
  }

  /** One scan step: the verdict on one path, as the tree stands right now. */
  function Tested(s: State, scan: Scan, p: Path): Scan
    requires |s.past| > 0
  {
    Scan(scan.began, scan.seen[p := Now(s)], if p in s.tree then scan.found + {p} else scan.found)
  }

  /** Publication under the write lock: a strictly newer index is left alone. */
  function Published(index: Option<Index>, generation: nat, scan: Scan): Option<Index> {
    if index.Some? && index.value.generation > generation then index
    else Some(Index(generation, scan))
  }

  function TouchedAt(t: Task, now: nat): Task {
    match t
    case Changing(kind, _) => Changing(kind, now)
    case Alive(_) => Alive(now)
    case Orphan(_) => Orphan(now)
    case _ => t
  }

  function Apply(s: State, a: Action): State
    requires |s.past| > 0 && Enabled(s, a)
  {
    var next := Now(s) + 1;
    match a
    case Call(id) => s.(tasks := s.tasks[id := Called(next)])
    case CheckIndex(id) =>
      var t := s.tasks[id];
      s.(tasks := s.tasks[id :=
         if s.index.Some? && s.index.value.generation == s.counter
         then Returned(t.since, s.index.value.scan) else Outrun(t.since)])
    case LoadGeneration(id) =>
      s.(tasks := s.tasks[id := Walking(s.tasks[id].since, s.counter, Scan(next - 1, map[], {}))])
    case Test(id, p) =>
      var t := s.tasks[id];
      s.(tasks := s.tasks[id := Walking(t.since, t.generation, Tested(s, t.scan, p))])
    case FailScan(id) => s.(tasks := s.tasks[id := ScanFailed])
    case Recheck(id) =>
      var t := s.tasks[id];
      s.(tasks := s.tasks[id :=
         if s.counter == t.generation then Publishing(t.since, t.generation, t.scan)
         else Returned(t.since, t.scan)])
    case Publish(id) =>
      var t := s.tasks[id];
      s.(index := Published(s.index, t.generation, t.scan),
         tasks := s.tasks[id := Returned(t.since, t.scan)])
    case BeginWrite(id) => Bump(s, id, Changing(Write, 0))
    case BeginUnmarked(id, kind) => s.(tasks := s.tasks[id := Changing(kind, 0)])
    case Touch(id, tree) =>
      s.(tree := tree, tasks := s.tasks[id := TouchedAt(s.tasks[id], next)])
    case EndChange(id) => Bump(s, id, Settled(s.tasks[id].touched, next, false))
    case GiveUp(id) => s.(tasks := s.tasks[id := Escaped(s.tasks[id].touched)])
    case Exec(id) => Bump(s, id, Spawning(next))
    case SpawnOk(id) => s.(tasks := s.tasks[id := Alive(0)])
    case SpawnFails(id) => s.(tasks := s.tasks[id := Settled(0, s.tasks[id].launched, false)])
    case Exit(id) => s.(tasks := s.tasks[id := Exited(s.tasks[id].touched)])
    case Wait(id) =>
      // A wait that returns while the process lives is one that failed; it bumps all the same.
      var t := s.tasks[id];
      Bump(s, id, if t.Exited? then Settled(t.touched, next, true) else t)
    case Drop(id) =>
      var t := s.tasks[id];
      Bump(s, id, if t.Exited? then Settled(t.touched, next, false)
                  else if t.Alive? then Orphan(t.touched) else t.(handle := false))
  }

  /** A step that cannot be taken leaves the state alone, so every action sequence is a run. */
  function Step(s: State, a: Action): State
    requires |s.past| > 0
  {
    if !Enabled(s, a) then s
    else
      var s' := Apply(s, a);
      s'.(past := s.past + [Moment(s'.tree, s'.counter, a.id)])
  }

  function Run(s: State, actions: seq<Action>): (r: State)
    requires |s.past| > 0
    ensures |r.past| > 0
  {
    if actions == [] then s
    else Step(Run(s, actions[..|actions| - 1]), actions[|actions| - 1])
  }

  // ---------------------------------------------------------------- invariant

  ghost predicate Monotone(past: seq<Moment>) {
    forall i, j :: 0 <= i <= j < |past| ==> past[i].counter <= past[j].counter
  }

  /** Every verdict of the scan was true at the instant it was taken. */
  ghost predicate ScanOk(past: seq<Moment>, universe: set<Path>, scan: Scan) {
    && scan.began < |past|
    && scan.found <= scan.seen.Keys <= universe
    && forall p :: p in scan.seen ==>
         && scan.began <= scan.seen[p] < |past|
         && (p in scan.found <==> p in past[scan.seen[p]].tree)
  }

  ghost predicate StampedScan(past: seq<Moment>, universe: set<Path>, generation: nat, scan: Scan) {
    ScanOk(past, universe, scan) && past[scan.began].counter == generation
  }

  /** A scan usable by a call made at `since`: no bump separates it from that call. */
  ghost predicate Fresh(past: seq<Moment>, since: nat, scan: Scan) {
    && since < |past| && scan.began < |past|
    && (since <= scan.began || past[since].counter == past[scan.began].counter)
  }

  ghost predicate Marks(past: seq<Moment>, at: nat) {
    0 < at < |past| && past[at - 1].counter < past[at].counter
  }

  ghost predicate TaskOk(past: seq<Moment>, universe: set<Path>, t: Task) {
    match t
    case Called(since) => since < |past|
    case Outrun(since) => since < |past|
    case Walking(since, g, scan) => StampedScan(past, universe, g, scan) && since <= scan.began
    case Publishing(since, g, scan) =>
      StampedScan(past, universe, g, scan) && since <= scan.began && scan.seen.Keys == universe
    case Returned(since, scan) =>
      ScanOk(past, universe, scan) && scan.seen.Keys == universe && Fresh(past, since, scan)
    case Spawning(launched) => Marks(past, launched)
    case Settled(touched, marked, _) => touched < marked && Marks(past, marked)
    case ScanFailed => true
    case _ => t.touched < |past|
  }

  /** The latest time this task is known to have changed the tree. */
  function LastTouch(t: Task): nat {
    if t.Changing? || t.Escaped? || t.Alive? || t.Exited? || t.Orphan? || t.Settled? then t.touched
    else 0
  }

  /** Every change of the tree is accounted for by the task that made it. */
  ghost predicate Accounted(past: seq<Moment>, tasks: map<nat, Task>) {
    forall i :: 0 < i < |past| && past[i].tree != past[i - 1].tree ==>
      past[i].actor in tasks && i <= LastTouch(tasks[past[i].actor])
  }

  ghost predicate IndexOk(s: State) {
    s.index.Some? ==>
      && StampedScan(s.past, s.universe, s.index.value.generation, s.index.value.scan)
      && s.index.value.scan.seen.Keys == s.universe
  }

  ghost predicate Inv(s: State) {
    && |s.past| > 0
    && s.past[Now(s)].tree == s.tree && s.past[Now(s)].counter == s.counter
    && (forall m :: m in s.past ==> m.tree <= s.universe)
    && Monotone(s.past)
    && IndexOk(s)
    && (forall id :: id in s.tasks ==> TaskOk(s.past, s.universe, s.tasks[id]))
    && Accounted(s.past, s.tasks)
  }

  lemma InitInv(s: State)
    requires Init(s)
    ensures Inv(s)
  {
  }

  /** Facts about a task survive the recording of one more moment. */
  lemma TaskOkExtends(past: seq<Moment>, m: Moment, universe: set<Path>, t: Task)
    requires TaskOk(past, universe, t)
    ensures TaskOk(past + [m], universe, t)
  {
  }

  /** A scan that tests one more path, now, stays truthful. */
  lemma TestedOk(s: State, scan: Scan, p: Path, m: Moment)
    requires Inv(s) && ScanOk(s.past, s.universe, scan) && p in s.universe && p !in scan.seen
    ensures ScanOk(s.past + [m], s.universe, Tested(s, scan, p))
  {
  }

  /** What the acting task becomes is again well formed: a reader. */
  lemma ReaderOk(s: State, a: Action)
    requires Inv(s) && Enabled(s, a)
    requires a.CheckIndex? || a.LoadGeneration? || a.Test? || a.FailScan? || a.Recheck? || a.Publish?
    ensures TaskOk(Step(s, a).past, s.universe, Step(s, a).tasks[a.id])
  {
    var t, t' := s.tasks[a.id], Step(s, a).tasks[a.id];
    assert TaskOk(s.past, s.universe, t);
    if a.Test? {
      TestedOk(s, t.scan, a.path, Step(s, a).past[|s.past|]);
    } else {
      assert TaskOk(s.past, s.universe, t');
      TaskOkExtends(s.past, Step(s, a).past[|s.past|], s.universe, t');
    }
  }

  /** What the acting task becomes is again well formed: everything else. */
  lemma ChangerOk(s: State, a: Action)
    requires Inv(s) && Enabled(s, a)
    requires !(a.CheckIndex? || a.LoadGeneration? || a.Test? || a.FailScan? || a.Recheck? || a.Publish?)
    ensures TaskOk(Step(s, a).past, s.universe, Step(s, a).tasks[a.id])
  {
    if a.id in s.tasks {
      TaskOkExtends(s.past, Step(s, a).past[|s.past|], s.universe, s.tasks[a.id]);
    }
  }

  lemma StepAccounts(s: State, a: Action)
    requires Inv(s) && Enabled(s, a)
    ensures Accounted(Step(s, a).past, Step(s, a).tasks)
  {
    var s' := Step(s, a);
    forall i | 0 < i < |s'.past| && s'.past[i].tree != s'.past[i - 1].tree
      ensures s'.past[i].actor in s'.tasks && i <= LastTouch(s'.tasks[s'.past[i].actor])
    {
      if i < |s.past| {
        assert s.past[i].actor in s.tasks && i <= LastTouch(s.tasks[s.past[i].actor]);
        assert TaskOk(s.past, s.universe, s.tasks[s.past[i].actor]);
      }
    }
  }

  lemma StepKeepsIndexOk(s: State, a: Action)
    requires Inv(s) && Enabled(s, a)
    ensures IndexOk(Step(s, a))
  {
    if a.Publish? {
      assert TaskOk(s.past, s.universe, s.tasks[a.id]);
    }
  }

  lemma StepKeepsTasksOk(s: State, a: Action)
    requires Inv(s) && Enabled(s, a)
    ensures forall id :: id in Step(s, a).tasks ==> TaskOk(Step(s, a).past, s.universe, Step(s, a).tasks[id])
  {
    var s' := Step(s, a);
    if a.CheckIndex? || a.LoadGeneration? || a.Test? || a.FailScan? || a.Recheck? || a.Publish? {
      ReaderOk(s, a);
    } else {
      ChangerOk(s, a);
    }
    forall id | id in s'.tasks
      ensures TaskOk(s'.past, s'.universe, s'.tasks[id])
    {
      if id != a.id {
        TaskOkExtends(s.past, s'.past[|s.past|], s.universe, s.tasks[id]);
      }
    }
  }

  lemma StepKeepsInv(s: State, a: Action)
    requires Inv(s)
    ensures Inv(Step(s, a))
  {
    if Enabled(s, a) {
      assert Step(s, a).past == s.past + [Step(s, a).past[|s.past|]];
      StepKeepsTasksOk(s, a);
      StepKeepsIndexOk(s, a);
      StepAccounts(s, a);
    }
  }

  lemma RunKeepsInv(s: State, actions: seq<Action>)
    requires Init(s)
    ensures Inv(Run(s, actions))
  {
    if actions == [] {
      InitInv(s);
    } else {
      RunKeepsInv(s, actions[..|actions| - 1]);
      StepKeepsInv(Run(s, actions[..|actions| - 1]), actions[|actions| - 1]);
    }
  }

  // ---------------------------------------------------------------- coherence

  /** Every change made after `at` has been followed by a bump of its maker's own. A live
      process, or one abandoned, is no obstacle while it has not touched the tree since. */
  ghost predicate SettledSince(s: State, at: nat) {
    forall id :: id in s.tasks && !s.tasks[id].Settled? ==> LastTouch(s.tasks[id]) <= at
  }

  /** A change made after such a time has been followed by a bump. */
  lemma ChangeIsMarked(s: State, since: nat, at: nat)
    requires Inv(s) && SettledSince(s, since)
    requires since < at <= Now(s)
    ensures s.past[at].tree != s.past[at - 1].tree ==> s.past[at].counter < s.counter
  {
    if s.past[at].tree != s.past[at - 1].tree {
      var t := s.tasks[s.past[at].actor];
      assert TaskOk(s.past, s.universe, t);
      assert s.past[at].counter <= s.past[t.marked - 1].counter;
      assert s.past[t.marked].counter <= s.past[Now(s)].counter;
    }
  }

  /** While the counter stood still and all changes since have settled, so did the tree. */
  lemma TreeFrozen(s: State, since: nat, at: nat)
    requires Inv(s) && SettledSince(s, since)
    requires since <= at <= Now(s)
    requires s.past[since].counter == s.counter
    ensures s.past[at].tree == s.tree
    decreases Now(s) - at
  {
    if at < Now(s) {
      TreeFrozen(s, since, at + 1);
      assert s.past[since].counter <= s.past[at + 1].counter;
      ChangeIsMarked(s, since, at + 1);
    }
  }

  ghost predicate Current(s: State) {
    s.index.Some? && s.index.value.generation == s.counter
  }

  /** In every run: a current index lists exactly the current tree, whatever is in flight, as
      long as all that touched the tree since its scan began has settled. */
  lemma IndexIsExact(s0: State, actions: seq<Action>)
    requires Init(s0)
    requires Current(Run(s0, actions))
    requires SettledSince(Run(s0, actions), Run(s0, actions).index.value.scan.began)
    ensures Run(s0, actions).index.value.scan.found == Run(s0, actions).tree
  {
    var s := Run(s0, actions);
    RunKeepsInv(s0, actions);
    var scan := s.index.value.scan;
    forall p
      ensures p in scan.found <==> p in s.tree
    {
      if p in scan.seen {
        TreeFrozen(s, scan.began, scan.seen[p]);
      } else {
        assert s.past[Now(s)] in s.past;
      }
    }
  }

  /** Nothing is changing the tree, and nothing changed it after its own last bump. */
  ghost predicate Quiet(s: State) {
    forall id :: id in s.tasks ==>
      var t := s.tasks[id];
      !t.Changing? && !t.Escaped? && !t.Alive? && !t.Exited? && !t.Orphan?
  }

  /** In every run: once no mutation is in flight, an index whose generation equals the
      counter lists exactly the current tree. */
  lemma IndexIsExactWhenQuiet(s0: State, actions: seq<Action>)
    requires Init(s0)
    requires Quiet(Run(s0, actions))
    ensures var s := Run(s0, actions);
            Current(s) ==> s.index.value.scan.found == s.tree
  {
    if Current(Run(s0, actions)) {
      IndexIsExact(s0, actions);
    }
  }

  /** The fast path, then: a call answered from memory lists the tree under that condition. */
  lemma FastPathIsExact(s0: State, actions: seq<Action>, id: nat)
    requires Init(s0)
    requires var s := Run(s0, actions);
             && id in s.tasks && s.tasks[id].Called?
             && (s.index.Some? ==> SettledSince(s, s.index.value.scan.began))
    ensures var s' := Step(Run(s0, actions), CheckIndex(id));
            s'.tasks[id].Returned? ==> s'.tasks[id].scan.found == s'.tree
  {
    if Current(Run(s0, actions)) {
      IndexIsExact(s0, actions);
    }
  }

  // ---------------------------------------------------------------- generations

  ghost predicate NoOlder(a: Option<Index>, b: Option<Index>) {
    a.Some? ==> b.Some? && a.value.generation <= b.value.generation
  }

  lemma StepNeverWithdraws(s: State, a: Action)
    requires Inv(s)
    ensures NoOlder(s.index, Step(s, a).index) && s.counter <= Step(s, a).counter
  {
  }

  /** Published generations never decrease and never exceed the counter; nothing that was
      published is ever withdrawn. */
  lemma GenerationsClimb(s0: State, actions: seq<Action>, n: nat)
    requires Init(s0) && n <= |actions|
    ensures var early, late := Run(s0, actions[..n]), Run(s0, actions);
            && NoOlder(early.index, late.index)
            && early.counter <= late.counter
            && (late.index.Some? ==> late.index.value.generation <= late.counter)
    decreases |actions|
  {
    RunKeepsInv(s0, actions);
    var late := Run(s0, actions);
    if late.index.Some? {
      assert late.past[late.index.value.scan.began].counter <= late.past[Now(late)].counter;
    }
    if n == |actions| {
      assert actions[..n] == actions;
    } else {
      var shorter := actions[..|actions| - 1];
      GenerationsClimb(s0, shorter, n);
      assert shorter[..n] == actions[..n];
      RunKeepsInv(s0, shorter);
      StepNeverWithdraws(Run(s0, shorter), actions[|actions| - 1]);
    }
  }

  // ---------------------------------------------------------------- read your writes

  /** A bump separates nothing that the counter does not tell apart. */
  lemma MarkPrecedes(past: seq<Moment>, marked: nat, from: nat, to: nat)
    requires Monotone(past) && Marks(past, marked)
    requires marked <= to < |past| && from < |past| && past[from].counter == past[to].counter
    ensures marked <= from
  {
    assert past[marked].counter <= past[to].counter;
  }

  /** A call made after the bump that settled a mutation is answered by a scan begun after that
      mutation's last effect, whatever else is in flight; and each verdict in the answer was
      true of the tree at some instant of that scan. */
  lemma CallAfterMarkReadsOn(s0: State, actions: seq<Action>, reader: nat, writer: nat)
    requires Init(s0)
    requires var s := Run(s0, actions);
             && reader in s.tasks && s.tasks[reader].Returned?
             && writer in s.tasks && s.tasks[writer].Settled?
             && s.tasks[writer].marked <= s.tasks[reader].since
    ensures var s := Run(s0, actions);
            var scan := s.tasks[reader].scan;
            && s.tasks[writer].touched < scan.began
            && forall p :: p in s.universe ==>
                 && p in scan.seen && scan.began <= scan.seen[p] <= Now(s)
                 && (p in scan.found <==> p in s.past[scan.seen[p]].tree)
  {
    var s := Run(s0, actions);
    RunKeepsInv(s0, actions);
    var r, w := s.tasks[reader], s.tasks[writer];
    assert TaskOk(s.past, s.universe, r) && TaskOk(s.past, s.universe, w);
    if r.since > r.scan.began {
      MarkPrecedes(s.past, w.marked, r.scan.began, r.since);
    }
  }

  /** The effect a settled writer recorded last is its true last: no later moment of any
      run was made by it. */
  lemma SettledTouchesNoMore(s0: State, actions: seq<Action>, writer: nat, at: nat)
    requires Init(s0)
    requires var s := Run(s0, actions);
             && writer in s.tasks && s.tasks[writer].Settled?
             && s.tasks[writer].touched < at <= Now(s)
    ensures var s := Run(s0, actions);
            s.past[at].actor == writer ==> s.past[at].tree == s.past[at - 1].tree
  {
    RunKeepsInv(s0, actions);
  }

  // ---------------------------------------------------------------- limits

  /** An index that passes for current and is not what the tree holds. */
  ghost predicate Wrong(s: State) {
    Current(s) && s.index.value.scan.found != s.tree
  }

  /** Settling is what exactness needs. While the index is current, one more effect of any
      change between its bumps, any live process or any that outlived its dropped handle can
      make it wrong, and neither the process's exit, before it is waited for, nor a restore's
      giving up puts that right. */
  lemma UnsettledDefeatsIndex(s0: State, actions: seq<Action>, id: nat)
    requires Init(s0) && s0.universe != {}
    requires var s := Run(s0, actions);
             && Current(s) && id in s.tasks
             && (s.tasks[id].Changing? || s.tasks[id].Alive? || s.tasks[id].Orphan?)
    ensures exists tree ::
              var t, s' := Run(s0, actions).tasks[id], Step(Run(s0, actions), Touch(id, tree));
              && s'.tree == tree && Wrong(s')
              && (t.Alive? ==> Wrong(Step(s', Exit(id))) && Step(s', Exit(id)).tasks[id].Exited?)
              && (t == Changing(Restore, t.touched) ==>
                    Wrong(Step(s', GiveUp(id))) && Step(s', GiveUp(id)).tasks[id].Escaped?)
  {
    var s := Run(s0, actions);
    RunKeepsUniverse(s0, actions);
    var tree := if s.index.value.scan.found == {} then s.universe else {};
    TouchMakesWrong(s, id, tree);
    assert Step(s, Touch(id, tree)).tree == tree;
  }

  lemma TouchMakesWrong(s: State, id: nat, tree: set<Path>)
    requires |s.past| > 0 && Current(s) && tree <= s.universe && tree != s.index.value.scan.found
    requires id in s.tasks && (s.tasks[id].Changing? || s.tasks[id].Alive? || s.tasks[id].Orphan?)
    ensures var t, s' := s.tasks[id], Step(s, Touch(id, tree));
            && s'.tree == tree && Wrong(s')
            && (t.Alive? ==> Wrong(Step(s', Exit(id))) && Step(s', Exit(id)).tasks[id].Exited?)
            && (t == Changing(Restore, t.touched) ==>
                  Wrong(Step(s', GiveUp(id))) && Step(s', GiveUp(id)).tasks[id].Escaped?)
  {
    var t, s' := s.tasks[id], Step(s, Touch(id, tree));
    assert s'.tasks[id] == TouchedAt(t, Now(s) + 1);
    if t.Alive? {
      assert Enabled(s', Exit(id));
    } else if t.Changing? && t.kind == Restore {
      assert Enabled(s', GiveUp(id));
    }
  }

  lemma RunKeepsUniverse(s: State, actions: seq<Action>)
    requires |s.past| > 0
    ensures Run(s, actions).universe == s.universe
  {
    if actions != [] {
      RunKeepsUniverse(s, actions[..|actions| - 1]);
    }
  }

  lemma RunSnoc(s: State, actions: seq<Action>, a: Action)
    requires |s.past| > 0
    ensures Run(s, actions + [a]) == Step(Run(s, actions), a)
  {
    assert (actions + [a])[..|actions + [a]| - 1] == actions;
  }

  function Start(listed: bool): State {
    State({"f"}, {}, 0, if listed then Some(Index(0, Scan(0, map["f" := 0], {}))) else None, map[],
          [Moment({}, 0, 0)])
  }

  function Scanned(s: State): State
    requires |s.past| > 0
  {
    Step(Step(Step(Step(s, LoadGeneration(1)), Test(1, "f")), Recheck(1)), Publish(1))
  }

  /** A reader that finds nothing indexed and nothing on disk publishes exactly that, from a
      scan that ran from `Now(s)` to the moment after. */
  lemma EmptyScanPublishes(s: State)
    requires |s.past| > 0 && s.universe == {"f"} && s.tree == {} && s.index == None
    requires 1 in s.tasks && s.tasks[1].Outrun?
    ensures var s' := Scanned(s);
            && Current(s') && s'.index.value.scan == Scan(Now(s), map["f" := Now(s) + 1], {})
            && s'.universe == s.universe && s'.tree == s'.past[Now(s')].tree == {}
            && |s'.past| == |s.past| + 4 && s.past <= s'.past
            && s'.tasks.Keys == s.tasks.Keys && s'.tasks[1].Returned?
            && forall id :: id in s.tasks && id != 1 ==> s'.tasks[id] == s.tasks[id]
  {
    var s1 := Step(s, LoadGeneration(1));
    var s2 := Step(s1, Test(1, "f"));
    assert s2.tasks[1].Walking? && s2.tasks[1].scan == Scan(Now(s), map["f" := Now(s) + 1], {});
    assert s2.tasks[1].scan.seen.Keys == {"f"};
    var s3 := Step(s2, Recheck(1));
    assert s3.tasks[1].Publishing?;
  }

  /** What task 0 begins, a reader's call beside it, its scan and its publication. */
  function ScanBeside(first: seq<Action>): seq<Action> {
    first + [Call(1)] + [CheckIndex(1)] + [LoadGeneration(1)] + [Test(1, "f")] + [Recheck(1)] + [Publish(1)]
  }

  lemma RunScanBeside(first: seq<Action>)
    ensures var s := Run(Start(false), first);
            Run(Start(false), ScanBeside(first)) == Scanned(Step(Step(s, Call(1)), CheckIndex(1)))
  {
    var s0 := Start(false);
    var a2 := first + [Call(1)] + [CheckIndex(1)];
    RunSnoc(s0, first, Call(1));
    RunSnoc(s0, first + [Call(1)], CheckIndex(1));
    RunSnoc(s0, a2, LoadGeneration(1));
    RunSnoc(s0, a2 + [LoadGeneration(1)], Test(1, "f"));
    RunSnoc(s0, a2 + [LoadGeneration(1)] + [Test(1, "f")], Recheck(1));
    RunSnoc(s0, a2 + [LoadGeneration(1)] + [Test(1, "f")] + [Recheck(1)], Publish(1));
  }

  lemma CallFindsNoIndex(s: State)
    requires |s.past| > 0 && s.index == None && 1 !in s.tasks
    ensures var s' := Step(Step(s, Call(1)), CheckIndex(1));
            && s' == s.(tasks := s.tasks[1 := Outrun(Now(s) + 1)], past := s'.past)
            && |s'.past| == |s.past| + 2 && s.past <= s'.past
  {
    var s1 := Step(s, Call(1));
    assert s1.tasks == s.tasks[1 := Called(Now(s) + 1)];
    var s2 := Step(s1, CheckIndex(1));
    assert s2.tasks == s.tasks[1 := Outrun(Now(s) + 1)];
  }

  lemma ScanBesidePublishes(first: seq<Action>)
    requires var s := Run(Start(false), first);
             s.universe == {"f"} && s.tree == {} && s.index == None && s.tasks.Keys == {0}
    ensures var s, s' := Run(Start(false), first), Run(Start(false), ScanBeside(first));
            && Current(s') && s'.index.value.scan == Scan(Now(s) + 2, map["f" := Now(s) + 3], {})
            && s'.universe == {"f"} && s'.tree == s'.past[Now(s')].tree == {}
            && Now(s') == Now(s) + 6 && s.past <= s'.past
            && s'.tasks.Keys == {0, 1} && s'.tasks[0] == s.tasks[0] && s'.tasks[1].Returned?
  {
    var s := Run(Start(false), first);
    RunScanBeside(first);
    CallFindsNoIndex(s);
    EmptyScanPublishes(Step(Step(s, Call(1)), CheckIndex(1)));
  }

  /** Task 0 is a write past its leading bump, at moment 1, whose only effect so far came at
      `touched`; the published scan began, and took each verdict, in between. */
  ghost predicate ScannedInsideWrite(s: State, touched: nat) {
    && s.index.Some? && 0 in s.tasks && s.tasks[0] == Changing(Write, touched)
    && 0 < touched < |s.past| && Marks(s.past, 1) && s.past[1].actor == 0
    && s.past[touched].actor == 0 && s.past[touched].tree != s.past[touched - 1].tree
    && var scan := s.index.value.scan;
       && scan.seen.Keys == s.universe && 1 <= scan.began
       && forall p :: p in scan.seen ==> scan.began <= scan.seen[p] < touched
  }

  /** The leading bump does not keep a scan that ran wholly inside a write from being
      published before the write lands: such an index is current, and wrong once it does. */
  lemma ScanInsideWriteIsPublished() returns (before: seq<Action>, landed: set<Path>)
    ensures Init(Start(false))
    ensures var early, s := Run(Start(false), before), Run(Start(false), before + [Touch(0, landed)]);
            && 0 in early.tasks && early.tasks[0] == Changing(Write, 0) && Current(early) && !Wrong(early)
            && s.index == early.index && Wrong(s) && ScannedInsideWrite(s, Now(s))
  {
    var s0 := Start(false);
    var first := [] + [BeginWrite(0)];
    RunSnoc(s0, [], BeginWrite(0));
    ScanBesidePublishes(first);
    before, landed := ScanBeside(first), {"f"};
    RunSnoc(s0, before, Touch(0, landed));
    var s1, early, s := Run(s0, first), Run(s0, before), Run(s0, before + [Touch(0, landed)]);
    assert Now(s1) == 1 && Marks(s1.past, 1) && s1.past[1].actor == 0;
    assert s1.past <= early.past && early.past <= s.past;
    assert s.past[1] == s1.past[1] && s.past[0] == s1.past[0];
  }

  /** A process that touches the tree behind a published scan and exits leaves the index
      current and wrong until it is waited for or its handle dropped. */
  lemma UnwaitedExitGoesUnseen()
    ensures Init(Start(false))
    ensures exists actions :: var s := Run(Start(false), actions);
              && Wrong(s) && 0 in s.tasks && s.tasks[0].Exited?
              && s.index.value.scan.began < s.tasks[0].touched
              && forall id :: id in s.tasks && id != 0 ==> s.tasks[id].Returned?
  {
    var s0 := Start(false);
    var first := [] + [Exec(0)] + [SpawnOk(0)];
    ProcessStarts();
    ScanBesidePublishes(first);
    var s1 := Run(s0, ScanBeside(first));
    TouchMakesWrong(s1, 0, {"f"});
    var a := ScanBeside(first) + [Touch(0, {"f"})];
    RunSnoc(s0, ScanBeside(first), Touch(0, {"f"}));
    RunSnoc(s0, a, Exit(0));
    var s := Run(s0, a + [Exit(0)]);
    assert s.tasks == s1.tasks[0 := Exited(Now(s1) + 1)];
    assert Wrong(s) && s.index == s1.index;
  }

  lemma ProcessStarts()
    ensures var s := Run(Start(false), [] + [Exec(0)] + [SpawnOk(0)]);
            && s.universe == {"f"} && s.tree == {} && s.index == None
            && s.tasks.Keys == {0} && s.tasks[0] == Alive(0)
  {
    RunSnoc(Start(false), [], Exec(0));
    RunSnoc(Start(false), [] + [Exec(0)], SpawnOk(0));
    assert Run(Start(false), []) == Start(false);
    ProcessSpawns(Start(false));
  }

  lemma ProcessSpawns(s: State)
    requires |s.past| > 0 && s.tasks == map[]
    ensures var s' := Step(Step(s, Exec(0)), SpawnOk(0));
            && s'.universe == s.universe && s'.tree == s.tree && s'.index == s.index
            && s'.tasks.Keys == {0} && s'.tasks[0] == Alive(0)
  {
    var s1 := Step(s, Exec(0));
    assert s1.tasks[0] == Spawning(Now(s) + 1);
  }

  /** A snapshot restore that fails after writing never bumps: with nothing left running,
      the index stays current and wrong. */
  lemma AbandonedRestoreGoesUnseen()
    ensures Init(Start(true))
    ensures exists actions :: var s := Run(Start(true), actions);
              && Wrong(s)
              && forall id :: id in s.tasks ==> s.tasks[id].Escaped?
  {
    var s0 := Start(true);
    var a := [BeginUnmarked(0, Restore)];
    RunSnoc(s0, [], BeginUnmarked(0, Restore));
    assert [] + a == a;
    RunSnoc(s0, a, Touch(0, {"f"}));
    RunSnoc(s0, a + [Touch(0, {"f"})], GiveUp(0));
    var s := Run(s0, a + [Touch(0, {"f"})] + [GiveUp(0)]);
    assert Current(s) && s.index.value.scan.found == {} && s.tree == {"f"};
  }
}
