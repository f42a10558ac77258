/** What a run of the directory index guarantees, told by the steps that were taken and the
    moments they left, not by the bookkeeping of tasks. */
module IndexRuns {
  import opened Wrappers
  import opened IndexProtocol

  /** The state before step n. */
  function At(s0: State, actions: seq<Action>, n: nat): (s: State)
    requires |s0.past| > 0 && n <= |actions|
    ensures |s.past| > 0
  {
    Run(s0, actions[..n])
  }

  /** Step n is among those that were possible, and so had its effect. */
  predicate Taken(s0: State, actions: seq<Action>, n: nat)
    requires |s0.past| > 0 && n < |actions|
  {
    Enabled(At(s0, actions, n), actions[n])
  }

  lemma AtNext(s0: State, actions: seq<Action>, n: nat)
    requires |s0.past| > 0 && n < |actions|
    ensures At(s0, actions, n + 1) == Step(At(s0, actions, n), actions[n])
  {
    assert actions[..n + 1][..n] == actions[..n];
  }

  lemma AtEnd(s0: State, actions: seq<Action>)
    requires |s0.past| > 0
    ensures At(s0, actions, |actions|) == Run(s0, actions)
  {
    assert actions[..|actions|] == actions;
  }

  lemma AtKeepsInv(s0: State, actions: seq<Action>, n: nat)
    requires Init(s0) && n <= |actions|
    ensures Inv(At(s0, actions, n))
  {
    RunKeepsInv(s0, actions[..n]);
  }

  // ---------------------------------------------------------------- bumps

  /** The steps at which the source moves the counter: both sides of a write, the end of an
      undo or a completed restore, a spawn, and every wait and drop of a handle. */
  predicate IsBump(a: Action) {
    a.BeginWrite? || a.EndChange? || a.Exec? || a.Wait? || a.Drop?
  }

  function BumpsTaken(s0: State, actions: seq<Action>, n: nat): nat
    requires |s0.past| > 0 && n <= |actions|
  {
    if n == 0 then 0
    else BumpsTaken(s0, actions, n - 1) + if Taken(s0, actions, n - 1) && IsBump(actions[n - 1]) then 1 else 0
  }

  lemma StepBumps(s: State, a: Action)
    requires |s.past| > 0
    ensures Step(s, a).counter == s.counter + if Enabled(s, a) && IsBump(a) then 1 else 0
  {
  }

  /** The counter is the number of such steps taken: each moves it by one, no other does. */
  lemma {:induction false} CounterCountsBumps(s0: State, actions: seq<Action>, n: nat)
    requires Init(s0) && n <= |actions|
    ensures At(s0, actions, n).counter == BumpsTaken(s0, actions, n)
  {
    if n == 0 {
      assert actions[..0] == [];
    } else {
      CounterCountsBumps(s0, actions, n - 1);
      AtNext(s0, actions, n - 1);
      StepBumps(At(s0, actions, n - 1), actions[n - 1]);
    }
  }

  // ---------------------------------------------------------------- ends

  predicate HasExited(s0: State, actions: seq<Action>, n: nat, w: nat)
    requires |s0.past| > 0 && n <= |actions|
  {
    exists x :: 0 <= x < n && actions[x] == Exit(w) && Taken(s0, actions, x)
  }

  /** Step n ends the mutation w: its trailing bump, or a wait or drop after the process exited. */
  predicate Ends(s0: State, actions: seq<Action>, n: nat, w: nat)
    requires |s0.past| > 0 && n < |actions|
  {
    && Taken(s0, actions, n)
    && (actions[n] == EndChange(w)
        || ((actions[n] == Wait(w) || actions[n] == Drop(w)) && HasExited(s0, actions, n, w)))
  }

  predicate SettledAs(s: State, w: nat, touched: nat, marked: nat) {
    w in s.tasks && s.tasks[w].Settled? && s.tasks[w].touched == touched && s.tasks[w].marked == marked
  }

  lemma StepKeepsSettled(s: State, a: Action, w: nat, touched: nat, marked: nat)
    requires |s.past| > 0 && SettledAs(s, w, touched, marked)
    ensures SettledAs(Step(s, a), w, touched, marked)
  {
  }

  lemma {:induction false} SettledStays(s0: State, actions: seq<Action>, n: nat, m: nat, w: nat, touched: nat, marked: nat)
    requires |s0.past| > 0 && n <= m <= |actions| && SettledAs(At(s0, actions, n), w, touched, marked)
    ensures SettledAs(At(s0, actions, m), w, touched, marked)
    decreases m - n
  {
    if n < m {
      SettledStays(s0, actions, n, m - 1, w, touched, marked);
      AtNext(s0, actions, m - 1);
      StepKeepsSettled(At(s0, actions, m - 1), actions[m - 1], w, touched, marked);
    }
  }

  predicate Over(s: State, w: nat) {
    w in s.tasks && (s.tasks[w].Exited? || s.tasks[w].Settled?)
  }

  lemma StepKeepsOver(s: State, a: Action, w: nat)
    requires |s.past| > 0 && Over(s, w)
    ensures Over(Step(s, a), w)
  {
  }

  lemma {:induction false} ExitedIsOver(s0: State, actions: seq<Action>, x: nat, n: nat, w: nat)
    requires |s0.past| > 0 && x < n <= |actions| && actions[x] == Exit(w) && Taken(s0, actions, x)
    ensures Over(At(s0, actions, n), w)
    decreases n
  {
    AtNext(s0, actions, n - 1);
    if x < n - 1 {
      ExitedIsOver(s0, actions, x, n - 1, w);
      StepKeepsOver(At(s0, actions, n - 1), actions[n - 1], w);
    }
  }

  lemma EndingSettles(s: State, a: Action, w: nat)
    requires Inv(s) && Enabled(s, a)
    requires a == EndChange(w) || ((a == Wait(w) || a == Drop(w)) && Over(s, w))
    ensures var s' := Step(s, a);
            w in s'.tasks && s'.tasks[w].Settled? && s'.tasks[w].marked <= Now(s')
  {
    assert TaskOk(s.past, s.universe, s.tasks[w]);
  }

  /** A mutation that has ended stays ended, marked no later than at that step. */
  lemma EndedIsSettled(s0: State, actions: seq<Action>, n: nat, w: nat, m: nat)
    requires Init(s0) && n < m <= |actions| && Ends(s0, actions, n, w)
    ensures var s := At(s0, actions, m);
            && w in s.tasks && s.tasks[w].Settled?
            && s.tasks[w].marked <= Now(At(s0, actions, n + 1))
  {
    AtKeepsInv(s0, actions, n);
    AtNext(s0, actions, n);
    if actions[n] != EndChange(w) {
      var x :| 0 <= x < n && actions[x] == Exit(w) && Taken(s0, actions, x);
      ExitedIsOver(s0, actions, x, n, w);
    }
    EndingSettles(At(s0, actions, n), actions[n], w);
    var t := At(s0, actions, n + 1).tasks[w];
    SettledStays(s0, actions, n + 1, m, w, t.touched, t.marked);
  }

  // ---------------------------------------------------------------- read your writes

  predicate Asked(t: Task, since: nat) {
    t.ScanFailed? || ((t.Called? || t.Outrun? || t.Walking? || t.Publishing? || t.Returned?) && t.since == since)
  }

  lemma StepKeepsAsked(s: State, a: Action, r: nat, since: nat)
    requires |s.past| > 0 && r in s.tasks && Asked(s.tasks[r], since)
    ensures r in Step(s, a).tasks && Asked(Step(s, a).tasks[r], since)
  {
  }

  /** A call remembers the moment it was made. */
  lemma {:induction false} CalledAt(s0: State, actions: seq<Action>, c: nat, r: nat, n: nat)
    requires |s0.past| > 0 && c < n <= |actions| && actions[c] == Call(r) && Taken(s0, actions, c)
    ensures var s := At(s0, actions, n);
            r in s.tasks && Asked(s.tasks[r], |At(s0, actions, c).past|)
    decreases n
  {
    AtNext(s0, actions, n - 1);
    if c < n - 1 {
      CalledAt(s0, actions, c, r, n - 1);
      StepKeepsAsked(At(s0, actions, n - 1), actions[n - 1], r, |At(s0, actions, c).past|);
    }
  }

  lemma {:induction false} TimePasses(s0: State, actions: seq<Action>, n: nat, m: nat)
    requires |s0.past| > 0 && n <= m <= |actions|
    ensures |At(s0, actions, n).past| <= |At(s0, actions, m).past|
    decreases m - n
  {
    if n < m {
      TimePasses(s0, actions, n, m - 1);
      AtNext(s0, actions, m - 1);
    }
  }

  /** Read your writes. In every run, with any other mutation still in flight: if the mutation
      w ended (its trailing bump, or a wait or drop once its process had exited) before the call
      r was made, then what r returned comes from a scan begun after every moment at which w
      changed the tree, on the fast path and on the slow one; and each verdict in it was true
      of the tree at some instant of that scan. */
  lemma ReadYourWrites(s0: State, actions: seq<Action>, e: nat, w: nat, c: nat, r: nat)
    requires Init(s0)
    requires e < c < |actions| && Ends(s0, actions, e, w)
    requires actions[c] == Call(r) && Taken(s0, actions, c)
    requires r in Run(s0, actions).tasks && Run(s0, actions).tasks[r].Returned?
    ensures var s := Run(s0, actions);
            var scan := s.tasks[r].scan;
            && (forall t :: 0 < t < |s.past| && s.past[t].actor == w && s.past[t].tree != s.past[t - 1].tree
                            ==> t < scan.began)
            && (forall p :: p in s.universe ==>
                  && p in scan.seen && scan.began <= scan.seen[p] < |s.past|
                  && (p in scan.found <==> p in s.past[scan.seen[p]].tree))
  {
    var s := Run(s0, actions);
    AtEnd(s0, actions);
    EndedIsSettled(s0, actions, e, w, |actions|);
    CalledAt(s0, actions, c, r, |actions|);
    TimePasses(s0, actions, e + 1, c);
    CallAfterMarkReadsOn(s0, actions, r, w);
    forall t | 0 < t < |s.past| && s.past[t].actor == w && s.past[t].tree != s.past[t - 1].tree
      ensures t < s.tasks[r].scan.began
    {
      if s.tasks[w].touched < t {
        SettledTouchesNoMore(s0, actions, w, t);
      }
    }
  }

  // ---------------------------------------------------------------- once all has ended

  /** Every change begun has ended, and every process spawned has exited before a wait or a
      drop of its handle. */
  ghost predicate AllEnded(s0: State, actions: seq<Action>)
    requires |s0.past| > 0
  {
    forall b, w :: 0 <= b < |actions| && Begins(s0, actions, b, w) ==>
      exists e :: 0 <= e < |actions| && Ends(s0, actions, e, w)
  }

  predicate Begins(s0: State, actions: seq<Action>, b: nat, w: nat)
    requires |s0.past| > 0 && b < |actions|
  {
    && Taken(s0, actions, b)
    && (actions[b] == BeginWrite(w) || (actions[b].BeginUnmarked? && actions[b].id == w) || actions[b] == SpawnOk(w))
  }

  predicate Unsettled(t: Task) {
    t.Changing? || t.Escaped? || t.Alive? || t.Exited? || t.Orphan?
  }

  lemma StepBegins(s: State, a: Action, w: nat)
    requires |s.past| > 0 && w in Step(s, a).tasks && Unsettled(Step(s, a).tasks[w])
    ensures (w in s.tasks && Unsettled(s.tasks[w]))
            || (Enabled(s, a) && (a == BeginWrite(w) || (a.BeginUnmarked? && a.id == w) || a == SpawnOk(w)))
  {
  }

  /** What is unsettled was begun. */
  lemma {:induction false} UnsettledWasBegun(s0: State, actions: seq<Action>, n: nat, w: nat)
    requires Init(s0) && n <= |actions|
    requires w in At(s0, actions, n).tasks && Unsettled(At(s0, actions, n).tasks[w])
    ensures exists b :: 0 <= b < n && Begins(s0, actions, b, w)
  {
    assert actions[..0] == [];
    if n > 0 {
      AtNext(s0, actions, n - 1);
      StepBegins(At(s0, actions, n - 1), actions[n - 1], w);
      if Enabled(At(s0, actions, n - 1), actions[n - 1]) && (actions[n - 1] == BeginWrite(w)
         || (actions[n - 1].BeginUnmarked? && actions[n - 1].id == w) || actions[n - 1] == SpawnOk(w)) {
        assert Begins(s0, actions, n - 1, w);
      } else {
        UnsettledWasBegun(s0, actions, n - 1, w);
      }
    }
  }

  /** Once every change has ended and every process has exited before its last wait or drop,
      an index whose generation equals the counter lists exactly the current tree. */
  lemma IndexIsExactOnceAllEnded(s0: State, actions: seq<Action>)
    requires Init(s0) && AllEnded(s0, actions)
    ensures var s := Run(s0, actions);
            s.index.Some? && s.index.value.generation == s.counter ==> s.index.value.scan.found == s.tree
  {
    var s := Run(s0, actions);
    AtEnd(s0, actions);
    forall id | id in s.tasks
      ensures !Unsettled(s.tasks[id])
    {
      if Unsettled(s.tasks[id]) {
        UnsettledWasBegun(s0, actions, |actions|, id);
        var b :| 0 <= b < |actions| && Begins(s0, actions, b, id);
        var e :| 0 <= e < |actions| && Ends(s0, actions, e, id);
        EndedIsSettled(s0, actions, e, id, |actions|);
      }
    }
    IndexIsExactWhenQuiet(s0, actions);
  }

  // ---------------------------------------------------------------- progress and publication

  /** No task is ever stuck: each that is not finished has a step of its own to take. */
  lemma EveryTaskCanGoOn(s: State, id: nat)
    requires Inv(s) && id in s.tasks
    ensures var t := s.tasks[id];
            && (t.Called? ==> Enabled(s, CheckIndex(id)))
            && (t.Outrun? ==> Enabled(s, LoadGeneration(id)))
            && (t.Walking? ==> Enabled(s, Recheck(id)) || exists p :: Enabled(s, Test(id, p)))
            && (t.Publishing? ==> Enabled(s, Publish(id)))
            && (t.Changing? ==> Enabled(s, EndChange(id)) && forall tree :: tree <= s.universe ==> Enabled(s, Touch(id, tree)))
            && (t.Spawning? ==> Enabled(s, SpawnOk(id)) && Enabled(s, SpawnFails(id)))
            && (t.Alive? ==> Enabled(s, Exit(id)) && forall tree :: tree <= s.universe ==> Enabled(s, Touch(id, tree)))
            && (t.Alive? || t.Exited? ==> Enabled(s, Wait(id)) && Enabled(s, Drop(id)))
  {
    var t := s.tasks[id];
    if t.Walking? && !Enabled(s, Recheck(id)) {
      assert TaskOk(s.past, s.universe, t);
      var p :| p in s.universe && p !in t.scan.seen;
      assert Enabled(s, Test(id, p));
    }
  }

  /** Whether the task may change the tree now. */
  predicate MayTouch(s: State, id: nat) {
    Enabled(s, Touch(id, {}))
  }

  /** A change may touch the tree from its first step to its trailing bump, a process from its
      spawn to its exit: neither a wait that fails nor the drop of its handle stops it. Nothing
      else changes the tree. */
  lemma TouchesFromStartToEnd(s: State, a: Action, w: nat)
    requires |s.past| > 0 && Enabled(s, a)
    ensures MayTouch(Step(s, a), w)
            == if a == BeginWrite(w) || (a.BeginUnmarked? && a.id == w) || a == SpawnOk(w) then true
               else if a == EndChange(w) || a == GiveUp(w) || a == Exit(w) then false
               else MayTouch(s, w)
    ensures Step(s, a).tree == if a.Touch? then a.tree else s.tree
  {
  }

  /** A handle may be waited on, and dropped, from the spawn until it is dropped. */
  lemma HandleUntilDropped(s: State, a: Action, w: nat)
    requires |s.past| > 0 && Enabled(s, a)
    ensures Enabled(s, Wait(w)) <==> Enabled(s, Drop(w))
    ensures Enabled(Step(s, a), Wait(w))
            == if a == SpawnOk(w) then true else if a == Drop(w) then false else Enabled(s, Wait(w))
  {
  }

  /** The fast path is taken exactly when the index is current, and returns it. */
  lemma FastPathExactlyWhenCurrent(s: State, id: nat)
    requires |s.past| > 0 && id in s.tasks && s.tasks[id].Called?
    ensures var t := Step(s, CheckIndex(id)).tasks[id];
            && (t.Returned? <==> s.index.Some? && s.index.value.generation == s.counter)
            && (t.Returned? ==> t.scan == s.index.value.scan)
  {
  }

  /** A finished walk that no bump raced is published, unless something newer already is (a
      scan of the same generation is replaced); one that was raced is returned and leaves the
      index alone. */
  lemma PublishedExactlyWhenUnraced(s: State, id: nat)
    requires |s.past| > 0 && id in s.tasks && s.tasks[id].Walking? && s.tasks[id].scan.seen.Keys == s.universe
    ensures var t, s1 := s.tasks[id], Step(s, Recheck(id));
            var s2 := Step(s1, Publish(id));
            && s1.index == s.index
            && (s.counter != t.generation ==> s1.tasks[id] == Returned(t.since, t.scan))
            && (s.counter == t.generation ==>
                  && s2.tasks[id] == Returned(t.since, t.scan)
                  && s2.index == if s.index.Some? && s.index.value.generation > t.generation then s.index
                                 else Some(Index(t.generation, t.scan)))
  {
    var s1 := Step(s, Recheck(id));
    if s.counter == s.tasks[id].generation {
      assert s1.tasks[id] == Publishing(s.tasks[id].since, s.tasks[id].generation, s.tasks[id].scan);
    }
  }
}
