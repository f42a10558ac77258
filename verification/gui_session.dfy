/** The graphical frontend's session: one conversation, and a bounded ladder of automatic
    reconnects. Time is a non-decreasing count of seconds; dialling runs beside it and its
    outcome is whatever the world answers.

    `scheduledAt` and `dials` are bookkeeping: when the pending retry was scheduled, and for
    each automatic attempt since the last reset when it was scheduled and when it started. A
    session told to stop has no way back left, and what its polls count is no attempt. */
module GuiSessions {
  import opened Wrappers
  import opened Transcripts
  import opened Conversations
  import TuiSessions

  const RECONNECT_ATTEMPTS: nat := 4

  function Pow2(n: nat): (r: nat)
    ensures r >= 1
  {
    if n == 0 then 1 else 2 * Pow2(n - 1)
  }

  /** Seconds before the next attempt: doubling from one, capped at sixteen. */
  function Backoff(attempts: nat): nat {
    Pow2(if attempts < 4 then attempts else 4)
  }

  datatype Dial = Dial(scheduled: nat, started: nat)

  datatype Gui = Gui(
    core: Core,
    attempts: nat,
    retryAt: Option<nat>,
    dialing: bool,
    now: nat,
    scheduledAt: nat,
    dials: seq<Dial>)

  /** What the dialling thread has to say when it is asked. */
  datatype DialState = Dialled(session: Option<string>) | Refused(reason: string) | StillDialling | ThreadDied

  function Opened(sessionId: Option<string>, wayBack: bool): Gui {
    Gui(Launched(sessionId, wayBack), 0, None, false, 0, 0, [])
  }

  function NextAttemptAt(g: Gui): Option<nat> {
    if g.attempts < RECONNECT_ATTEMPTS then Some(g.now + Backoff(g.attempts)) else None
  }

  function Scheduled(g: Gui): Gui {
    g.(retryAt := NextAttemptAt(g), scheduledAt := g.now)
  }

  /** One inbound message, with what the end of a connection and a finished replay mean to
      the ladder. */
  function Taken(g: Gui, i: Inbound): Gui {
    var g' := g.(core := Received(g.core, i));
    if i.AgentExited? && !g.core.phase.Failed? && !g.core.phase.Detached? && g.core.wayBack then Scheduled(g')
    else if FinishesReplay(g.core, i) then g'.(attempts := 0, retryAt := None, dials := [])
    else g'
  }

  predicate FinishesReplay(c: Core, i: Inbound) {
    i.Answered? && c.initId != Some(i.id) && c.replayId == Some(i.id)
  }

  /** Start a dial, if there is a way back; the thread itself may fail to start. */
  function StartDial(g: Gui, spawned: bool): Gui {
    if !g.core.wayBack then g
    else if spawned then g.(retryAt := None, dialing := true)
    else Scheduled(g.(core := g.core.(phase := Detached("cannot start a reconnect"))))
  }

  function PollReconnect(g: Gui, answer: DialState, spawned: bool): Gui {
    if g.dialing then
      match answer
      case Dialled(session) => g.(dialing := false, core := Adopted(g.core, session))
      case Refused(reason) => Scheduled(g.(dialing := false, core := g.core.(phase := Detached(reason))))
      case StillDialling => g
      case ThreadDied => Scheduled(g.(dialing := false))
    else if !g.core.phase.Detached? || g.retryAt.None? || g.now < g.retryAt.value then g
    else
      var tried := if g.core.wayBack then g.dials + [Dial(g.scheduledAt, g.now)] else g.dials;
      StartDial(g.(attempts := g.attempts + 1, dials := tried), spawned)
  }

  /** The reconnect button: shown while detached with nothing scheduled and nothing dialling. */
  predicate ButtonShown(g: Gui) {
    g.core.phase.Detached? && g.retryAt.None? && !g.dialing
  }

  function Pressed(g: Gui, spawned: bool): Gui {
    StartDial(g.(attempts := 0, dials := []), spawned)
  }

  function ResolvedAt(c: Core, index: nat, answer: Answer): Core
    requires index < |c.approvals|
  {
    var p := c.approvals[index];
    c.(approvals := c.approvals[..index] + c.approvals[index + 1..],
       sent := c.sent + [Resolve(p.rpcId, p.requestId, answer)],
       transcript := c.transcript.(blocks := TuiSessions.Decided(c.transcript.blocks, p.block, answer)))
  }

  datatype Action =
    | Tick(seconds: nat)
    | Deliver(inbound: Inbound)
    | Poll(dial: DialState, spawned: bool)
    | Press(spawned: bool)
    | Submit(text: string)
    | Cancel
    | Stop
    | Decide(index: nat, choice: Answer)

  /** One step, of the world or of the user. */
  function Step(g: Gui, a: Action): Gui {
    match a
    case Tick(seconds) => g.(now := g.now + seconds)
    case Deliver(i) => if g.core.connected then Taken(g, i) else g
    case Poll(answer, spawned) => PollReconnect(g, answer, spawned)
    case Press(spawned) => if ButtonShown(g) then Pressed(g, spawned) else g
    case Submit(text) => g.(core := Submitted(g.core, text))
    case Cancel => g.(core := Cancelled(g.core))
    case Stop => g.(core := Stopped(g.core))
    case Decide(index, answer) =>
      if index < |g.core.approvals| then g.(core := ResolvedAt(g.core, index, answer)) else g
  }

  function Run(g: Gui, actions: seq<Action>): Gui {
    if actions == [] then g else Step(Run(g, actions[..|actions| - 1]), actions[|actions| - 1])
  }

  // ---------------------------------------------------------------- the ladder

  ghost predicate Ladder(g: Gui) {
    && |g.dials| <= RECONNECT_ATTEMPTS
    && (g.core.wayBack ==> g.attempts == |g.dials|)
    && (g.retryAt.Some? ==>
          && g.core.phase.Detached? && !g.dialing && g.scheduledAt <= g.now
          && (g.core.wayBack ==>
                g.attempts < RECONNECT_ATTEMPTS && g.retryAt.value == g.scheduledAt + Pow2(g.attempts)))
    && (g.dialing ==> g.core.phase.Detached? && g.retryAt.None?)
    && forall i :: 0 <= i < |g.dials| ==>
         && Waited(g.dials, i)
         && g.dials[i].started <= g.now
         && (g.retryAt.Some? ==> g.dials[i].started <= g.scheduledAt)
  }

  /** Attempt i (the first is 0) was scheduled when the one before it had started, and itself
      started no sooner than 2^i seconds later. */
  ghost predicate Waited(dials: seq<Dial>, i: nat)
    requires i < |dials|
  {
    && dials[i].scheduled + Pow2(i) <= dials[i].started
    && (i > 0 ==> dials[i - 1].started <= dials[i].scheduled)
  }

  /** Attempt i started no sooner than 2^i seconds after attempt i - 1. */
  ghost predicate BackedOff(dials: seq<Dial>, i: nat)
    requires 0 < i < |dials|
  {
    dials[i - 1].started + Pow2(i) <= dials[i].started
  }

  /** So a whole ladder takes fifteen seconds at the least. */
  ghost predicate Spaced(dials: seq<Dial>) {
    && |dials| <= RECONNECT_ATTEMPTS
    && (forall i :: 0 < i < |dials| ==> BackedOff(dials, i))
    && (|dials| == RECONNECT_ATTEMPTS ==> dials[0].scheduled + 15 <= dials[RECONNECT_ATTEMPTS - 1].started)
  }

  lemma LadderIsSpaced(g: Gui)
    requires Ladder(g)
    ensures Spaced(g.dials)
  {
    forall i | 0 < i < |g.dials|
      ensures BackedOff(g.dials, i)
    {
      assert Waited(g.dials, i);
    }
    if |g.dials| == RECONNECT_ATTEMPTS {
      assert Waited(g.dials, 0) && BackedOff(g.dials, 1) && BackedOff(g.dials, 2) && BackedOff(g.dials, 3);
      assert Pow2(0) == 1 && Pow2(1) == 2 && Pow2(2) == 4 && Pow2(3) == 8;
    }
  }

  ghost predicate Inv(g: Gui) {
    Coupled(g.core) && Ladder(g)
  }

  lemma ResolveKeepsCoupled(c: Core, index: nat, answer: Answer)
    requires Coupled(c) && index < |c.approvals|
    ensures Coupled(ResolvedAt(c, index, answer))
    ensures var p, blocks := c.approvals[index], ResolvedAt(c, index, answer).transcript.blocks;
            && Anchored(c.transcript, p) && p.block < |blocks|
            && blocks == c.transcript.blocks[p.block := ApprovalBlock(c.transcript.blocks[p.block].info, Some(answer))]
    ensures var p, c' := c.approvals[index], ResolvedAt(c, index, answer);
            && c'.sent == c.sent + [Resolve(p.rpcId, p.requestId, answer)]
            && c'.approvals == c.approvals[..index] + c.approvals[index + 1..]
  {
    var p := c.approvals[index];
    assert Anchored(c.transcript, p);
    TuiSessions.DecidedExtends(c.transcript.blocks, p.block, answer);
    StillAnchored(c.transcript, ResolvedAt(c, index, answer).transcript, c.approvals);
  }

  lemma TakenKeepsInv(g: Gui, i: Inbound)
    requires Inv(g) && g.core.connected
    ensures Inv(Taken(g, i))
  {
    ReceiveKeepsCoupled(g.core, i);
  }

  lemma PollKeepsInv(g: Gui, answer: DialState, spawned: bool)
    requires Inv(g)
    ensures Inv(PollReconnect(g, answer, spawned))
  {
    if g.dialing {
      if answer.Dialled? {
        AdoptKeepsCoupled(g.core, answer.session);
      }
    } else if g.retryAt.Some? && g.now >= g.retryAt.value && g.core.wayBack {
      AttemptWaited(g);
    }
  }

  lemma AttemptWaited(g: Gui)
    requires Ladder(g) && g.core.wayBack && g.retryAt.Some? && g.now >= g.retryAt.value
    ensures var dials := g.dials + [Dial(g.scheduledAt, g.now)];
            forall i :: 0 <= i < |dials| ==> Waited(dials, i) && dials[i].started <= g.now
  {
    var dials := g.dials + [Dial(g.scheduledAt, g.now)];
    forall i | 0 <= i < |dials|
      ensures Waited(dials, i) && dials[i].started <= g.now
    {
      if i < |g.dials| {
        assert Waited(g.dials, i);
      } else if i > 0 {
        assert Waited(g.dials, i - 1) && dials[i - 1] == g.dials[i - 1];
      }
    }
  }

  lemma StepKeepsInv(g: Gui, a: Action)
    requires Inv(g)
    ensures Inv(Step(g, a))
  {
    match a
    case Deliver(i) =>
      if g.core.connected {
        TakenKeepsInv(g, i);
      }
    case Poll(answer, spawned) => PollKeepsInv(g, answer, spawned);
    case Submit(text) => CommandsKeepCoupled(g.core, text);
    case Cancel => CommandsKeepCoupled(g.core, "");
    case Stop => CommandsKeepCoupled(g.core, "");
    case Decide(index, answer) =>
      if index < |g.core.approvals| {
        ResolveKeepsCoupled(g.core, index, answer);
      }
    case _ =>
  }

  /** In every run: the phase says what is awaited, every pending approval stands at its
      stored block, and since the last reset at most four automatic attempts were made, each
      no sooner than 2^i seconds (doubling from two) after the one before it. */
  lemma {:induction false} RunKeepsInv(sessionId: Option<string>, wayBack: bool, actions: seq<Action>)
    ensures Inv(Run(Opened(sessionId, wayBack), actions))
    ensures Spaced(Run(Opened(sessionId, wayBack), actions).dials)
  {
    if actions != [] {
      RunKeepsInv(sessionId, wayBack, actions[..|actions| - 1]);
      StepKeepsInv(Run(Opened(sessionId, wayBack), actions[..|actions| - 1]), actions[|actions| - 1]);
    }
    LadderIsSpaced(Run(Opened(sessionId, wayBack), actions));
  }

  /** The answer to the replay request on a live connection. */
  predicate CompletesReplay(c: Core, i: Inbound) {
    c.connected && i.Answered? && c.replayId == Some(i.id) && c.initId.None?
  }

  /** Only the button, offered while detached with nothing scheduled and nothing dialling, and
      a finished replay reset the ladder. */
  predicate Resets(g: Gui, a: Action) {
    || (a.Press? && g.core.phase.Detached? && g.retryAt == None && !g.dialing)
    || (a.Deliver? && CompletesReplay(g.core, a.inbound))
  }

  lemma OnlyResetsClearTheLadder(g: Gui, a: Action)
    requires Inv(g)
    ensures Resets(g, a) ==> Step(g, a).attempts == 0 && Step(g, a).dials == []
    ensures a.Deliver? && CompletesReplay(g.core, a.inbound) ==> Step(g, a).retryAt == None
    ensures a.Press? && Resets(g, a) && g.core.wayBack ==>
              Step(g, a).dialing == a.spawned && (Step(g, a).retryAt == if a.spawned then None else Some(g.now + 1))
    ensures !Resets(g, a) ==> g.dials <= Step(g, a).dials && g.attempts <= Step(g, a).attempts
  {
  }

  predicate NeverResets(g: Gui, actions: seq<Action>) {
    forall i :: 0 <= i < |actions| ==> !Resets(Run(g, actions[..i]), actions[i])
  }

  /** A peer that accepts and dies before replay completes cannot be dialled forever: however
      long a run goes on without a reset, the attempts it makes stay on one ladder of four. */
  lemma {:induction false} NoResetMeansAtMostFour(g: Gui, actions: seq<Action>)
    requires Inv(g) && NeverResets(g, actions)
    ensures Inv(Run(g, actions))
    ensures g.dials <= Run(g, actions).dials && Spaced(Run(g, actions).dials)
  {
    LadderIsSpaced(g);
    if actions != [] {
      var before, last := actions[..|actions| - 1], actions[|actions| - 1];
      assert forall i :: 0 <= i < |before| ==> before[..i] == actions[..i];
      NoResetMeansAtMostFour(g, before);
      StepKeepsInv(Run(g, before), last);
      OnlyResetsClearTheLadder(Run(g, before), last);
      LadderIsSpaced(Run(g, actions));
    }
  }

  /** What keeps a detached session trying: the end of a live connection that has a way back,
      and every dial that fails, schedule the next attempt 2^attempts seconds from now while
      four are not spent; and a dial that succeeds ends it. */
  lemma LadderMovesOn(g: Gui, reason: string, answer: DialState, spawned: bool)
    requires Inv(g)
    ensures var next := if g.attempts < 4 then Some(g.now + Pow2(g.attempts)) else None;
            && (g.core.connected && !g.core.phase.Failed? && g.core.wayBack ==>
                  var g' := Step(g, Deliver(AgentExited(reason)));
                  g'.core.phase == Detached(reason) && g'.retryAt == next && g'.attempts == g.attempts)
            && (g.dialing ==>
                  var g' := Step(g, Poll(answer, spawned));
                  match answer
                  case Dialled(_) => g'.core.phase == Initializing && !g'.dialing && g'.attempts == g.attempts
                  case Refused(why) => g'.core.phase == Detached(why) && !g'.dialing && g'.retryAt == next
                  case ThreadDied => g'.core.phase == g.core.phase && !g'.dialing && g'.retryAt == next
                  case StillDialling => g' == g)
  {
  }

  /** A scheduled attempt waits for its time; a due one is counted and dialled, or rescheduled
      when the thread does not start. */
  lemma DueAttemptDials(g: Gui, answer: DialState, spawned: bool)
    requires Inv(g)
    ensures (g.retryAt.Some? && g.retryAt.value <= g.now && g.core.wayBack ==>
                  var g' := Step(g, Poll(answer, spawned));
                  && g'.attempts == g.attempts + 1 && g'.dials == g.dials + [Dial(g.scheduledAt, g.now)]
                  && g'.dialing == spawned
                  && g'.core.phase == (if spawned then g.core.phase else Detached("cannot start a reconnect"))
                  && g'.retryAt == if spawned || g'.attempts == 4 then None else Some(g.now + Pow2(g'.attempts)))
            && (g.retryAt.Some? && g.now < g.retryAt.value ==> Step(g, Poll(answer, spawned)) == g)
  {
  }

  /** Once four attempts are spent only the button starts another. */
  lemma SpentLadderWaitsForButton(g: Gui, answer: DialState, spawned: bool)
    requires Inv(g) && |g.dials| == RECONNECT_ATTEMPTS && !g.dialing
    ensures !PollReconnect(g, answer, spawned).dialing && PollReconnect(g, answer, spawned).dials == g.dials
    ensures g.core.wayBack ==> PollReconnect(g, answer, spawned) == g && (g.core.phase.Detached? ==> ButtonShown(g))
  {
  }

  lemma StoppedStepNeverDials(g: Gui, a: Action)
    requires !g.core.wayBack
    ensures !Step(g, a).core.wayBack && (Step(g, a).dialing ==> g.dialing)
    ensures Step(g, a).dials == g.dials || Step(g, a).dials == []
  {
    if a.Deliver? {
      assert Received(g.core, a.inbound).wayBack == g.core.wayBack;
    }
  }

  /** A session told to stop dials no more, by itself or by the button: at most a dial already
      under way comes to its end. */
  lemma {:induction false} StoppedSessionNeverDials(g: Gui, actions: seq<Action>)
    requires !g.core.wayBack
    ensures var r := Run(g, actions);
            !r.core.wayBack && (r.dialing ==> g.dialing) && (r.dials == g.dials || r.dials == [])
  {
    if actions != [] {
      var before := actions[..|actions| - 1];
      StoppedSessionNeverDials(g, before);
      StoppedStepNeverDials(Run(g, before), actions[|actions| - 1]);
    }
  }

  /** What does run on is its count of attempts: a retry that outlives its way back is never
      cleared, so every later poll counts one more. */
  lemma StoppedSessionKeepsCounting(g: Gui, answer: DialState, spawned: bool)
    requires g.core.phase.Detached? && !g.core.wayBack && !g.dialing
    requires g.retryAt.Some? && g.retryAt.value <= g.now
    ensures PollReconnect(g, answer, spawned) == g.(attempts := g.attempts + 1)
  {
  }

  // ---------------------------------------------------------------- the object

  class Session {
    const talk: Conversation
    var attempts: nat
    var retryAt: Option<nat>
    var dialing: bool
    ghost var scheduledAt: nat
    ghost var dials: seq<Dial>

    ghost function View(now: nat): Gui
      reads this, talk, talk.transcript
    {
      Gui(talk.View(), attempts, retryAt, dialing, now, scheduledAt, dials)
    }

    constructor (sessionId: Option<string>, wayBack: bool)
      ensures View(0) == Opened(sessionId, wayBack) && Inv(View(0))
    {
      talk := new Conversation(sessionId, wayBack);
      attempts, retryAt, dialing := 0, None, false;
      scheduledAt, dials := 0, [];
    }

    method Schedule(now: nat)
      modifies this`retryAt, this`scheduledAt
      ensures View(now) == Scheduled(old(View(now)))
    {
      retryAt := if attempts < RECONNECT_ATTEMPTS then Some(now + Backoff(attempts)) else None;
      scheduledAt := now;
    }

    /** One message of the inbound queue. */
    method Receive(i: Inbound, now: nat)
      requires Inv(View(now)) && talk.connected
      modifies this, talk, talk.transcript
      ensures View(now) == Taken(old(View(now)), i) && Inv(View(now))
    {
      TakenKeepsInv(View(now), i);
      var finishes := FinishesReplay(talk.View(), i);
      var detaches := i.AgentExited? && !talk.phase.Failed? && !talk.phase.Detached? && talk.wayBack;
      talk.Receive(i);
      if detaches {
        Schedule(now);
      } else if finishes {
        attempts, retryAt, dials := 0, None, [];
      }
    }

    method Reconnect(spawned: bool, now: nat)
      modifies this, talk
      ensures View(now) == StartDial(old(View(now)), spawned)
    {
      if !talk.wayBack {
        return;
      }
      retryAt := None;
      if spawned {
        dialing := true;
      } else {
        talk.phase := Detached("cannot start a reconnect");
        Schedule(now);
      }
    }

    method PollDial(answer: DialState, spawned: bool, now: nat)
      requires Inv(View(now))
      modifies this, talk
      ensures View(now) == PollReconnect(old(View(now)), answer, spawned) && Inv(View(now))
    {
      PollKeepsInv(View(now), answer, spawned);
      if dialing {
        dialing := false;
        match answer {
          case Dialled(session) => talk.Adopt(session);
          case Refused(reason) =>
            talk.phase := Detached(reason);
            Schedule(now);
          case StillDialling => dialing := true;
          case ThreadDied => Schedule(now);
        }
        return;
      }
      if !talk.phase.Detached? || retryAt.None? || now < retryAt.value {
        return;
      }
      attempts := attempts + 1;
      if talk.wayBack {
        dials := dials + [Dial(scheduledAt, now)];
      }
      Reconnect(spawned, now);
    }

    method PressReconnect(spawned: bool, now: nat)
      requires Inv(View(now)) && ButtonShown(View(now))
      modifies this, talk
      ensures View(now) == Pressed(old(View(now)), spawned) && Inv(View(now))
    {
      StepKeepsInv(View(now), Press(spawned));
      attempts, dials := 0, [];
      Reconnect(spawned, now);
    }

    method StopAgent(now: nat)
      requires Inv(View(now))
      modifies talk`wayBack, talk`nextId, talk`sent
      ensures View(now) == Step(old(View(now)), Stop) && Inv(View(now)) && !talk.wayBack
    {
      StepKeepsInv(View(now), Stop);
      talk.StopAgent();
    }

    method ResolveApproval(index: nat, answer: Answer)
      requires Coupled(talk.View()) && index < |talk.approvals|
      modifies talk, talk.transcript
      ensures talk.View() == ResolvedAt(old(talk.View()), index, answer) && Coupled(talk.View())
      ensures var p := old(talk.approvals)[index];
              && talk.sent == old(talk.sent) + [Resolve(p.rpcId, p.requestId, answer)]
              && p.block < |talk.transcript.blocks| && talk.transcript.blocks[p.block].ApprovalBlock?
              && talk.transcript.blocks[p.block].response == Some(answer)
    {
      ResolveKeepsCoupled(talk.View(), index, answer);
      var p := talk.approvals[index];
      talk.approvals := talk.approvals[..index] + talk.approvals[index + 1..];
      talk.sent := talk.sent + [Resolve(p.rpcId, p.requestId, answer)];
      var blocks := talk.transcript.blocks;
      if p.block < |blocks| && blocks[p.block].ApprovalBlock? {
        talk.transcript.blocks := blocks[p.block := ApprovalBlock(blocks[p.block].info, Some(answer))];
      }
    }
  }
}
