/** What the graphical session answers over whole runs. */
module GuiAnswers {
  import opened Wrappers
  import opened Transcripts
  import opened Conversations
  import opened ConversationLaws
  import opened ApprovalLedgers
  import opened GuiSessions

  /** The books since the session opened or the last connection was adopted. */
  function BookOf(g0: Gui, actions: seq<Action>): Book {
    if actions == [] then NewBook
    else BookAfter(Run(g0, actions[..|actions| - 1]), BookOf(g0, actions[..|actions| - 1]), actions[|actions| - 1])
  }

  function BookAfter(g: Gui, b: Book, a: Action): Book {
    match a
    case Deliver(i) => if g.core.connected then Booked(g.core, b, i) else b
    case Decide(index, choice) =>
      if index < |g.core.approvals| then BookedDecision(b, g.core.approvals[index], choice) else b
    case Poll(Dialled(_), _) => if g.dialing then NewBook else b
    case _ => b
  }

  lemma StepBalances(g: Gui, b: Book, a: Action)
    requires GuiSessions.Inv(g) && Balanced(g.core, b) && Numbered(g.core)
    ensures Balanced(Step(g, a).core, BookAfter(g, b, a)) && Numbered(Step(g, a).core)
  {
    match a
    case Deliver(i) => DeliverBalances(g, b, i);
    case Submit(text) => CommandsKeepBalance(g.core, b, text);
    case Cancel => CommandsKeepBalance(g.core, b, "");
    case Stop => CommandsKeepBalance(g.core, b, "");
    case Decide(index, choice) => DecidingKeepsBalance(g.core, b, index, choice);
    case Poll(answer, spawned) => PollBalances(g, b, answer, spawned);
    case Press(spawned) => PressBalances(g, b, spawned);
    case Tick(_) =>
  }

  lemma DeliverBalances(g: Gui, b: Book, i: Inbound)
    requires Balanced(g.core, b) && Numbered(g.core)
    ensures Balanced(Taken(g, i).core, Booked(g.core, b, i)) && Numbered(Taken(g, i).core)
  {
    ReceiveBalances(g.core, b, i);
    ReceiveKeepsNumbered(g.core, i);
    assert Taken(g, i).core == Received(g.core, i);
  }

  lemma PressBalances(g: Gui, b: Book, spawned: bool)
    requires Balanced(g.core, b) && Numbered(g.core)
    ensures Balanced(Step(g, Press(spawned)).core, b) && Numbered(Step(g, Press(spawned)).core)
  {
    NothingSentStaysNumbered(g.core, Step(g, Press(spawned)).core);
  }

  lemma PollBalances(g: Gui, b: Book, answer: DialState, spawned: bool)
    requires GuiSessions.Inv(g) && Balanced(g.core, b) && Numbered(g.core)
    ensures var c' := PollReconnect(g, answer, spawned).core;
            Balanced(c', if g.dialing && answer.Dialled? then NewBook else b) && Numbered(c')
  {
    if g.dialing && answer.Dialled? {
      AdoptIsRelaunch(g.core, answer.session);
      LaunchBalances(if answer.session.Some? then answer.session else g.core.sessionId, g.core.wayBack);
    }
  }

  lemma DecidingKeepsBalance(c: Core, b: Book, index: nat, choice: Transcripts.Answer)
    requires Balanced(c, b) && Numbered(c)
    ensures index < |c.approvals| ==>
              var c' := ResolvedAt(c, index, choice);
              Balanced(c', BookedDecision(b, c.approvals[index], choice)) && Numbered(c')
  {
    if index < |c.approvals| {
      var p := c.approvals[index];
      DecidingBalances(c.approvals, c.sent, b, index, choice);
      NumberingGoesOn(c, ResolvedAt(c, index, choice), Resolve(p.rpcId, p.requestId, choice));
    }
  }

  /** In every run the books balance, and requests are numbered without gap. */
  lemma {:induction false} BooksBalance(sessionId: Option<string>, wayBack: bool, actions: seq<Action>)
    ensures var g0 := Opened(sessionId, wayBack);
            Balanced(Run(g0, actions).core, BookOf(g0, actions)) && Numbered(Run(g0, actions).core)
  {
    var g0 := Opened(sessionId, wayBack);
    if actions == [] {
      LaunchBalances(sessionId, wayBack);
      LaunchIsNumbered(sessionId, wayBack);
    } else {
      var before := actions[..|actions| - 1];
      BooksBalance(sessionId, wayBack, before);
      RunKeepsInv(sessionId, wayBack, before);
      StepBalances(Run(g0, before), BookOf(g0, before), actions[|actions| - 1]);
    }
  }

  /** Step n delivered this request, live. */
  predicate DeliveredRequest(g0: Gui, actions: seq<Action>, n: nat, key: Key) {
    && n < |actions| && Run(g0, actions[..n]).core.connected && Run(g0, actions[..n]).core.phase != Replaying
    && match actions[n]
       case Deliver(Requested(rpcId, ApprovalRequest(info))) => rpcId == key.rpcId && info.requestId == key.requestId
       case _ => false
  }

  /** Step n was the user's answer to the request, picked among those pending. */
  predicate GaveAnswer(g0: Gui, actions: seq<Action>, n: nat, d: Decision) {
    && n < |actions| && actions[n].Decide? && actions[n].choice == d.answer
    && var pending := Run(g0, actions[..n]).core.approvals;
       actions[n].index < |pending| && KeyOf(pending[actions[n].index]) == d.key
  }

  lemma {:induction false} AskedWasDelivered(g0: Gui, actions: seq<Action>, key: Key)
    requires key in BookOf(g0, actions).asked
    ensures exists n: nat :: DeliveredRequest(g0, actions, n, key)
  {
    var before := actions[..|actions| - 1];
    if key in BookOf(g0, before).asked {
      AskedWasDelivered(g0, before, key);
      var n: nat :| DeliveredRequest(g0, before, n, key);
      assert before[..n] == actions[..n];
      assert DeliveredRequest(g0, actions, n, key);
    } else {
      assert DeliveredRequest(g0, actions, |before|, key);
    }
  }

  lemma {:induction false} DecidedWasGiven(g0: Gui, actions: seq<Action>, k: nat)
    requires k < |BookOf(g0, actions).decided|
    ensures exists n: nat :: GaveAnswer(g0, actions, n, BookOf(g0, actions).decided[k])
  {
    var before := actions[..|actions| - 1];
    var d := BookOf(g0, actions).decided[k];
    if k < |BookOf(g0, before).decided| {
      DecidedWasGiven(g0, before, k);
      var n: nat :| GaveAnswer(g0, before, n, d);
      assert before[..n] == actions[..n];
      assert GaveAnswer(g0, actions, n, d);
    } else {
      assert GaveAnswer(g0, actions, |before|, d);
    }
  }

  /** Over every run: the k-th answer sent on a connection carries the decision the user gave on
      that very request, which had been delivered, live, under those ids. */
  lemma AnswersAreFaithful(sessionId: Option<string>, wayBack: bool, actions: seq<Action>, k: nat)
    requires k < |Resolved(Run(Opened(sessionId, wayBack), actions).core.sent)|
    ensures var g0 := Opened(sessionId, wayBack);
            var d := Resolved(Run(g0, actions).core.sent)[k];
            && (exists n: nat :: GaveAnswer(g0, actions, n, d))
            && (exists n: nat :: DeliveredRequest(g0, actions, n, d.key))
  {
    var g0 := Opened(sessionId, wayBack);
    var b := BookOf(g0, actions);
    BooksBalance(sessionId, wayBack, actions);
    AnswersWereAsked(Run(g0, actions).core, b);
    DecidedWasGiven(g0, actions, k);
    DecidedAt(b.decided, k);
    AskedWasDelivered(g0, actions, b.decided[k].key);
  }

  /** And when no request was delivered twice, none is answered twice, nor answered while it
      still pends or after it was answered elsewhere. */
  lemma NoneIsAnsweredTwice(sessionId: Option<string>, wayBack: bool, actions: seq<Action>)
    requires NoneTwice(BookOf(Opened(sessionId, wayBack), actions).asked)
    ensures var c := Run(Opened(sessionId, wayBack), actions).core;
            && NoneTwice(DecidedKeys(Resolved(c.sent)))
            && forall key :: key in DecidedKeys(Resolved(c.sent)) ==> key !in Keys(c.approvals)
  {
    BooksBalance(sessionId, wayBack, actions);
    AnswersWereAsked(Run(Opened(sessionId, wayBack), actions).core, BookOf(Opened(sessionId, wayBack), actions));
  }
}
