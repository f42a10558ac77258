/** What the terminal session answers over whole runs. */
module TuiAnswers {
  import opened Wrappers
  import opened Transcripts
  import opened Conversations
  import opened ConversationLaws
  import opened ApprovalLedgers
  import opened TuiSessions

  /** The books since launch or the last reconnect. */
  function BookOf(c0: Core, actions: seq<Action>): Book {
    if actions == [] then NewBook
    else BookAfter(Run(c0, actions[..|actions| - 1]), BookOf(c0, actions[..|actions| - 1]), actions[|actions| - 1])
  }

  function BookAfter(c: Core, b: Book, a: Action): Book {
    match a
    case Deliver(i) => if c.connected then Booked(c, b, i) else b
    case Answer(answer) => if c.approvals == [] then b else BookedDecision(b, c.approvals[0], answer)
    case Reconnect(outcome) => if CanReconnect(c) && outcome.Ok? then NewBook else b
    case _ => b
  }

  lemma StepBalances(c: Core, b: Book, a: Action)
    requires Coupled(c) && Balanced(c, b) && Numbered(c)
    ensures Balanced(Step(c, a), BookAfter(c, b, a)) && Numbered(Step(c, a))
  {
    match a
    case Deliver(i) =>
      if c.connected {
        ReceiveBalances(c, b, i);
        ReceiveKeepsNumbered(c, i);
      }
    case Submit(text) => CommandsKeepBalance(c, b, text);
    case Cancel => CommandsKeepBalance(c, b, "");
    case Stop => CommandsKeepBalance(c, b, "");
    case Answer(answer) => AnsweringBalances(c, b, answer);
    case Reconnect(outcome) => ReconnectBalances(c, b, outcome);
  }

  lemma ReconnectBalances(c: Core, b: Book, outcome: Result<Option<string>, string>)
    requires Coupled(c) && Balanced(c, b) && Numbered(c)
    ensures var a := Reconnect(outcome); Balanced(Step(c, a), BookAfter(c, b, a)) && Numbered(Step(c, a))
  {
    if CanReconnect(c) && outcome.Ok? {
      AdoptIsRelaunch(c, outcome.value);
      LaunchBalances(if outcome.value.Some? then outcome.value else c.sessionId, c.wayBack);
    }
  }

  lemma AnsweringBalances(c: Core, b: Book, answer: Transcripts.Answer)
    requires Balanced(c, b) && Numbered(c)
    ensures var c' := AnsweredOldest(c, answer);
            Balanced(c', if c.approvals == [] then b else BookedDecision(b, c.approvals[0], answer)) && Numbered(c')
  {
    if c.approvals != [] {
      var p := c.approvals[0];
      DecidingBalances(c.approvals, c.sent, b, 0, answer);
      assert Rest(c.approvals, 0) == c.approvals[1..];
      NumberingGoesOn(c, AnsweredOldest(c, answer), Resolve(p.rpcId, p.requestId, answer));
    }
  }

  /** In every run the books balance, and requests are numbered without gap. */
  lemma {:induction false} BooksBalance(sessionId: Option<string>, wayBack: bool, actions: seq<Action>)
    ensures var c0 := Launched(sessionId, wayBack);
            Balanced(Run(c0, actions), BookOf(c0, actions)) && Numbered(Run(c0, actions))
  {
    var c0 := Launched(sessionId, wayBack);
    if actions == [] {
      LaunchBalances(sessionId, wayBack);
      LaunchIsNumbered(sessionId, wayBack);
    } else {
      var before := actions[..|actions| - 1];
      BooksBalance(sessionId, wayBack, before);
      RunKeepsCoupled(sessionId, wayBack, before);
      StepBalances(Run(c0, before), BookOf(c0, before), actions[|actions| - 1]);
    }
  }

  /** Step n delivered this request, live. */
  predicate DeliveredRequest(c0: Core, actions: seq<Action>, n: nat, key: Key) {
    && n < |actions| && Run(c0, actions[..n]).connected && Run(c0, actions[..n]).phase != Replaying
    && match actions[n]
       case Deliver(Requested(rpcId, ApprovalRequest(info))) => rpcId == key.rpcId && info.requestId == key.requestId
       case _ => false
  }

  /** Step n was the user's answer to the request, which was the oldest one pending. */
  predicate GaveAnswer(c0: Core, actions: seq<Action>, n: nat, d: Decision) {
    && n < |actions| && actions[n] == Answer(d.answer)
    && Run(c0, actions[..n]).approvals != [] && KeyOf(Run(c0, actions[..n]).approvals[0]) == d.key
  }

  lemma {:induction false} AskedWasDelivered(c0: Core, actions: seq<Action>, key: Key)
    requires key in BookOf(c0, actions).asked
    ensures exists n: nat :: DeliveredRequest(c0, actions, n, key)
  {
    var before := actions[..|actions| - 1];
    if key in BookOf(c0, before).asked {
      AskedWasDelivered(c0, before, key);
      var n: nat :| DeliveredRequest(c0, before, n, key);
      assert before[..n] == actions[..n];
      assert DeliveredRequest(c0, actions, n, key);
    } else {
      assert DeliveredRequest(c0, actions, |before|, key);
    }
  }

  lemma {:induction false} DecidedWasGiven(c0: Core, actions: seq<Action>, k: nat)
    requires k < |BookOf(c0, actions).decided|
    ensures exists n: nat :: GaveAnswer(c0, actions, n, BookOf(c0, actions).decided[k])
  {
    var before := actions[..|actions| - 1];
    var d := BookOf(c0, actions).decided[k];
    if k < |BookOf(c0, before).decided| {
      DecidedWasGiven(c0, before, k);
      var n: nat :| GaveAnswer(c0, before, n, d);
      assert before[..n] == actions[..n];
      assert GaveAnswer(c0, actions, n, d);
    } else {
      assert GaveAnswer(c0, actions, |before|, d);
    }
  }

  /** Over every run: the k-th answer sent on a connection carries the decision the user gave on
      that very request, which had been delivered, live, under those ids. */
  lemma AnswersAreFaithful(sessionId: Option<string>, wayBack: bool, actions: seq<Action>, k: nat)
    requires k < |Resolved(Run(Launched(sessionId, wayBack), actions).sent)|
    ensures var c0 := Launched(sessionId, wayBack);
            var d := Resolved(Run(c0, actions).sent)[k];
            && (exists n: nat :: GaveAnswer(c0, actions, n, d))
            && (exists n: nat :: DeliveredRequest(c0, actions, n, d.key))
  {
    var c0 := Launched(sessionId, wayBack);
    var b := BookOf(c0, actions);
    BooksBalance(sessionId, wayBack, actions);
    AnswersWereAsked(Run(c0, actions), b);
    DecidedWasGiven(c0, actions, k);
    DecidedAt(b.decided, k);
    AskedWasDelivered(c0, actions, b.decided[k].key);
  }

  /** And when no request was delivered twice, none is answered twice, nor answered while it
      still pends or after it was answered elsewhere. */
  lemma NoneIsAnsweredTwice(sessionId: Option<string>, wayBack: bool, actions: seq<Action>)
    requires NoneTwice(BookOf(Launched(sessionId, wayBack), actions).asked)
    ensures var c := Run(Launched(sessionId, wayBack), actions);
            && NoneTwice(DecidedKeys(Resolved(c.sent)))
            && forall key :: key in DecidedKeys(Resolved(c.sent)) ==> key !in Keys(c.approvals)
  {
    BooksBalance(sessionId, wayBack, actions);
    AnswersWereAsked(Run(Launched(sessionId, wayBack), actions), BookOf(Launched(sessionId, wayBack), actions));
  }

  /** Answering sends one message, the decision under the request's own ids, takes that request
      down, and writes the same decision to one block of that request, at or before its own. */
  lemma AnswerIsSentAndShown(c: Core, answer: Transcripts.Answer)
    requires Coupled(c) && c.approvals != []
    ensures var p, c' := c.approvals[0], AnsweredOldest(c, answer);
            && c'.sent == c.sent + [Resolve(p.rpcId, p.requestId, answer)] && c'.approvals == c.approvals[1..]
            && exists k :: 0 <= k <= p.block < |c.transcript.blocks|
                 && c.transcript.blocks[k].ApprovalBlock? && c.transcript.blocks[k].info.requestId == p.requestId
                 && c'.transcript.blocks
                    == c.transcript.blocks[k := ApprovalBlock(c.transcript.blocks[k].info, Some(answer))]
  {
    var p := c.approvals[0];
    assert Anchored(c.transcript, p);
    var k := FirstApproval(c.transcript.blocks, p.requestId);
    assert k <= p.block;
  }
}
