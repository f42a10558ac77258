/** The books of the approvals on a connection: what was asked, what the user decided and what
    was taken back; and that exactly the decisions go out, each to the request it was made for. */
module ApprovalLedgers {
  import opened Wrappers
  import opened Transcripts
  import opened Conversations
  import opened ConversationLaws
  import opened TextUtil

  datatype Key = Key(rpcId: string, requestId: string)

  datatype Decision = Decision(key: Key, answer: Answer)

  /** Requests delivered outside a replay, decisions taken, requests taken back undecided. */
  datatype Book = Book(asked: seq<Key>, decided: seq<Decision>, withdrawn: seq<Key>)

  const NewBook := Book([], [], [])

  function KeyOf(p: Pending): Key {
    Key(p.rpcId, p.requestId)
  }

  function Keys(ps: seq<Pending>): seq<Key> {
    if ps == [] then [] else [KeyOf(ps[0])] + Keys(ps[1..])
  }

  function DecidedKeys(ds: seq<Decision>): seq<Key> {
    if ds == [] then [] else DecidedKeys(ds[..|ds| - 1]) + [ds[|ds| - 1].key]
  }

  /** The answers among what was sent. */
  function Resolved(sent: seq<Outgoing>): seq<Decision> {
    if sent == [] then []
    else
      var last := sent[|sent| - 1];
      Resolved(sent[..|sent| - 1])
      + if last.Resolve? then [Decision(Key(last.rpcId, last.requestId), last.answer)] else []
  }

  /** The books balance: the answers sent are the decisions taken, in order, and every request
      is pending, decided or taken back, and only one of those, once. */
  ghost predicate Balances(pending: seq<Pending>, sent: seq<Outgoing>, b: Book) {
    && Resolved(sent) == b.decided
    && multiset(b.asked) == multiset(Keys(pending)) + multiset(DecidedKeys(b.decided)) + multiset(b.withdrawn)
  }

  ghost predicate Balanced(c: Core, b: Book) {
    Balances(c.approvals, c.sent, b)
  }

  // ---------------------------------------------------------------- entries

  function Of(ps: seq<Pending>, requestId: string): seq<Pending> {
    if ps == [] then []
    else (if ps[0].requestId == requestId then [ps[0]] else []) + Of(ps[1..], requestId)
  }

  function Booked(c: Core, b: Book, i: Inbound): Book {
    match i
    case Requested(rpcId, ApprovalRequest(info)) =>
      if c.phase == Replaying then b else b.(asked := b.asked + [Key(rpcId, info.requestId)])
    case Happened(ApprovalResponse(id, _)) => b.(withdrawn := b.withdrawn + Keys(Of(c.approvals, id)))
    case AgentExited(_) =>
      if c.phase.Failed? || c.phase.Detached? then b else b.(withdrawn := b.withdrawn + Keys(c.approvals))
    case _ => b
  }

  function BookedDecision(b: Book, p: Pending, answer: Answer): Book {
    b.(decided := b.decided + [Decision(Key(p.rpcId, p.requestId), answer)])
  }

  lemma {:induction false} KeysConcat(a: seq<Pending>, b: seq<Pending>)
    ensures Keys(a + b) == Keys(a) + Keys(b)
  {
    if a == [] {
      assert a + b == b;
    } else {
      assert (a + b)[1..] == a[1..] + b;
      KeysConcat(a[1..], b);
    }
  }

  lemma KeysOfOne(p: Pending)
    ensures Keys([p]) == [KeyOf(p)]
  {
    assert [p][1..] == [];
  }

  lemma ResolvedPush(sent: seq<Outgoing>, o: Outgoing)
    ensures Resolved(sent + [o])
            == if o.Resolve? then Resolved(sent) + [Decision(Key(o.rpcId, o.requestId), o.answer)] else Resolved(sent)
  {
    assert (sent + [o])[..|sent|] == sent;
    assert Resolved(sent) + [] == Resolved(sent);
  }

  lemma DecidedPush(ds: seq<Decision>, d: Decision)
    ensures DecidedKeys(ds + [d]) == DecidedKeys(ds) + [d.key]
  {
    assert (ds + [d])[..|ds|] == ds;
  }

  lemma {:induction false} TakenDownOrKept(ps: seq<Pending>, requestId: string)
    ensures multiset(Keys(ps)) == multiset(Keys(Without(ps, requestId))) + multiset(Keys(Of(ps, requestId)))
  {
    if ps != [] {
      var rest := ps[1..];
      TakenDownOrKept(rest, requestId);
      KeysOfOne(ps[0]);
      if ps[0].requestId == requestId {
        KeysConcat([ps[0]], Of(rest, requestId));
      } else {
        KeysConcat([ps[0]], Without(rest, requestId));
        assert [] + Of(rest, requestId) == Of(rest, requestId);
      }
      assert Keys(ps) == [KeyOf(ps[0])] + Keys(rest);
    }
  }

  // ---------------------------------------------------------------- balance

  lemma AskingBalances(pending: seq<Pending>, sent: seq<Outgoing>, b: Book, p: Pending)
    requires Balances(pending, sent, b)
    ensures Balances(pending + [p], sent, b.(asked := b.asked + [KeyOf(p)]))
  {
    KeysConcat(pending, [p]);
    KeysOfOne(p);
  }

  lemma WithdrawingBalances(pending: seq<Pending>, sent: seq<Outgoing>, b: Book, requestId: string)
    requires Balances(pending, sent, b)
    ensures Balances(Without(pending, requestId), sent, b.(withdrawn := b.withdrawn + Keys(Of(pending, requestId))))
  {
    TakenDownOrKept(pending, requestId);
  }

  lemma DroppingBalances(pending: seq<Pending>, sent: seq<Outgoing>, b: Book)
    requires Balances(pending, sent, b)
    ensures Balances([], sent, b.(withdrawn := b.withdrawn + Keys(pending)))
  {
  }

  lemma OtherSendsBalance(pending: seq<Pending>, sent: seq<Outgoing>, b: Book, o: Outgoing)
    requires Balances(pending, sent, b) && !o.Resolve?
    ensures Balances(pending, sent + [o], b)
  {
    ResolvedPush(sent, o);
  }

  /** The other approvals, decided on the one at `index`. */
  function Rest(pending: seq<Pending>, index: nat): seq<Pending>
    requires index < |pending|
  {
    pending[..index] + pending[index + 1..]
  }

  lemma KeysOfRest(pending: seq<Pending>, index: nat)
    requires index < |pending|
    ensures multiset(Keys(pending)) == multiset(Keys(Rest(pending, index))) + multiset([KeyOf(pending[index])])
  {
    var l, p, r := pending[..index], pending[index], pending[index + 1..];
    assert pending == l + ([p] + r);
    KeysConcat(l, [p] + r);
    KeysConcat([p], r);
    KeysOfOne(p);
    KeysConcat(l, r);
  }

  lemma DecidingBalances(pending: seq<Pending>, sent: seq<Outgoing>, b: Book, index: nat, answer: Answer)
    requires Balances(pending, sent, b) && index < |pending|
    ensures Balances(Rest(pending, index), sent + [Resolve(pending[index].rpcId, pending[index].requestId, answer)],
                     BookedDecision(b, pending[index], answer))
  {
    var p := pending[index];
    ResolvedPush(sent, Resolve(p.rpcId, p.requestId, answer));
    DecidedPush(b.decided, Decision(Key(p.rpcId, p.requestId), answer));
    KeysOfRest(pending, index);
  }

  lemma ShownBalances(c: Core, c': Core, b: Book, p: Pending)
    requires Balanced(c, b) && c'.approvals == c.approvals + [p] && c'.sent == c.sent
    ensures Balanced(c', b.(asked := b.asked + [KeyOf(p)]))
  {
    AskingBalances(c.approvals, c.sent, b, p);
  }

  lemma RequestBalances(c: Core, b: Book, rpcId: string, message: Event)
    requires Balanced(c, b)
    ensures Balanced(RequestTaken(c, rpcId, message), Booked(c, b, Requested(rpcId, message)))
  {
    RequestMoves(c, rpcId, message);
    var c' := RequestTaken(c, rpcId, message);
    if message.ApprovalRequest? && c.phase != Replaying {
      ShownBalances(c, c', b, Pending(rpcId, message.info.requestId, |c.transcript.blocks|));
    } else {
      AtMostASendBalances(c, c', b, Refuse(rpcId));
    }
  }

  lemma AtMostASendBalances(c: Core, c': Core, b: Book, o: Outgoing)
    requires Balanced(c, b) && !o.Resolve? && c'.approvals == c.approvals
    requires c'.sent == c.sent || c'.sent == c.sent + [o]
    ensures Balanced(c', b)
  {
    OtherSendsBalance(c.approvals, c.sent, b, o);
  }

  lemma AnswerBalances(c: Core, b: Book, id: nat, result: Option<Reply>, error: Option<RpcError>)
    requires Balanced(c, b)
    ensures Balanced(ResponseTaken(c, id, result, error), b)
  {
    AnswerAwaits(c, id, result, error);
    AtMostASendBalances(c, ResponseTaken(c, id, result, error), b, Send("replay", c.nextId, ""));
  }

  lemma EventBalances(c: Core, b: Book, e: Event)
    requires Balanced(c, b)
    ensures Balanced(EventTaken(c, e), Booked(c, b, Happened(e)))
  {
    if e.ApprovalResponse? {
      WithdrawingBalances(c.approvals, c.sent, b, e.requestId);
    }
  }

  /** Every message keeps the books balanced. */
  lemma ReceiveBalances(c: Core, b: Book, i: Inbound)
    requires Balanced(c, b)
    ensures Balanced(Received(c, i), Booked(c, b, i))
  {
    match i
    case Requested(rpcId, message) => RequestBalances(c, b, rpcId, message);
    case Answered(id, result, error) => AnswerBalances(c, b, id, result, error);
    case Happened(e) => EventBalances(c, b, e);
    case AgentExited(_) => DroppingBalances(c.approvals, c.sent, b);
    case ProtocolError(_) =>
  }

  lemma CommandsBalance(c: Core, b: Book, text: string)
    requires Balanced(c, b)
    ensures Balanced(Submitted(c, text), b) && Balanced(Cancelled(c), b) && Balanced(Stopped(c), b)
  {
    CommandsSend(c, text);
    OtherSendsBalance(c.approvals, c.sent, b, Send("prompt", c.nextId, Trim(text)));
    OtherSendsBalance(c.approvals, c.sent, b, Send("steer", c.nextId, Trim(text)));
    OtherSendsBalance(c.approvals, c.sent, b, Send("cancel", c.nextId, ""));
    OtherSendsBalance(c.approvals, c.sent, b, Send("shutdown", c.nextId, ""));
    assert c.sent + [] == c.sent;
  }

  lemma CommandsKeepBalance(c: Core, b: Book, text: string)
    requires Balanced(c, b) && Numbered(c)
    ensures Balanced(Submitted(c, text), b) && Balanced(Cancelled(c), b) && Balanced(Stopped(c), b)
    ensures Numbered(Submitted(c, text)) && Numbered(Cancelled(c)) && Numbered(Stopped(c))
  {
    CommandsBalance(c, b, text);
    CommandsKeepNumbered(c, text);
  }

  lemma LaunchBalances(sessionId: Option<string>, wayBack: bool)
    ensures Balanced(Launched(sessionId, wayBack), NewBook)
  {
    ResolvedPush([], Send("initialize", 1, ""));
    assert [] + [Send("initialize", 1, "")] == [Send("initialize", 1, "")];
  }

  // ---------------------------------------------------------------- what balance means

  predicate NoneTwice(ks: seq<Key>) {
    forall i, j :: 0 <= i < j < |ks| ==> ks[i] != ks[j]
  }

  lemma {:induction false} NoneTwiceCounts(ks: seq<Key>, k: Key)
    requires NoneTwice(ks)
    ensures multiset(ks)[k] <= 1
  {
    if ks != [] {
      var init, last := ks[..|ks| - 1], ks[|ks| - 1];
      assert ks == init + [last];
      NoneTwiceCounts(init, k);
      if k == last {
        assert k !in init;
      }
    }
  }

  lemma {:induction false} CountsMakeNoneTwice(ks: seq<Key>)
    requires forall k :: multiset(ks)[k] <= 1
    ensures NoneTwice(ks)
  {
    if ks != [] {
      var init, last := ks[..|ks| - 1], ks[|ks| - 1];
      assert ks == init + [last];
      assert forall k :: multiset(init)[k] <= multiset(ks)[k];
      CountsMakeNoneTwice(init);
      assert multiset(ks)[last] == multiset(init)[last] + 1;
      assert last !in init;
    }
  }

  lemma {:induction false} DecidedAt(ds: seq<Decision>, k: nat)
    requires k < |ds|
    ensures ds[k].key in DecidedKeys(ds)
  {
    if k < |ds| - 1 {
      DecidedAt(ds[..|ds| - 1], k);
    }
  }

  /** Every answer sent was asked for; and when no request was delivered twice, none is
      answered twice, nor answered and still pending, nor answered after it was taken back. */
  lemma AnswersWereAsked(c: Core, b: Book)
    requires Balanced(c, b)
    ensures forall k :: k in DecidedKeys(Resolved(c.sent)) ==> k in b.asked
    ensures NoneTwice(b.asked) ==> NoneTwice(DecidedKeys(Resolved(c.sent)))
    ensures NoneTwice(b.asked) ==> forall k :: k in DecidedKeys(Resolved(c.sent)) ==> k !in Keys(c.approvals) && k !in b.withdrawn
  {
    var out := DecidedKeys(b.decided);
    forall k | k in out
      ensures k in b.asked
    {
      assert multiset(out)[k] > 0 && multiset(b.asked)[k] > 0;
    }
    if NoneTwice(b.asked) {
      forall k
        ensures multiset(out)[k] + multiset(Keys(c.approvals))[k] + multiset(b.withdrawn)[k] <= 1
      {
        NoneTwiceCounts(b.asked, k);
      }
      CountsMakeNoneTwice(out);
      forall k | k in out
        ensures k !in Keys(c.approvals) && k !in b.withdrawn
      {
        assert multiset(out)[k] > 0;
      }
    }
  }
}
