/**
 * Conservation of writes on the glasses link: while an attempt lives, what it took is what it sent and what it still
 * holds.
 */
module GlassesWrites {
  import opened Base
  import opened GlassesLink
  import opened GlassesTheorems

  /** Of every piece of data, the attempt took as many as it sent and still queues. */
  ghost predicate Conserved(accepted: seq<Sent>, sent: seq<Sent>, token: Token, queue: seq<Data>) {
    forall d: Data :: multiset(accepted)[Sent(token, d)] == multiset(sent)[Sent(token, d)] + multiset(queue)[d]
  }

  ghost predicate Balanced(s: Link) {
    forall k :: k in s.tokens ==> Conserved(s.accepted, s.sent, s.tokens[k], Queue(s, k))
  }

  ghost predicate WritesFit(s: System) {
    Balanced(s.link) && SentFit(s.link.accepted, s.issued)
  }

  // ----- kinds of change -----

  /** No write moves, and what tokens remain keep their queues. */
  ghost predicate WritesRest(s: Link, s': Link) {
    && s'.accepted == s.accepted && s'.sent == s.sent
    && (forall k :: k in s'.tokens ==> k in s.tokens && s'.tokens[k] == s.tokens[k] && Queue(s', k) == Queue(s, k))
  }

  lemma RestBalances(s: Link, s': Link)
    requires Balanced(s) && WritesRest(s, s')
    ensures Balanced(s')
  {
    hide Conserved;
  }

  /** One write of an attempt is taken, and sent or queued. */
  lemma TakenConserves(accepted: seq<Sent>, sent: seq<Sent>, token: Token, queue: seq<Data>, write: Sent)
    requires Conserved(accepted, sent, token, queue)
    ensures Conserved(accepted + [write], sent + [write], token, queue)
    ensures write.token == token ==> Conserved(accepted + [write], sent, token, queue + [write.data])
    ensures write.token != token ==> Conserved(accepted + [write], sent, token, queue)
  {
  }

  lemma EnqueueBalances(s: Link, data: Data, side: Side, open: bool)
    requires Balanced(s) && TokensFit(s)
    ensures Balanced(Enqueue(s, data, side, open).link)
  {
    hide Conserved, Enqueue;
    var s' := Enqueue(s, data, side, open).link;
    if s' != s {
      var id, write := EnqueueWrites(s, data, side, open);
      forall k | k in s'.tokens ensures Conserved(s'.accepted, s'.sent, s'.tokens[k], Queue(s', k)) {
        assert Conserved(s.accepted, s.sent, s.tokens[k], Queue(s, k));
        TakenConserves(s.accepted, s.sent, s.tokens[k], Queue(s, k), write);
        assert k == id || s.tokens[k] != write.token;
      }
    }
  }

  /** A write that changes anything is taken for one live token, and sent at once or put at the end of its queue. */
  lemma EnqueueWrites(s: Link, data: Data, side: Side, open: bool) returns (id: Uuid, write: Sent)
    requires TokensFit(s) && Enqueue(s, data, side, open).link != s
    ensures id in s.tokens && write == Sent(s.tokens[id], data)
    ensures forall k :: k in s.tokens && k != id ==> s.tokens[k] != s.tokens[id]
    ensures var s' := Enqueue(s, data, side, open).link;
      && s'.tokens == s.tokens && s'.accepted == s.accepted + [write]
      && (forall k :: k != id ==> Queue(s', k) == Queue(s, k))
      && ((s'.sent == s.sent + [write] && Queue(s', id) == Queue(s, id))
          || (s'.sent == s.sent && Queue(s', id) == Queue(s, id) + [data]))
  {
    id := Leg(s, side).value.id;
    write := Sent(s.tokens[id], data);
  }

  /** Sending the first write of a queue. */
  lemma FirstSent(accepted: seq<Sent>, sent: seq<Sent>, token: Token, first: Data, rest: seq<Data>)
    requires Conserved(accepted, sent, token, [first] + rest)
    ensures Conserved(accepted, sent + [Sent(token, first)], token, rest)
  {
  }

  /** Sending the front of a queue. */
  lemma {:induction false} SentConserves(accepted: seq<Sent>, sent: seq<Sent>, token: Token, queue: seq<Data>, n: nat)
    requires Conserved(accepted, sent, token, queue) && n <= |queue|
    ensures Conserved(accepted, sent + SentBy(token, queue[..n]), token, queue[n..])
    decreases n
  {
    hide Conserved;
    if n == 0 {
      assert sent + SentBy(token, queue[..0]) == sent && queue[0..] == queue;
    } else {
      SentConserves(accepted, sent, token, queue, n - 1);
      var before, first := sent + SentBy(token, queue[..n - 1]), queue[n - 1];
      assert queue[n - 1..] == [first] + queue[n..];
      FirstSent(accepted, before, token, first, queue[n..]);
      assert sent + SentBy(token, queue[..n]) == before + [Sent(token, first)];
    }
  }

  lemma OthersSent(accepted: seq<Sent>, sent: seq<Sent>, token: Token, queue: seq<Data>, other: Token, front: seq<Data>)
    requires Conserved(accepted, sent, token, queue) && other != token
    ensures Conserved(accepted, sent + SentBy(other, front), token, queue)
  {
    forall d: Data ensures multiset(SentBy(other, front))[Sent(token, d)] == 0 {
      assert Sent(token, d) !in SentBy(other, front);
    }
  }

  lemma DrainBalances(s: Link, p: Peripheral, token: Token, room: nat)
    requires Balanced(s) && TokensFit(s)
    ensures Balanced(Drain(s, p, token, room))
  {
    var s' := Drain(s, p, token, room);
    if Owns(s, p, token) && Found(s, token.side) && p.id in s.writes {
      DrainIsPrefix(s, p, token, room);
      hide Conserved, Drain;
      var queue, n := s.writes[p.id], |s'.sent| - |s.sent|;
      forall k | k in s'.tokens ensures Conserved(s'.accepted, s'.sent, s'.tokens[k], Queue(s', k)) {
        assert Conserved(s.accepted, s.sent, s.tokens[k], Queue(s, k));
        if k == p.id {
          SentConserves(s.accepted, s.sent, token, queue, n);
        } else {
          OthersSent(s.accepted, s.sent, s.tokens[k], Queue(s, k), token, queue[..n]);
        }
      }
    }
  }

  // ----- steps -----

  lemma UnexpectedRests(s: Link, p: Peripheral, token: Token, cancel: bool, linked: bool)
    ensures WritesRest(s, Unexpected(s, p, token, cancel, linked))
  {
  }

  lemma TerminalRests(s: Link, p: Peripheral)
    requires TokensFit(s)
    ensures WritesRest(s, Terminal(s, p))
  {
    hide Unexpected;
    if p.id !in s.retired && p.id in s.tokens { UnexpectedRests(s, p, s.tokens[p.id], false, false); }
  }

  lemma NewAttempt(accepted: seq<Sent>, sent: seq<Sent>, issued: set<Token>, token: Token)
    requires SentFit(accepted, issued) && SentFit(sent, issued) && token !in issued
    ensures Conserved(accepted, sent, token, [])
  {
    forall d: Data ensures multiset(accepted)[Sent(token, d)] == 0 && multiset(sent)[Sent(token, d)] == 0 {
      assert Sent(token, d) !in accepted && Sent(token, d) !in sent;
    }
  }

  lemma ScheduledBalances(s: System, leftNonce: Uuid, rightNonce: Uuid)
    requires Inv(s) && WritesFit(s) && NewNonce(s.issued, leftNonce) && NewNonce(s.issued, rightNonce)
    ensures Balanced(RunScheduled(s.link, leftNonce, rightNonce))
  {
    hide Conserved, SentFit;
    var l, l' := s.link, RunScheduled(s.link, leftNonce, rightNonce);
    ScheduledTokens(l, leftNonce, rightNonce);
    ScheduledRests(l, leftNonce, rightNonce);
    forall k | k in l'.tokens ensures Conserved(l'.accepted, l'.sent, l'.tokens[k], Queue(l', k)) {
      if l'.tokens[k] !in s.issued { NewAttempt(l.accepted, l.sent, s.issued, l'.tokens[k]); }
    }
  }

  /** The block on the main queue moves no write; only one that finds nothing queued makes tokens. */
  lemma ScheduledRests(s: Link, leftNonce: Uuid, rightNonce: Uuid)
    requires Fit(s)
    ensures var s' := RunScheduled(s, leftNonce, rightNonce);
      s'.accepted == s.accepted && s'.sent == s.sent && s'.writes == s.writes
        && (s'.tokens == s.tokens || s.writes == map[])
  {
    hide TokensFit, SideFit;
  }

  lemma SendBalances(s: Link, data: Data, side: Option<Side>, expected: Expected, leftOpen: bool, rightOpen: bool)
    requires Balanced(s) && Fit(s)
    ensures Balanced(SendData(s, data, side, expected, leftOpen, rightOpen).link)
  {
    hide Enqueue, Balanced, BelongingsFit, PendingFit, TokensFit;
    EnqueueBalances(s, data, Left, leftOpen);
    EnqueueBalances(s, data, Right, rightOpen);
    var l := Enqueue(s, data, Left, leftOpen).link;
    assert TokensFit(l) by { EnqueueSends(s, data, Left, leftOpen); }
    EnqueueBalances(l, data, Right, rightOpen);
  }

  lemma MarkReadyBalances(s: Link, p: Peripheral, token: Token, open: bool, linked: bool)
    requires Balanced(s) && TokensFit(s)
    ensures Balanced(MarkReady(s, p, token, open, linked))
  {
    hide Enqueue, Unexpected, Conserved, BothReady;
    UnexpectedRests(s, p, token, true, linked);
    RestBalances(s, Unexpected(s, p, token, true, linked));
    var ready := s.(ready := s.ready + {p.id});
    assert WritesRest(s, ready);
    RestBalances(s, ready);
    EnqueueBalances(ready, INITIALIZATION, token.side, open);
  }

  lemma CalledBalances(s: Link, call: Call, p: Peripheral, token: Token)
    requires Balanced(s) && TokensFit(s)
    ensures Balanced(Called(s, call, p, token))
  {
    hide MarkReady, Drain, Unexpected, TokensFit, Balanced;
    match call
    case ServicesFound(found, linked) => FailureBalances(s, p, token, linked);
    case CharacteristicsFound(found, linked) =>
      FailureBalances(s, p, token, linked);
      FoundBalances(s, token.side);
    case NotificationState(notifying, open, linked) =>
      FailureBalances(s, p, token, linked);
      MarkReadyBalances(s, p, token, open, linked);
    case WriteReady(room) => DrainBalances(s, p, token, room);
  }

  lemma FailureBalances(s: Link, p: Peripheral, token: Token, linked: bool)
    requires Balanced(s)
    ensures Balanced(Unexpected(s, p, token, true, linked))
  {
    hide Balanced, Unexpected;
    UnexpectedRests(s, p, token, true, linked);
    RestBalances(s, Unexpected(s, p, token, true, linked));
  }

  lemma FoundBalances(s: Link, side: Side)
    requires Balanced(s)
    ensures Balanced(SetFound(s, side, true))
  {
    hide Conserved;
    RestBalances(s, SetFound(s, side, true));
  }

  /** Only live tokens take writes. */
  lemma StepAccepts(s: System, step: Step)
    requires Inv(s) && SentFit(s.link.accepted, s.issued)
    ensures SentFit(Next(s, step).link.accepted, Next(s, step).issued)
  {
    hide Fit, Connect, Clear, RunScheduled, Terminal, SendData, Called, NewNonce, SentFit;
    AcceptsLive(s.link, step);
    AcceptedFits(s.link, s.issued, Next(s, step).link, Next(s, step).issued);
  }

  /** What was taken since was taken for a token that was live. */
  ghost predicate TakesLive(s: Link, s': Link) {
    && |s.accepted| <= |s'.accepted| && s'.accepted[..|s.accepted|] == s.accepted
    && (forall i :: |s.accepted| <= i < |s'.accepted| ==>
          s'.accepted[i].token.id in s.tokens && s.tokens[s'.accepted[i].token.id] == s'.accepted[i].token)
  }

  lemma AcceptedFits(s: Link, issued: set<Token>, s': Link, issued': set<Token>)
    requires SentFit(s.accepted, issued) && issued <= issued' && TakesLive(s, s')
    requires forall k :: k in s.tokens ==> s.tokens[k] in issued
    ensures SentFit(s'.accepted, issued')
  {
    forall i | 0 <= i < |s'.accepted| ensures s'.accepted[i].token in issued' {
      if i < |s.accepted| { assert s'.accepted[i] == s'.accepted[..|s.accepted|][i]; }
    }
  }

  lemma EnqueueTakes(s: Link, data: Data, side: Side, open: bool)
    requires TokensFit(s)
    ensures TakesLive(s, Enqueue(s, data, side, open).link) && Enqueue(s, data, side, open).link.tokens == s.tokens
  {
  }

  lemma TakesTwice(a: Link, b: Link, c: Link)
    requires TakesLive(a, b) && TakesLive(b, c) && b.tokens == a.tokens
    ensures TakesLive(a, c)
  {
    assert c.accepted[..|a.accepted|] == b.accepted[..|a.accepted|];
    forall i | |a.accepted| <= i < |c.accepted|
      ensures c.accepted[i].token.id in a.tokens && a.tokens[c.accepted[i].token.id] == c.accepted[i].token
    {
      if i < |b.accepted| { assert c.accepted[i] == c.accepted[..|b.accepted|][i]; }
    }
  }

  lemma AcceptsLive(s: Link, step: Step)
    requires Fit(s)
    ensures forall s1: System :: s1.link == s ==> TakesLive(s, Next(s1, step).link)
  {
    hide Fit, Connect, Clear, RunScheduled, Terminal, SendData, Called, NewNonce, TakesLive;
    TakesNothing(s, s);
    TokensKnown(s);
    match step
    case DoScan => TakesNothing(s, StartScan(s));
    case DoDiscover(key, p, side) => TakesNothing(s, Discover(s, key, p, side));
    case DoConnect(name, leftLinked, rightLinked) => ClearTakes(s, name, leftLinked, rightLinked);
    case DoDisconnect(leftLinked, rightLinked) => ClearTakes(s, "", leftLinked, rightLinked);
    case DoPowerOff => ClearTakes(s, "", false, false);
    case DoScheduled(leftNonce, rightNonce) =>
      ScheduledRests(s, leftNonce, rightNonce);
      TakesNothing(s, RunScheduled(s, leftNonce, rightNonce));
    case DoTerminal(p) =>
      TerminalRests(s, p);
      TakesNothing(s, Terminal(s, p));
    case DoSend(data, target, expected, leftOpen, rightOpen) =>
      SendTakes(s, data, target, expected, leftOpen, rightOpen);
    case Callback(call, p, token) => CalledTakes(s, call, p, token);
  }

  lemma TokensKnown(s: Link)
    requires Fit(s)
    ensures TokensFit(s)
  {
    hide TokensFit, BelongingsFit, PendingFit;
  }

  lemma TakesNothing(s: Link, s': Link)
    ensures s'.accepted == s.accepted ==> TakesLive(s, s')
  {
  }

  lemma ClearTakes(s: Link, name: string, leftLinked: bool, rightLinked: bool)
    ensures TakesLive(s, Connect(s, name, leftLinked, rightLinked))
      && TakesLive(s, Disconnect(s, leftLinked, rightLinked))
    ensures TakesLive(s, PoweredOff(s))
  {
  }

  lemma SendTakes(s: Link, data: Data, side: Option<Side>, expected: Expected, leftOpen: bool, rightOpen: bool)
    requires Fit(s)
    ensures TakesLive(s, SendData(s, data, side, expected, leftOpen, rightOpen).link)
  {
    hide Enqueue, Fit, TakesLive, TokensFit;
    TokensKnown(s);
    TakesNothing(s, s);
    EnqueueTakes(s, data, Left, leftOpen);
    EnqueueTakes(s, data, Right, rightOpen);
    var l := Enqueue(s, data, Left, leftOpen).link;
    EnqueueSends(s, data, Left, leftOpen);
    TokensKnown(l);
    EnqueueTakes(l, data, Right, rightOpen);
    TakesTwice(s, l, Enqueue(l, data, Right, rightOpen).link);
  }

  lemma CalledTakes(s: Link, call: Call, p: Peripheral, token: Token)
    requires Fit(s)
    ensures TakesLive(s, Called(s, call, p, token))
  {
    hide Enqueue, Unexpected, Drain, Fit, BothReady, TokensFit;
    TokensKnown(s);
    UnexpectedRests(s, p, token, true, if call.WriteReady? then false else call.linked);
    match call
    case NotificationState(notifying, open, linked) =>
      if Owns(s, p, token) {
        ReadyFits(s, p, token);
        TokensKnown(s.(ready := s.ready + {p.id}));
        EnqueueTakes(s.(ready := s.ready + {p.id}), INITIALIZATION, token.side, open);
      }
    case WriteReady(room) => DrainTakes(s, p, token, room);
    case _ =>
  }

  lemma DrainTakes(s: Link, p: Peripheral, token: Token, room: nat)
    ensures Drain(s, p, token, room).accepted == s.accepted
  {
  }

  lemma NextBalances(s: System, step: Step)
    requires Inv(s) && WritesFit(s)
    ensures WritesFit(Next(s, step))
  {
    StepAccepts(s, step);
    hide Fit, Connect, Clear, RunScheduled, Terminal, SendData, Called, NewNonce, SentFit, Balanced;
    var l := s.link;
    TokensKnown(l);
    match step
    case DoScan => RestBalances(l, StartScan(l));
    case DoDiscover(key, p, side) => RestBalances(l, Discover(l, key, p, side));
    case DoConnect(name, leftLinked, rightLinked) =>
      ClearedTokens(l, name, leftLinked, rightLinked);
      NoTokensBalance(Connect(l, name, leftLinked, rightLinked));
    case DoDisconnect(leftLinked, rightLinked) =>
      ClearedTokens(l, "", leftLinked, rightLinked);
      NoTokensBalance(Disconnect(l, leftLinked, rightLinked));
    case DoPowerOff =>
      ClearedTokens(l, "", false, false);
      NoTokensBalance(PoweredOff(l));
    case DoScheduled(leftNonce, rightNonce) =>
      if NewNonce(s.issued, leftNonce) && NewNonce(s.issued, rightNonce) {
        ScheduledBalances(s, leftNonce, rightNonce);
      }
    case DoTerminal(p) =>
      TerminalRests(l, p);
      RestBalances(l, Terminal(l, p));
    case DoSend(data, target, expected, leftOpen, rightOpen) =>
      SendBalances(l, data, target, expected, leftOpen, rightOpen);
    case Callback(call, p, token) => CalledBalances(l, call, p, token);
  }

  lemma NoTokensBalance(s: Link)
    ensures s.tokens == map[] ==> Balanced(s)
  {
  }

  lemma {:induction false} RunBalances(s: System, steps: seq<Step>)
    requires Inv(s) && WritesFit(s)
    ensures WritesFit(Run(s, steps))
    decreases |steps|
  {
    hide Inv, Next, WritesFit;
    if steps != [] {
      NextKeeps(s, steps[0]);
      NextBalances(s, steps[0]);
      RunBalances(Next(s, steps[0]), steps[1..]);
    }
  }

  /**
   * No write is lost or doubled while its attempt lives: each one taken was sent, or waits in the queue of at most 128.
   */
  lemma WritesConserved(s: System, k: Uuid, data: Data)
    requires Reachable(s) && k in s.link.tokens
    ensures var write := Sent(s.link.tokens[k], data);
      multiset(s.link.accepted)[write] == multiset(s.link.sent)[write] + multiset(Queue(s.link, k))[data]
    ensures |Queue(s.link, k)| <= 128
  {
    hide Run, Inv;
    var steps :| s == Run(System(IDLE, {}), steps);
    AuthorityCoherent(s);
    assert Inv(System(IDLE, {})) && WritesFit(System(IDLE, {})) by { IdleFits(); }
    RunBalances(System(IDLE, {}), steps);
    assert Conserved(s.link.accepted, s.link.sent, s.link.tokens[k], Queue(s.link, k));
  }

  lemma IdleFits()
    ensures Inv(System(IDLE, {})) && WritesFit(System(IDLE, {}))
  {
  }
}
