/**
 * What every run of the glasses link keeps, and what it promises about stale callbacks, writes and pending connections.
 */
module GlassesTheorems {
  import opened Base
  import opened GlassesLink

  /** issued lists every token ever made. */
  datatype System = System(link: Link, issued: set<Token>)

  datatype Step =
    | DoScan
    | DoDiscover(key: string, p: Peripheral, side: Side)
    | DoConnect(name: string, leftLinked: bool, rightLinked: bool)
    | DoDisconnect(leftLinked: bool, rightLinked: bool)
    | DoPowerOff
    | DoScheduled(leftNonce: Uuid, rightNonce: Uuid)
    | DoTerminal(p: Peripheral)
    | DoSend(data: Data, target: Option<Side>, expected: Expected, leftOpen: bool, rightOpen: bool)
    | Callback(call: Call, p: Peripheral, token: Token)

  /** A callback of an attempt's delegate. */
  datatype Call =
    | ServicesFound(found: bool, linked: bool)
    | CharacteristicsFound(found: bool, linked: bool)
    | NotificationState(notifying: bool, open: bool, linked: bool)
    | WriteReady(room: nat)

  function Called(s: Link, call: Call, p: Peripheral, token: Token): Link {
    match call
    case ServicesFound(found, linked) => Services(s, p, token, found, linked)
    case CharacteristicsFound(found, linked) => Characteristics(s, p, token, found, linked)
    case NotificationState(notifying, open, linked) => Notification(s, p, token, notifying, open, linked)
    case WriteReady(room) => Drain(s, p, token, room)
  }

  /** Generated nonces are new. */
  predicate NewNonce(issued: set<Token>, nonce: Uuid) {
    forall t :: t in issued ==> t.nonce != nonce
  }

  function Next(s: System, step: Step): System {
    var l := s.link;
    match step
    case DoScan => s.(link := StartScan(l))
    case DoDiscover(key, p, side) => s.(link := Discover(l, key, p, side))
    case DoConnect(name, leftLinked, rightLinked) => s.(link := Connect(l, name, leftLinked, rightLinked))
    case DoDisconnect(leftLinked, rightLinked) => s.(link := Disconnect(l, leftLinked, rightLinked))
    case DoPowerOff => s.(link := PoweredOff(l))
    case DoScheduled(leftNonce, rightNonce) =>
      if !NewNonce(s.issued, leftNonce) || !NewNonce(s.issued, rightNonce) || leftNonce == rightNonce then s else
      var l' := RunScheduled(l, leftNonce, rightNonce);
      System(l', s.issued + l'.tokens.Values)
    case DoTerminal(p) => s.(link := Terminal(l, p))
    case DoSend(data, side, expected, leftOpen, rightOpen) =>
      s.(link := SendData(l, data, side, expected, leftOpen, rightOpen).link)
    case Callback(call, p, token) => s.(link := Called(l, call, p, token))
  }

  function Run(s: System, steps: seq<Step>): System
    decreases |steps|
  {
    if steps == [] then s else Run(Next(s, steps[0]), steps[1..])
  }

  // ----- the invariant -----

  /**
   * Every live token is of the current generation and names the selected peripheral of its side, which is not retired.
   */
  ghost predicate TokensFit(s: Link) {
    forall k :: k in s.tokens ==>
      && s.tokens[k].id == k && s.tokens[k].generation == s.generation && k !in s.retired
      && Leg(s, s.tokens[k].side).Some? && Leg(s, s.tokens[k].side).value.id == k
  }

  /** Readiness, queued writes and known characteristics belong to live tokens; no queue is over its limit. */
  ghost predicate BelongingsFit(s: Link) {
    && (forall k :: k in s.ready ==> k in s.tokens)
    && (forall k :: k in s.writes ==> k in s.tokens && |s.writes[k]| <= 128)
    && SideFit(s, Left) && SideFit(s, Right)
  }

  predicate SideFit(s: Link, side: Side) {
    Found(s, side) ==>
      Leg(s, side).Some? && Leg(s, side).value.id in s.tokens && s.tokens[Leg(s, side).value.id].side == side
  }

  /** A connection that waits is the latest, holds nothing yet, and is scheduled unless a leg of it is retired. */
  ghost predicate PendingFit(s: Link) {
    s.pending.Some? ==>
      && s.pending.value.generation == s.generation && s.tokens == map[] && s.left.None? && s.right.None?
      && s.name.None? && (s.scheduled || Blocked(s, s.pending.value))
  }

  ghost predicate SentFit(sent: seq<Sent>, issued: set<Token>) {
    forall i :: 0 <= i < |sent| ==> sent[i].token in issued
  }

  ghost predicate Fit(s: Link) {
    TokensFit(s) && BelongingsFit(s) && PendingFit(s)
  }

  ghost predicate Inv(s: System) {
    && Fit(s.link)
    && (forall k :: k in s.link.tokens ==> s.link.tokens[k] in s.issued)
    && SentFit(s.link.sent, s.issued)
  }

  // ----- each event -----

  lemma UnexpectedKeeps(s: Link, p: Peripheral, token: Token, cancel: bool, linked: bool)
    requires Fit(s)
    ensures var s' := Unexpected(s, p, token, cancel, linked);
      && Fit(s') && (forall k :: k in s'.tokens ==> k in s.tokens && s'.tokens[k] == s.tokens[k]) && s'.sent == s.sent
      && s'.generation == s.generation && s'.pending == s.pending
  {
    UnexpectedTokens(s, p, token, cancel, linked);
    hide BelongingsFit, Unexpected;
    UnexpectedParts(s, p, token, cancel, linked);
  }

  lemma UnexpectedTokens(s: Link, p: Peripheral, token: Token, cancel: bool, linked: bool)
    requires TokensFit(s) && BelongingsFit(s)
    ensures TokensFit(Unexpected(s, p, token, cancel, linked)) && BelongingsFit(Unexpected(s, p, token, cancel, linked))
  {
    if Owns(s, p, token) {
      hide Unexpected, SideFit, Owns;
      UnexpectedShape(s, p, token, cancel, linked);
      UnexpectedSide(s, p, token, cancel, linked, Left);
      UnexpectedSide(s, p, token, cancel, linked, Right);
    }
  }

  lemma UnexpectedShape(s: Link, p: Peripheral, token: Token, cancel: bool, linked: bool)
    requires Owns(s, p, token)
    ensures var s' := Unexpected(s, p, token, cancel, linked);
      && s'.tokens == s.tokens - {p.id} && s'.ready == s.ready - {p.id} && s'.writes == s.writes - {p.id}
      && s'.generation == s.generation && s'.left == s.left && s'.right == s.right
      && s'.retired <= s.retired + {p.id}
  {
  }

  lemma UnexpectedSide(s: Link, p: Peripheral, token: Token, cancel: bool, linked: bool, side: Side)
    requires BelongingsFit(s) && Owns(s, p, token)
    ensures SideFit(Unexpected(s, p, token, cancel, linked), side)
  {
    assert SideFit(s, side);
  }

  lemma UnexpectedParts(s: Link, p: Peripheral, token: Token, cancel: bool, linked: bool)
    requires PendingFit(s)
    ensures var s' := Unexpected(s, p, token, cancel, linked);
      && PendingFit(s') && (forall k :: k in s'.tokens ==> k in s.tokens && s'.tokens[k] == s.tokens[k])
      && s'.sent == s.sent
      && s'.generation == s.generation && s'.pending == s.pending
  {
  }

  lemma ClearKeeps(s: Link, cancel: bool, leftLinked: bool, rightLinked: bool)
    ensures Fit(Clear(s.(pending := None), cancel, leftLinked, rightLinked))
  {
  }

  lemma ConnectKeeps(s: Link, name: string, leftLinked: bool, rightLinked: bool)
    requires Fit(s)
    ensures Fit(Connect(s, name, leftLinked, rightLinked))
  {
  }

  lemma ScheduledKeeps(s: Link, leftNonce: Uuid, rightNonce: Uuid)
    requires Fit(s)
    ensures Fit(RunScheduled(s, leftNonce, rightNonce)) && RunScheduled(s, leftNonce, rightNonce).sent == s.sent
  {
  }

  lemma TerminalKeeps(s: Link, p: Peripheral)
    requires Fit(s)
    ensures var s' := Terminal(s, p);
      Fit(s') && (forall k :: k in s'.tokens ==> k in s.tokens && s'.tokens[k] == s.tokens[k]) && s'.sent == s.sent
  {
    hide Unexpected;
    if p.id !in s.retired && p.id in s.tokens { UnexpectedKeeps(s, p, s.tokens[p.id], false, false); }
  }

  /** What a write does: nothing, one write handed over, or one queued; always for a live token. */
  lemma EnqueueKeeps(s: Link, data: Data, side: Side, open: bool)
    requires Fit(s)
    ensures var w := Enqueue(s, data, side, open);
      && Fit(w.link) && w.link == s.(sent := w.link.sent, writes := w.link.writes, accepted := w.link.accepted)
      && (w.link.sent == s.sent || exists k :: k in s.tokens && w.link.sent == s.sent + [Sent(s.tokens[k], data)])
      && (!w.accepted ==> w.link == s)
  {
  }

  /** The tokens did not change, and what was sent since was sent by one of them. */
  ghost predicate OnlySent(s: Link, s': Link) {
    && s'.tokens == s.tokens && |s.sent| <= |s'.sent| && s'.sent[..|s.sent|] == s.sent
    && (forall i :: |s.sent| <= i < |s'.sent| ==>
      s'.sent[i].token.id in s.tokens && s.tokens[s'.sent[i].token.id] == s'.sent[i].token)
  }

  lemma EnqueueSends(s: Link, data: Data, side: Side, open: bool)
    requires Fit(s)
    ensures Fit(Enqueue(s, data, side, open).link) && OnlySent(s, Enqueue(s, data, side, open).link)
  {
    hide Enqueue;
    EnqueueKeeps(s, data, side, open);
  }

  lemma OnlySentTwice(a: Link, b: Link, c: Link)
    requires OnlySent(a, b) && OnlySent(b, c)
    ensures OnlySent(a, c)
  {
    assert c.sent[..|a.sent|] == b.sent[..|a.sent|];
    forall i | |a.sent| <= i < |c.sent|
      ensures c.sent[i].token.id in a.tokens && a.tokens[c.sent[i].token.id] == c.sent[i].token
    {
      if i < |b.sent| { assert c.sent[i] == c.sent[..|b.sent|][i]; }
    }
  }

  lemma SendKeeps(s: Link, data: Data, side: Option<Side>, expected: Expected, leftOpen: bool, rightOpen: bool)
    requires Fit(s)
    ensures var s' := SendData(s, data, side, expected, leftOpen, rightOpen).link; Fit(s') && OnlySent(s, s')
  {
    hide Enqueue, Fit, OnlySent;
    SameSent(s);
    EnqueueSends(s, data, Left, leftOpen);
    EnqueueSends(s, data, Right, rightOpen);
    var l := Enqueue(s, data, Left, leftOpen).link;
    EnqueueSends(l, data, Right, rightOpen);
    OnlySentTwice(s, l, Enqueue(l, data, Right, rightOpen).link);
  }

  lemma SameSent(s: Link)
    ensures OnlySent(s, s)
  {
  }

  lemma DrainKeeps(s: Link, p: Peripheral, token: Token, room: nat)
    requires Fit(s)
    ensures Fit(Drain(s, p, token, room)) && OnlySent(s, Drain(s, p, token, room))
  {
  }

  /** A callback keeps the link fit, makes no token, and sends only for a live one. */
  ghost predicate Tame(s: Link, s': Link) {
    && Fit(s') && (forall k :: k in s'.tokens ==> k in s.tokens && s'.tokens[k] == s.tokens[k])
    && |s.sent| <= |s'.sent| && s'.sent[..|s.sent|] == s.sent
    && (forall i :: |s.sent| <= i < |s'.sent| ==>
      s'.sent[i].token.id in s.tokens && s.tokens[s'.sent[i].token.id] == s'.sent[i].token)
  }

  lemma UnexpectedTame(s: Link, p: Peripheral, token: Token, cancel: bool, linked: bool)
    requires Fit(s)
    ensures Tame(s, s) && Tame(s, Unexpected(s, p, token, cancel, linked))
  {
    hide Fit, Unexpected;
    UnexpectedKeeps(s, p, token, cancel, linked);
  }

  lemma InitializedTame(s: Link, p: Peripheral, token: Token, open: bool)
    requires Fit(s) && Owns(s, p, token)
    ensures Tame(s, Enqueue(s.(ready := s.ready + {p.id}), INITIALIZATION, token.side, open).link)
  {
    hide Fit, Enqueue;
    ReadyFits(s, p, token);
    EnqueueSends(s.(ready := s.ready + {p.id}), INITIALIZATION, token.side, open);
  }

  lemma AnnouncedTame(s: Link, l: Link, announced: seq<nat>)
    requires Tame(s, l)
    ensures Tame(s, l.(announced := announced))
  {
  }

  lemma MarkReadyKeeps(s: Link, p: Peripheral, token: Token, open: bool, linked: bool)
    requires Fit(s)
    ensures Tame(s, MarkReady(s, p, token, open, linked))
  {
    hide Enqueue, Unexpected, Tame, Fit, BothReady;
    UnexpectedTame(s, p, token, true, linked);
    if Owns(s, p, token) {
      InitializedTame(s, p, token, open);
      var w := if p.id in s.ready then Write(s, true)
        else Enqueue(s.(ready := s.ready + {p.id}), INITIALIZATION, token.side, open);
      AnnouncedTame(s, w.link, w.link.announced + [token.generation]);
    }
  }

  lemma ReadyFits(s: Link, p: Peripheral, token: Token)
    requires Fit(s) && Owns(s, p, token)
    ensures Fit(s.(ready := s.ready + {p.id}))
  {
  }

  lemma FoundTame(s: Link, p: Peripheral, token: Token)
    requires Fit(s) && Owns(s, p, token)
    ensures Tame(s, SetFound(s, token.side, true))
  {
    FoundFits(s, p, token);
    hide Fit, Owns;
  }

  lemma FoundFits(s: Link, p: Peripheral, token: Token)
    requires Fit(s) && Owns(s, p, token)
    ensures Fit(SetFound(s, token.side, true))
  {
  }

  lemma DrainTame(s: Link, p: Peripheral, token: Token, room: nat)
    requires Fit(s)
    ensures Tame(s, Drain(s, p, token, room))
  {
    hide Drain, Fit;
    DrainKeeps(s, p, token, room);
  }

  lemma CalledKeeps(s: Link, call: Call, p: Peripheral, token: Token)
    requires Fit(s)
    ensures Tame(s, Called(s, call, p, token))
  {
    hide MarkReady, Drain, Unexpected, Tame, Fit, SetFound;
    UnexpectedTame(s, p, token, true, false);
    match call
    case ServicesFound(found, linked) => UnexpectedTame(s, p, token, true, linked);
    case CharacteristicsFound(found, linked) =>
      UnexpectedTame(s, p, token, true, linked);
      if Owns(s, p, token) { FoundTame(s, p, token); }
    case NotificationState(notifying, open, linked) =>
      UnexpectedTame(s, p, token, true, linked);
      MarkReadyKeeps(s, p, token, open, linked);
    case WriteReady(room) => DrainTame(s, p, token, room);
  }

  lemma TameKeeps(s: System, l': Link)
    requires Inv(s) && Tame(s.link, l')
    ensures Inv(s.(link := l'))
  {
    hide Fit;
    forall i | 0 <= i < |l'.sent| ensures l'.sent[i].token in s.issued {
      if i < |s.link.sent| { assert l'.sent[i] == l'.sent[..|s.link.sent|][i]; }
    }
  }

  lemma NextKeeps(s: System, step: Step)
    requires Inv(s)
    ensures Inv(Next(s, step))
  {
    hide Fit, Connect, Clear, RunScheduled, Terminal, SendData, Called, NewNonce;
    var l := s.link;
    match step
    case DoScan => ScanKeeps(l);
    case DoDiscover(key, p, side) => DiscoverKeeps(l, key, p, side);
    case DoConnect(name, leftLinked, rightLinked) =>
      ConnectKeeps(l, name, leftLinked, rightLinked);
      ClearedTokens(l, name, leftLinked, rightLinked);
    case DoDisconnect(leftLinked, rightLinked) =>
      ClearKeeps(l, true, leftLinked, rightLinked);
      ClearedTokens(l, "", leftLinked, rightLinked);
    case DoPowerOff =>
      ClearKeeps(l, false, false, false);
      ClearedTokens(l, "", false, false);
    case DoScheduled(leftNonce, rightNonce) =>
      ScheduledKeeps(l, leftNonce, rightNonce);
      assert forall k :: k in RunScheduled(l, leftNonce, rightNonce).tokens ==>
        RunScheduled(l, leftNonce, rightNonce).tokens[k] in RunScheduled(l, leftNonce, rightNonce).tokens.Values;
    case DoTerminal(p) => TerminalKeeps(l, p);
    case DoSend(data, side, expected, leftOpen, rightOpen) =>
      SendKeeps(l, data, side, expected, leftOpen, rightOpen);
      TameKeeps(s, SendData(l, data, side, expected, leftOpen, rightOpen).link);
    case Callback(call, p, token) =>
      CalledKeeps(l, call, p, token);
      TameKeeps(s, Called(l, call, p, token));
  }

  lemma ScanKeeps(s: Link)
    requires Fit(s)
    ensures Fit(StartScan(s))
  {
  }

  lemma DiscoverKeeps(s: Link, key: string, p: Peripheral, side: Side)
    requires Fit(s)
    ensures Fit(Discover(s, key, p, side))
  {
  }

  lemma ClearedTokens(s: Link, name: string, leftLinked: bool, rightLinked: bool)
    ensures var s' := Connect(s, name, leftLinked, rightLinked); s' == s || (s'.tokens == map[] && s'.sent == s.sent)
    ensures var s' := Disconnect(s, leftLinked, rightLinked); s'.tokens == map[] && s'.sent == s.sent
    ensures PoweredOff(s).tokens == map[] && PoweredOff(s).sent == s.sent
  {
  }

  lemma {:induction false} RunKeeps(s: System, steps: seq<Step>)
    requires Inv(s)
    ensures Inv(Run(s, steps))
    decreases |steps|
  {
    hide Inv, Next;
    if steps != [] {
      NextKeeps(s, steps[0]);
      RunKeeps(Next(s, steps[0]), steps[1..]);
    }
  }

  ghost predicate Reachable(s: System) {
    exists steps :: s == Run(System(IDLE, {}), steps)
  }

  lemma ReachableFits(s: System)
    requires Reachable(s)
    ensures Inv(s)
  {
    hide Run;
    var steps :| s == Run(System(IDLE, {}), steps);
    RunKeeps(System(IDLE, {}), steps);
  }

  // ----- theorems -----

  /** Authority is coherent in every reachable state. */
  lemma AuthorityCoherent(s: System)
    requires Reachable(s)
    ensures TokensFit(s.link) && BelongingsFit(s.link)
    ensures forall k :: k in s.link.retired ==> k !in s.link.tokens && k !in s.link.ready && k !in s.link.writes
  {
    hide Reachable;
    ReachableFits(s);
  }

  /** A callback with a token that is not current changes nothing at all. */
  lemma StaleCallback(s: Link, call: Call, p: Peripheral, token: Token)
    requires !Owns(s, p, token)
    ensures Called(s, call, p, token) == s
  {
  }

  /** A step never brings a token back that it does not make. */
  lemma RetiredStep(s: System, step: Step, token: Token)
    requires Inv(s) && token in s.issued && !(token.id in s.link.tokens && s.link.tokens[token.id] == token)
    ensures var s' := Next(s, step);
      token in s'.issued && !(token.id in s'.link.tokens && s'.link.tokens[token.id] == token)
  {
    hide Fit, Connect, Clear, Terminal, SendData, Called, RunScheduled;
    var l := s.link;
    match step
    case DoConnect(name, leftLinked, rightLinked) => ClearedTokens(l, name, leftLinked, rightLinked);
    case DoDisconnect(leftLinked, rightLinked) => ClearedTokens(l, "", leftLinked, rightLinked);
    case DoPowerOff => ClearedTokens(l, "", false, false);
    case DoScheduled(leftNonce, rightNonce) => ScheduledTokens(l, leftNonce, rightNonce);
    case DoTerminal(p) => TerminalKeeps(l, p);
    case DoSend(data, side, expected, leftOpen, rightOpen) => SendKeeps(l, data, side, expected, leftOpen, rightOpen);
    case Callback(call, p, t) => CalledKeeps(l, call, p, t);
    case _ =>
  }

  lemma ScheduledTokens(s: Link, leftNonce: Uuid, rightNonce: Uuid)
    ensures var s' := RunScheduled(s, leftNonce, rightNonce);
      forall k :: k in s'.tokens ==>
        (k in s.tokens && s'.tokens[k] == s.tokens[k]) || s'.tokens[k].nonce in {leftNonce, rightNonce}
  {
  }

  lemma {:induction false} RetiredRun(s: System, steps: seq<Step>, call: Call, p: Peripheral, token: Token)
    requires Inv(s) && token in s.issued && !(token.id in s.link.tokens && s.link.tokens[token.id] == token)
    ensures var s' := Run(s, steps); !Owns(s'.link, p, token) && Called(s'.link, call, p, token) == s'.link
    decreases |steps|
  {
    hide Inv, Next, Called;
    if steps == [] {
      StaleCallback(s.link, call, p, token);
    } else {
      NextKeeps(s, steps[0]);
      RetiredStep(s, steps[0], token);
      RetiredRun(Next(s, steps[0]), steps[1..], call, p, token);
    }
  }

  /** Once an attempt has lost its peripheral, no callback it still has coming ever changes anything. */
  lemma RetiredForever(s: System, steps: seq<Step>, call: Call, p: Peripheral, token: Token)
    requires Reachable(s) && token in s.issued && !(token.id in s.link.tokens && s.link.tokens[token.id] == token)
    ensures var s' := Run(s, steps); !Owns(s'.link, p, token) && Called(s'.link, call, p, token) == s'.link
  {
    hide Reachable, Inv, Run, Called;
    ReachableFits(s);
    RetiredRun(s, steps, call, p, token);
  }

  /**
   * No wake-up is lost: a waiting connection has its activation scheduled, or a retired leg whose end will schedule it.
   */
  lemma NoLostWakeUp(s: System)
    requires Reachable(s) && s.link.pending.Some?
    ensures s.link.scheduled || Blocked(s.link, s.link.pending.value)
    ensures forall p: Peripheral :: p.id in s.link.retired ==>
      Terminal(s.link, p).scheduled && Terminal(s.link, p).pending == s.link.pending
  {
    hide Reachable;
    ReachableFits(s);
  }

  /** Nothing but a new choice of the user's, or the radio, takes a waiting connection back. */
  predicate Undisturbed(step: Step) {
    !step.DoConnect? && !step.DoDisconnect? && !step.DoPowerOff?
  }

  predicate Awaits(s: Link, c: Pending) {
    && s.pending == Some(c) && s.generation == c.generation && s.tokens == map[] && s.left.None? && s.right.None?
    && s.name.None?
  }

  predicate Chosen(s: Link, c: Pending) {
    && s.pending.None? && s.generation == c.generation
    && s.left == Some(c.left) && s.right == Some(c.right) && s.name == Some(c.name)
  }

  /** Both legs are owned; one peripheral for both sides is the right one's. */
  predicate Owned(s: Link, c: Pending) {
    && c.right.id in s.tokens && Owns(s, c.right, s.tokens[c.right.id])
    && (c.left.id != c.right.id ==> c.left.id in s.tokens && Owns(s, c.left, s.tokens[c.left.id]))
  }

  lemma ScheduledChooses(s: Link, c: Pending, leftNonce: Uuid, rightNonce: Uuid)
    requires Fit(s) && Awaits(s, c)
    ensures var s' := RunScheduled(s, leftNonce, rightNonce);
      if Blocked(s, c) then Awaits(s', c) else s.scheduled && Chosen(s', c) && Owned(s', c)
    ensures Awaits(RunScheduled(s, leftNonce, rightNonce), c) || Chosen(RunScheduled(s, leftNonce, rightNonce), c)
  {
    hide TokensFit, BelongingsFit;
  }

  lemma ChosenStays(s: Link, c: Pending, step: Step)
    requires Fit(s) && Chosen(s, c) && Undisturbed(step)
    ensures forall s1: System :: s1.link == s ==> Chosen(Next(s1, step).link, c)
  {
    hide Fit, Enqueue, Drain, NewNonce, Unexpected;
    match step
    case DoTerminal(p) => UnexpectedChosen(s, p);
    case DoSend(data, target, expected, leftOpen, rightOpen) =>
      EnqueueSame(s, data, Left, leftOpen);
      EnqueueSame(Enqueue(s, data, Left, leftOpen).link, data, Right, rightOpen);
      EnqueueSame(s, data, Right, rightOpen);
    case Callback(call, p, token) =>
      CalledSame(s, call, p, token);
      hide Called;
    case _ =>
  }

  lemma CalledSame(s: Link, call: Call, p: Peripheral, token: Token)
    ensures SameChoice(s, Called(s, call, p, token))
  {
    hide Enqueue, Drain, Unexpected;
    UnexpectedChosen(s, p);
    if call.WriteReady? { DrainSame(s, p, token, call.room); }
    EnqueueSame(s.(ready := s.ready + {p.id}), INITIALIZATION, token.side, call.NotificationState? && call.open);
  }

  /** The connection itself, apart from what belongs to its attempts. */
  predicate SameChoice(s: Link, s': Link) {
    && s'.pending == s.pending && s'.generation == s.generation && s'.left == s.left && s'.right == s.right
    && s'.name == s.name && s'.tokens.Keys <= s.tokens.Keys
  }

  lemma EnqueueSame(s: Link, data: Data, side: Side, open: bool)
    ensures SameChoice(s, Enqueue(s, data, side, open).link)
  {
  }

  lemma DrainSame(s: Link, p: Peripheral, token: Token, room: nat)
    ensures SameChoice(s, Drain(s, p, token, room))
  {
  }

  lemma UnexpectedChosen(s: Link, p: Peripheral)
    ensures forall token, cancel, linked :: SameChoice(s, Unexpected(s, p, token, cancel, linked))
  {
  }

  lemma AwaitsStays(s: Link, c: Pending, step: Step)
    requires Fit(s) && Awaits(s, c) && Undisturbed(step)
    ensures forall s1: System :: s1.link == s ==> Awaits(Next(s1, step).link, c) || Chosen(Next(s1, step).link, c)
  {
    hide Fit, Enqueue, NewNonce, RunScheduled;
    match step
    case DoScheduled(leftNonce, rightNonce) => ScheduledChooses(s, c, leftNonce, rightNonce);
    case DoTerminal(p) => EndsOne(s, p);
    case _ =>
  }

  /** A waiting connection goes on waiting until it is chosen, and stays chosen. */
  lemma {:induction false} WaitsOrChosen(s: System, c: Pending, steps: seq<Step>)
    requires Inv(s) && (Awaits(s.link, c) || Chosen(s.link, c))
      && forall i :: 0 <= i < |steps| ==> Undisturbed(steps[i])
    ensures Awaits(Run(s, steps).link, c) || Chosen(Run(s, steps).link, c)
    decreases |steps|
  {
    hide Fit, Next, Awaits, Chosen;
    if steps != [] {
      NextKeeps(s, steps[0]);
      if Awaits(s.link, c) { AwaitsStays(s.link, c, steps[0]); } else { ChosenStays(s.link, c, steps[0]); }
      WaitsOrChosen(Next(s, steps[0]), c, steps[1..]);
    }
  }

  /**
   * So whatever else happens, short of a new connect, a disconnect or the radio going off: when the legs are no longer
   * retired and the scheduled block runs, the connection that waited is the chosen one; and if it still waited, the
   * block was scheduled and it now owns both legs.
   */
  lemma WaitingConnectionActivates(s: System, c: Pending, steps: seq<Step>, leftNonce: Uuid, rightNonce: Uuid)
    requires Reachable(s) && s.link.pending == Some(c) && forall i :: 0 <= i < |steps| ==> Undisturbed(steps[i])
    requires var s1 := Run(s, steps);
      !Blocked(s1.link, c) && NewNonce(s1.issued, leftNonce) && NewNonce(s1.issued, rightNonce)
        && leftNonce != rightNonce
    ensures var s1 := Run(s, steps); var s2 := Next(s1, DoScheduled(leftNonce, rightNonce));
      && Chosen(s2.link, c)
      && (s1.link.pending.Some? ==> s1.link.scheduled && Owned(s2.link, c))
  {
    hide Reachable, Run, Fit, Blocked, NewNonce, Owned, RunScheduled;
    ReachableFits(s);
    WaitingAwaits(s, c);
    WaitsOrChosen(s, c, steps);
    RunKeeps(s, steps);
    var s1 := Run(s, steps);
    if Awaits(s1.link, c) {
      ScheduledChooses(s1.link, c, leftNonce, rightNonce);
    } else {
      ChosenStays(s1.link, c, DoScheduled(leftNonce, rightNonce));
    }
  }

  lemma WaitingAwaits(s: System, c: Pending)
    requires Inv(s) && s.link.pending == Some(c)
    ensures Awaits(s.link, c)
  {
    hide TokensFit, BelongingsFit;
  }

  /** And the ends of the two legs do release them: the barrier then blocks the waiting connection no longer. */
  lemma BothEndsRelease(s: System)
    requires Reachable(s) && s.link.pending.Some?
    ensures var c := s.link.pending.value; var s' := Terminal(Terminal(s.link, c.left), c.right);
      s'.pending == Some(c) && s'.scheduled && !Blocked(s', c)
  {
    hide Reachable, BelongingsFit;
    ReachableFits(s);
    var c := s.link.pending.value;
    EndsOne(s.link, c.left);
    EndsOne(Terminal(s.link, c.left), c.right);
  }

  /**
   * The end of a leg of a waiting connection: the barrier lets go of it and a block is scheduled, or there was nothing
   * to end.
   */
  lemma EndsOne(s: Link, p: Peripheral)
    requires s.pending.Some? && s.tokens == map[]
    ensures var s' := Terminal(s, p);
      && s'.pending == s.pending && s'.tokens == map[] && s'.generation == s.generation
      && s'.retired == s.retired - {p.id}
      && (s'.scheduled <==> s.scheduled || p.id in s.retired)
  {
  }

  /** Whatever happens, a write only ever reaches a peripheral for a live token, and nothing already sent changes. */
  lemma WritesAreOwned(s: System, step: Step)
    requires Reachable(s)
    ensures var l, l' := s.link, Next(s, step).link;
      && |l.sent| <= |l'.sent| && l'.sent[..|l.sent|] == l.sent
      && (forall i :: |l.sent| <= i < |l'.sent| ==>
            var t := l'.sent[i].token;
              t.id in l.tokens && l.tokens[t.id] == t && t.generation == l.generation && t.id !in l.retired)
  {
    hide Reachable, BelongingsFit, PendingFit, Connect, Clear, RunScheduled, Terminal, SendData, Called, NewNonce;
    ReachableFits(s);
    var l := s.link;
    match step
    case DoConnect(name, leftLinked, rightLinked) => ClearedTokens(l, name, leftLinked, rightLinked);
    case DoDisconnect(leftLinked, rightLinked) => ClearedTokens(l, "", leftLinked, rightLinked);
    case DoPowerOff => ClearedTokens(l, "", false, false);
    case DoScheduled(leftNonce, rightNonce) => ScheduledKeeps(l, leftNonce, rightNonce);
    case DoTerminal(p) => TerminalKeeps(l, p);
    case DoSend(data, target, expected, leftOpen, rightOpen) =>
      SendKeeps(l, data, target, expected, leftOpen, rightOpen);
    case Callback(call, p, token) => CalledKeeps(l, call, p, token);
    case _ =>
  }

  /** The link is announced as connected only when both legs are ready under live tokens of this very generation. */
  lemma AnnouncedWhenReady(s: System, call: Call, p: Peripheral, token: Token)
    requires Reachable(s) && Called(s.link, call, p, token).announced != s.link.announced
    ensures var l := Called(s.link, call, p, token);
      && l.announced == s.link.announced + [l.generation] && l.left.Some? && l.right.Some?
      && l.left.value.id in l.tokens && l.right.value.id in l.tokens && l.left.value.id in l.ready
      && l.right.value.id in l.ready
  {
    hide Reachable, Drain, MarkReady, Unexpected, TokensFit, PendingFit, SideFit, Owns;
    ReachableFits(s);
    CalledKeeps(s.link, call, p, token);
    var linked := if call.WriteReady? then false else call.linked;
    UnexpectedAnnounces(s.link, p, token, linked);
    match call
    case NotificationState(notifying, open, _) => MarkReadyAnnounces(s.link, p, token, open, linked);
    case WriteReady(room) => DrainAnnounces(s.link, p, token, room);
    case _ =>
  }

  lemma MarkReadyAnnounces(s: Link, p: Peripheral, token: Token, open: bool, linked: bool)
    ensures var l := MarkReady(s, p, token, open, linked);
      l.announced == s.announced || (l.announced == s.announced + [l.generation] && BothReady(l))
  {
    hide Enqueue, Unexpected, BothReady;
    UnexpectedAnnounces(s, p, token, linked);
    EnqueueAnnounces(s.(ready := s.ready + {p.id}), INITIALIZATION, token.side, open);
    if Owns(s, p, token) {
      var w := if p.id in s.ready then Write(s, true)
        else Enqueue(s.(ready := s.ready + {p.id}), INITIALIZATION, token.side, open);
      AnnouncedReady(w.link, [token.generation]);
    }
  }

  lemma AnnouncedReady(s: Link, more: seq<nat>)
    ensures BothReady(s.(announced := s.announced + more)) == BothReady(s)
  {
  }

  lemma UnexpectedAnnounces(s: Link, p: Peripheral, token: Token, linked: bool)
    ensures Unexpected(s, p, token, true, linked).announced == s.announced
  {
  }

  lemma EnqueueAnnounces(s: Link, data: Data, side: Side, open: bool)
    ensures Enqueue(s, data, side, open).link.announced == s.announced
    ensures Enqueue(s, data, side, open).link.generation == s.generation
  {
  }

  lemma DrainAnnounces(s: Link, p: Peripheral, token: Token, room: nat)
    ensures Drain(s, p, token, room).announced == s.announced
  {
  }

  /** Draining hands over the front of the queue in order, as much as there is room for, and keeps the rest. */
  lemma DrainIsPrefix(s: Link, p: Peripheral, token: Token, room: nat)
    requires Owns(s, p, token) && Found(s, token.side) && p.id in s.writes
    ensures var s' := Drain(s, p, token, room); var rest, n := Queue(s', p.id), |s'.sent| - |s.sent|;
      && 0 <= n <= |s.writes[p.id]| && s.writes[p.id] == s.writes[p.id][..n] + rest
      && s'.sent == s.sent + SentBy(token, s.writes[p.id][..n]) && (rest == [] || n == room)
      && s'.accepted == s.accepted && s'.tokens == s.tokens
      && (forall k :: k != p.id ==> Queue(s', k) == Queue(s, k))
  {
    var queue := s.writes[p.id];
    var n := if room < |queue| then room else |queue|;
    assert queue == queue[..n] + queue[n..];
  }
}
