/**
 * What each call and callback of the glasses link does, said of its fields alone; and where the legs, the tokens, the
 * readiness and the announcements of a run come from.
 */
module GlassesAnswers {
  import opened Base
  import opened GlassesLink
  import opened GlassesTheorems

  // ----- what each event does -----

  /**
   * The token is the live one of this peripheral, in the current generation, and the peripheral is the leg of its side.
   */
  ghost predicate Mine(s: Link, p: Peripheral, token: Token) {
    && token.id == p.id && token.generation == s.generation && p.id in s.tokens && s.tokens[p.id] == token
    && (token.side == Left ==> s.left == Some(p)) && (token.side == Right ==> s.right == Some(p))
  }

  /** Which identifiers the two legs being let go of leave retired: those of links still up. */
  ghost predicate LetGo(s: Link, leftLinked: bool, rightLinked: bool, retired: set<Uuid>) {
    forall id :: id in retired <==>
      || id in s.retired || (leftLinked && s.left.Some? && s.left.value.id == id)
      || (rightLinked && s.right.Some? && s.right.value.id == id)
  }

  /**
   * Only a pair both sides of which were found can be connected; it then waits, scheduled, and all else is let go of.
   */
  lemma ConnectDecides(s: Link, name: string, leftLinked: bool, rightLinked: bool)
    ensures var s' := Connect(s, name, leftLinked, rightLinked);
      if name in s.paired && s.paired[name].left.Some? && s.paired[name].right.Some? then
        && LetGo(s, leftLinked, rightLinked, s'.retired)
        && s' == Link(s.paired, None, None, None, false, false, {}, map[], s.generation + 1, map[], s'.retired,
                      Some(Pending(name, s.paired[name].left.value, s.paired[name].right.value, s.generation + 1)),
                      true, s.accepted, s.sent, s.announced)
      else s' == s
  {
  }

  /** Disconnecting lets go of everything and of what waits; losing the radio too, but nothing is left to end. */
  lemma DisconnectDecides(s: Link, leftLinked: bool, rightLinked: bool)
    ensures var s' := Disconnect(s, leftLinked, rightLinked);
      && LetGo(s, leftLinked, rightLinked, s'.retired)
      && s' == Link(s.paired, None, None, None, false, false, {}, map[], s.generation, map[], s'.retired, None,
                    s.scheduled, s.accepted, s.sent, s.announced)
    ensures PoweredOff(s) == Disconnect(s, false, false)
  {
  }

  /** A discovery sets one side of one pair. */
  lemma DiscoverDecides(s: Link, key: string, p: Peripheral, side: Side)
    ensures var s' := Discover(s, key, p, side);
      && s' == s.(paired := s'.paired) && s'.paired.Keys == s.paired.Keys + {key}
      && (forall k :: k in s.paired && k != key ==> s'.paired[k] == s.paired[k])
      && (side == Left ==> s'.paired[key].left == Some(p)
                           && s'.paired[key].right == if key in s.paired then s.paired[key].right else None)
      && (side == Right ==> s'.paired[key].right == Some(p)
                            && s'.paired[key].left == if key in s.paired then s.paired[key].left else None)
    ensures StartScan(s) == s.(paired := map[])
  {
  }

  /**
   * The scheduled block gives the waiting connection both its legs, each a fresh token of its side, exactly when
   * neither leg is retired; while one is it goes on waiting. A connection that is no longer the latest is dropped.
   */
  lemma ScheduledDecides(s: Link, leftNonce: Uuid, rightNonce: Uuid)
    ensures RunScheduled(s, leftNonce, rightNonce) ==
      if !s.scheduled then s
      else if s.pending.None? || s.pending.value.left.id in s.retired || s.pending.value.right.id in s.retired
        then s.(scheduled := false)
      else if s.pending.value.generation != s.generation then s.(scheduled := false, pending := None)
      else
        var Pending(name, left, right, generation) := s.pending.value;
        s.(scheduled := false, pending := None, name := Some(name), left := Some(left), right := Some(right),
           tokens := s.tokens[left.id := Token(left.id, Left, generation, leftNonce)]
                             [right.id := Token(right.id, Right, generation, rightNonce)])
  {
  }

  /** What a leg's end leaves: its token, readiness, queue and characteristics are gone, and the other leg's are not. */
  function Ended(s: Link, id: Uuid, side: Side, cut: bool): Link {
    Link(s.paired, s.name, s.left, s.right, s.leftFound && side == Right, s.rightFound && side == Left, s.ready - {id},
         s.writes - {id}, s.generation, s.tokens - {id}, if cut then s.retired + {id} else s.retired, s.pending,
         s.scheduled, s.accepted, s.sent, s.announced)
  }

  lemma UnexpectedDecides(s: Link, p: Peripheral, token: Token, cancel: bool, linked: bool)
    ensures Unexpected(s, p, token, cancel, linked)
      == if Mine(s, p, token) then Ended(s, p.id, token.side, cancel && linked) else s
  {
  }

  /** The end of a link: a retired one is let go of and wakes what waits; a leg's ends the leg; any other is nothing. */
  lemma TerminalDecides(s: Link, p: Peripheral)
    ensures Terminal(s, p) ==
      if p.id in s.retired then
        s.(retired := s.retired - {p.id}, writes := s.writes - {p.id}, ready := s.ready - {p.id}, scheduled := true)
      else if p.id in s.tokens && Mine(s, p, s.tokens[p.id]) then Ended(s, p.id, s.tokens[p.id].side, false)
      else s
  {
  }

  /** The leg may be written: it is ready, its characteristics are known, and its token is live and of its side. */
  ghost predicate Writable(s: Link, side: Side, p: Peripheral) {
    && (if side == Left then s.left == Some(p) && s.leftFound else s.right == Some(p) && s.rightFound)
    && p.id in s.tokens && s.tokens[p.id].side == side && Mine(s, p, s.tokens[p.id]) && p.id in s.ready
  }

  /** The write was taken for the leg: sent at once when it is open, or put at the end of its queue. */
  ghost predicate Taken(s: Link, data: Data, side: Side, open: bool, p: Peripheral, s': Link) {
    && Writable(s, side, p)
    && (var write := Sent(s.tokens[p.id], data);
        s' == if open then s.(sent := s.sent + [write], accepted := s.accepted + [write])
              else s.(writes := s.writes[p.id := (if p.id in s.writes then s.writes[p.id] else []) + [data]],
                      accepted := s.accepted + [write]))
  }

  /** A write is taken exactly on a writable leg with room: sent at once, or put at the end of a queue below 128. */
  lemma EnqueueDecides(s: Link, data: Data, side: Side, open: bool)
    ensures var w := Enqueue(s, data, side, open);
      && (w.accepted <==> exists p ::
            Writable(s, side, p) && (open || p.id !in s.writes || |s.writes[p.id]| < 128))
      && (w.accepted ==> exists p :: Taken(s, data, side, open, p, w.link))
      && (!w.accepted ==> w.link == s)
  {
    var leg := if side == Left then s.left else s.right;
    if leg.Some? && Writable(s, side, leg.value) {
      assert Enqueue(s, data, side, open).accepted ==>
        Taken(s, data, side, open, leg.value, Enqueue(s, data, side, open).link);
    }
  }

  /**
   * What is sent goes to the leg named, or to the left and then the right whatever became of the left; and only when it
   * is data, for the connection the caller expects.
   */
  lemma SendDecides(s: Link, data: Data, target: Option<Side>, expected: Expected, leftOpen: bool, rightOpen: bool)
    ensures var w := SendData(s, data, target, expected, leftOpen, rightOpen);
      if && data != [] && s.name.Some? && (expected.generation.Some? ==> expected.generation == Some(s.generation))
         && (expected.name.Some? ==> expected.name == s.name)
      then match target
        case Some(side) => w == Enqueue(s, data, side, if side == Left then leftOpen else rightOpen)
        case None =>
          var l := Enqueue(s, data, Left, leftOpen);
          var r := Enqueue(l.link, data, Right, rightOpen);
          w.link == r.link && (w.accepted <==> l.accepted && r.accepted)
      else w == Write(s, false)
  {
    hide Enqueue;
  }

  /** A writable leg is drained from the front of its queue, as far as there is room. */
  lemma DrainDecides(s: Link, p: Peripheral, token: Token, room: nat)
    ensures var s' := Drain(s, p, token, room);
      if && Mine(s, p, token) && (token.side == Left ==> s.leftFound) && (token.side == Right ==> s.rightFound)
         && p.id in s.writes
      then
        var queue := s.writes[p.id];
        var n := if room < |queue| then room else |queue|;
        && s' == s.(sent := s'.sent, writes := s'.writes) && |s'.sent| == |s.sent| + n
        && (forall i :: 0 <= i < |s.sent| ==> s'.sent[i] == s.sent[i])
        && (forall i :: 0 <= i < n ==> s'.sent[|s.sent| + i] == Sent(token, queue[i]))
        && s'.writes == if n == |queue| then s.writes - {p.id} else s.writes[p.id := queue[n..]]
      else s' == s
  {
  }

  /** Both legs are chosen and ready. */
  ghost predicate BothUp(s: Link) {
    && s.name.Some? && s.left.Some? && s.right.Some? && s.left.value.id in s.ready && s.right.value.id in s.ready
  }

  lemma MineIff(s: Link, p: Peripheral, token: Token)
    ensures Owns(s, p, token) <==> Mine(s, p, token)
  {
  }

  lemma UpIff(s: Link)
    ensures BothReady(s) <==> BothUp(s)
  {
  }

  /**
   * A leg is ready once it notifies and takes the initialization; one that does neither is ended and cut off. The link
   * is announced, with the token's generation, exactly when the other leg is ready by then too.
   */
  lemma NotificationDecides(s: Link, p: Peripheral, token: Token, notifying: bool, open: bool, linked: bool)
    ensures var s' := Notification(s, p, token, notifying, open, linked);
      var up := s.(ready := s.ready + {p.id});
      var w := if p.id in s.ready then Write(s, true) else Enqueue(up, INITIALIZATION, token.side, open);
      if !Mine(s, p, token) then s' == s
      else if !notifying || !w.accepted then s' == Ended(s, p.id, token.side, linked)
      else && s' == w.link.(announced := s'.announced)
           && s'.announced == if BothUp(w.link) then s.announced + [token.generation] else s.announced
    ensures INITIALIZATION == [0x4d, 0x01]
  {
    hide Enqueue, Unexpected, Mine, Ended, BothReady, BothUp;
    MineIff(s, p, token);
    UnexpectedDecides(s, p, token, true, linked);
    forall l ensures BothReady(l) <==> BothUp(l) { UpIff(l); }
    EnqueueAnnounces(s.(ready := s.ready + {p.id}), INITIALIZATION, token.side, open);
  }

  /** Discovery failing ends a live leg and cuts it off; its characteristics being found is all that it changes else. */
  lemma DiscoveredDecides(s: Link, p: Peripheral, token: Token, found: bool, linked: bool)
    ensures Services(s, p, token, found, linked)
      == if found || !Mine(s, p, token) then s else Ended(s, p.id, token.side, linked)
    ensures Characteristics(s, p, token, found, linked) ==
      if !Mine(s, p, token) then s
      else if !found then Ended(s, p.id, token.side, linked)
      else s.(leftFound := s.leftFound || token.side == Left, rightFound := s.rightFound || token.side == Right)
  {
  }

  // ----- where the state of a run comes from -----

  const START := System(IDLE, {})

  lemma {:induction false} RunLast(s: System, steps: seq<Step>)
    requires steps != []
    ensures Run(s, steps) == Next(Run(s, steps[..|steps| - 1]), steps[|steps| - 1])
    decreases |steps|
  {
    hide Next;
    if |steps| > 1 {
      RunLast(Next(s, steps[0]), steps[1..]);
      assert steps[1..][..|steps| - 2] == steps[..|steps| - 1][1..];
    }
  }

  /** The side of the pair as it was discovered. */
  ghost predicate Known(s: Link, key: string, p: Peripheral, side: Side) {
    key in s.paired && (if side == Left then s.paired[key].left == Some(p) else s.paired[key].right == Some(p))
  }

  /**
   * The i-th step discovered the peripheral, and since then neither was the pair's side found again nor a scan begun.
   */
  ghost predicate FoundAt(steps: seq<Step>, i: int, key: string, p: Peripheral, side: Side) {
    && 0 <= i < |steps| && steps[i] == DoDiscover(key, p, side)
    && forall j :: i < j < |steps| ==>
         && !steps[j].DoScan?
         && !(steps[j].DoDiscover? && steps[j].key == key && steps[j].side == side)
  }

  /** Any step but a discovery and a scan leaves what was discovered. */
  lemma PairedStays(s: System, step: Step)
    requires !step.DoScan? && !step.DoDiscover?
    ensures Next(s, step).link.paired == s.link.paired
  {
    hide Connect, Enqueue, Drain, Terminal, Notification, RunScheduled, Unexpected, SendData, NewNonce, Mine, LetGo,
      Writable, BothUp, Taken;
    var l := s.link;
    match step
    case DoConnect(name, leftLinked, rightLinked) => ConnectDecides(l, name, leftLinked, rightLinked);
    case DoDisconnect(leftLinked, rightLinked) => DisconnectDecides(l, leftLinked, rightLinked);
    case DoPowerOff => DisconnectDecides(l, false, false);
    case DoScheduled(leftNonce, rightNonce) => ScheduledDecides(l, leftNonce, rightNonce);
    case DoTerminal(p) => TerminalDecides(l, p);
    case DoSend(data, side, expected, leftOpen, rightOpen) =>
      SendRests(l, data, side, expected, leftOpen, rightOpen);
    case Callback(call, p, token) => CallRests(l, call, p, token);
  }

  /** A write touches nothing but queues and histories. */
  ghost predicate OnlyWrites(s: Link, s': Link) {
    s' == s.(writes := s'.writes, accepted := s'.accepted, sent := s'.sent)
  }

  lemma EnqueueRests(s: Link, data: Data, side: Side, open: bool)
    ensures OnlyWrites(s, Enqueue(s, data, side, open).link)
  {
    hide Enqueue, Writable;
    EnqueueDecides(s, data, side, open);
  }

  lemma SendRests(s: Link, data: Data, side: Option<Side>, expected: Expected, leftOpen: bool, rightOpen: bool)
    ensures OnlyWrites(s, SendData(s, data, side, expected, leftOpen, rightOpen).link)
  {
    hide SendData, Enqueue;
    SendDecides(s, data, side, expected, leftOpen, rightOpen);
    EnqueueRests(s, data, Left, leftOpen);
    EnqueueRests(s, data, Right, rightOpen);
    EnqueueRests(Enqueue(s, data, Left, leftOpen).link, data, Right, rightOpen);
  }

  /** A callback never touches what was chosen or waits. */
  ghost predicate ChoiceRests(s: Link, s': Link) {
    && s'.paired == s.paired && s'.pending == s.pending && s'.generation == s.generation && s'.name == s.name
    && s'.left == s.left && s'.right == s.right
    && (forall k :: k in s'.tokens ==> k in s.tokens && s'.tokens[k] == s.tokens[k])
  }

  lemma CallRests(s: Link, call: Call, p: Peripheral, token: Token)
    ensures ChoiceRests(s, Called(s, call, p, token))
  {
    hide Services, Characteristics, Notification, Drain, Enqueue, Mine, BothUp;
    match call
    case ServicesFound(found, linked) => DiscoveredDecides(s, p, token, found, linked);
    case CharacteristicsFound(found, linked) => DiscoveredDecides(s, p, token, found, linked);
    case NotificationState(notifying, open, linked) =>
      NotificationDecides(s, p, token, notifying, open, linked);
      EnqueueRests(s.(ready := s.ready + {p.id}), INITIALIZATION, token.side, open);
    case WriteReady(room) => DrainDecides(s, p, token, room);
  }

  /** Over every run: what is known of a pair is what was discovered last, since the last scan began. */
  lemma {:induction false} DiscoveryStory(steps: seq<Step>, key: string, p: Peripheral, side: Side)
    requires Known(Run(START, steps).link, key, p, side)
    ensures exists i :: FoundAt(steps, i, key, p, side)
    decreases |steps|
  {
    hide Next;
    if steps == [] {
      assert false;
    } else {
      var n := |steps| - 1;
      var s := Run(START, steps[..n]);
      RunLast(START, steps);
      KnownComes(s, steps[n], key, p, side);
      if steps[n] == DoDiscover(key, p, side) {
        assert FoundAt(steps, n, key, p, side);
      } else {
        DiscoveryStory(steps[..n], key, p, side);
        var i :| FoundAt(steps[..n], i, key, p, side);
        FoundStill(steps, i, key, p, side);
      }
    }
  }

  lemma KnownComes(s: System, step: Step, key: string, p: Peripheral, side: Side)
    requires Known(Next(s, step).link, key, p, side)
    ensures || step == DoDiscover(key, p, side)
            || (Known(s.link, key, p, side) && !step.DoScan?
                && !(step.DoDiscover? && step.key == key && step.side == side))
  {
    if !step.DoScan? && !step.DoDiscover? {
      hide Next;
      PairedStays(s, step);
    } else if step.DoDiscover? {
      hide Discover;
      DiscoverDecides(s.link, step.key, step.p, step.side);
    }
  }

  lemma FoundStill(steps: seq<Step>, i: int, key: string, p: Peripheral, side: Side)
    requires steps != [] && FoundAt(steps[..|steps| - 1], i, key, p, side)
    requires var last := steps[|steps| - 1];
      !last.DoScan? && !(last.DoDiscover? && last.key == key && last.side == side)
    ensures FoundAt(steps, i, key, p, side)
  {
  }

  /** This step, taken in s, asked for the connection: of the pair discovered under its name, in the next generation. */
  ghost predicate AskedBy(s: Link, step: Step, c: Pending) {
    && step.DoConnect? && step.name == c.name && c.generation == s.generation + 1
    && Known(s, c.name, c.left, Left) && Known(s, c.name, c.right, Right)
  }

  lemma PendingComes(s: System, step: Step, c: Pending)
    requires Next(s, step).link.pending == Some(c)
    ensures s.link.pending == Some(c) || AskedBy(s.link, step, c)
  {
    hide Connect, Terminal, RunScheduled, SendData, Called, NewNonce, Mine, LetGo;
    var l := s.link;
    match step
    case DoConnect(name, leftLinked, rightLinked) => ConnectDecides(l, name, leftLinked, rightLinked);
    case DoDisconnect(leftLinked, rightLinked) => DisconnectDecides(l, leftLinked, rightLinked);
    case DoPowerOff => DisconnectDecides(l, false, false);
    case DoScheduled(leftNonce, rightNonce) => ScheduledDecides(l, leftNonce, rightNonce);
    case DoTerminal(p) => TerminalDecides(l, p);
    case DoSend(data, side, expected, leftOpen, rightOpen) =>
      SendRests(l, data, side, expected, leftOpen, rightOpen);
    case Callback(call, p, token) => CallRests(l, call, p, token);
    case _ =>
  }

  /** A connect at step i, of legs discovered before it at steps l and r, each on its own side. */
  ghost predicate Asked(steps: seq<Step>, i: int, l: int, r: int, c: Pending) {
    && 0 <= i < |steps| && AskedBy(Run(START, steps[..i]).link, steps[i], c)
    && FoundAt(steps[..i], l, c.name, c.left, Left) && FoundAt(steps[..i], r, c.name, c.right, Right)
  }

  /** Over every run a waiting connection is one the user asked for, of the two legs then discovered under its name. */
  lemma {:induction false} PendingStory(steps: seq<Step>, c: Pending)
    requires Run(START, steps).link.pending == Some(c)
    ensures exists i, l, r :: Asked(steps, i, l, r, c)
    decreases |steps|
  {
    hide Next, AskedBy, Known, FoundAt;
    if steps == [] {
      assert false;
    } else {
      var n := |steps| - 1;
      var s := Run(START, steps[..n]);
      RunLast(START, steps);
      PendingComes(s, steps[n], c);
      if AskedBy(s.link, steps[n], c) {
        LegsKnown(s.link, steps[n], c);
        DiscoveryStory(steps[..n], c.name, c.left, Left);
        DiscoveryStory(steps[..n], c.name, c.right, Right);
        var l :| FoundAt(steps[..n], l, c.name, c.left, Left);
        var r :| FoundAt(steps[..n], r, c.name, c.right, Right);
        assert Asked(steps, n, l, r, c);
      } else {
        PendingStory(steps[..n], c);
        var i, l, r :| Asked(steps[..n], i, l, r, c);
        assert steps[..n][..i] == steps[..i];
        assert Asked(steps, i, l, r, c);
      }
    }
  }

  lemma LegsKnown(s: Link, step: Step, c: Pending)
    requires AskedBy(s, step, c)
    ensures Known(s, c.name, c.left, Left) && Known(s, c.name, c.right, Right)
  {
  }

  /** This step, taken in s, activated the waiting connection, neither leg of which was retired. */
  ghost predicate ActivatedBy(s: Link, step: Step, c: Pending) {
    && step.DoScheduled? && s.scheduled && s.pending == Some(c) && c.generation == s.generation
    && c.left.id !in s.retired && c.right.id !in s.retired
  }

  /** The connection is the chosen one. */
  ghost predicate Selected(s: Link, c: Pending) {
    s.name == Some(c.name) && s.left == Some(c.left) && s.right == Some(c.right) && s.generation == c.generation
  }

  lemma SelectedComes(s: System, step: Step, c: Pending)
    requires Selected(Next(s, step).link, c)
    ensures Selected(s.link, c) || ActivatedBy(s.link, step, c)
  {
    hide Connect, Terminal, RunScheduled, SendData, Called, NewNonce, Mine, LetGo;
    var l := s.link;
    match step
    case DoConnect(name, leftLinked, rightLinked) => ConnectDecides(l, name, leftLinked, rightLinked);
    case DoDisconnect(leftLinked, rightLinked) => DisconnectDecides(l, leftLinked, rightLinked);
    case DoPowerOff => DisconnectDecides(l, false, false);
    case DoScheduled(leftNonce, rightNonce) => ScheduledDecides(l, leftNonce, rightNonce);
    case DoTerminal(p) => TerminalDecides(l, p);
    case DoSend(data, side, expected, leftOpen, rightOpen) =>
      SendRests(l, data, side, expected, leftOpen, rightOpen);
    case Callback(call, p, token) => CallRests(l, call, p, token);
    case _ =>
  }

  /** Over every run the chosen connection was waiting when the block ran and neither of its legs was retired then. */
  lemma {:induction false} SelectedStory(steps: seq<Step>, c: Pending)
    requires Selected(Run(START, steps).link, c)
    ensures exists i :: 0 <= i < |steps| && ActivatedBy(Run(START, steps[..i]).link, steps[i], c)
    decreases |steps|
  {
    hide Next, ActivatedBy;
    if steps == [] {
      assert false;
    } else {
      var n := |steps| - 1;
      var s := Run(START, steps[..n]);
      RunLast(START, steps);
      hide Selected;
      SelectedComes(s, steps[n], c);
      if !ActivatedBy(s.link, steps[n], c) {
        SelectedStory(steps[..n], c);
        var i :| 0 <= i < n && ActivatedBy(Run(START, steps[..n][..i]).link, steps[..n][i], c);
        assert steps[..n][..i] == steps[..i];
      }
    }
  }

  /**
   * This step, taken in s, made the token: for the leg of its side, in the generation of the connection it activated.
   */
  ghost predicate MadeBy(s: Link, step: Step, token: Token) {
    && s.pending.Some? && ActivatedBy(s, step, s.pending.value)
    && var c := s.pending.value;
       || token == Token(c.left.id, Left, c.generation, step.leftNonce)
       || token == Token(c.right.id, Right, c.generation, step.rightNonce)
  }

  lemma TokenComes(s: System, step: Step, k: Uuid)
    requires k in Next(s, step).link.tokens
    ensures var token := Next(s, step).link.tokens[k];
      MadeBy(s.link, step, token) || (k in s.link.tokens && s.link.tokens[k] == token)
  {
    hide Connect, Terminal, RunScheduled, SendData, Called, NewNonce, Mine, LetGo;
    var l := s.link;
    match step
    case DoConnect(name, leftLinked, rightLinked) => ConnectDecides(l, name, leftLinked, rightLinked);
    case DoDisconnect(leftLinked, rightLinked) => DisconnectDecides(l, leftLinked, rightLinked);
    case DoPowerOff => DisconnectDecides(l, false, false);
    case DoScheduled(leftNonce, rightNonce) => ScheduledDecides(l, leftNonce, rightNonce);
    case DoTerminal(p) => TerminalDecides(l, p);
    case DoSend(data, side, expected, leftOpen, rightOpen) =>
      SendRests(l, data, side, expected, leftOpen, rightOpen);
    case Callback(call, p, token) => CallRests(l, call, p, token);
    case _ =>
  }

  /** Over every run each live token was made when its connection was activated, for the leg of its side. */
  lemma {:induction false} TokenStory(steps: seq<Step>, k: Uuid)
    requires k in Run(START, steps).link.tokens
    ensures var token := Run(START, steps).link.tokens[k];
      exists i :: 0 <= i < |steps| && MadeBy(Run(START, steps[..i]).link, steps[i], token)
    decreases |steps|
  {
    hide Next, MadeBy;
    if steps == [] {
      assert false;
    } else {
      var n := |steps| - 1;
      var s := Run(START, steps[..n]);
      RunLast(START, steps);
      TokenComes(s, steps[n], k);
      var token := Run(START, steps).link.tokens[k];
      if !MadeBy(s.link, steps[n], token) {
        TokenStory(steps[..n], k);
        var i :| 0 <= i < n && MadeBy(Run(START, steps[..n][..i]).link, steps[..n][i], token);
        assert steps[..n][..i] == steps[..i];
      }
    }
  }

  /** This step, taken in s, is the callback that told that the token's peripheral, its live leg, notifies. */
  ghost predicate NotifiedBy(s: Link, step: Step, token: Token) {
    && step.Callback? && step.call.NotificationState? && step.call.notifying && step.token == token
    && Mine(s, step.p, token)
  }

  lemma ReadyComes(s: System, step: Step, k: Uuid)
    requires Inv(s) && k in Next(s, step).link.ready && k in Next(s, step).link.tokens
    ensures var token := Next(s, step).link.tokens[k];
      || NotifiedBy(s.link, step, token)
      || (k in s.link.ready && k in s.link.tokens && s.link.tokens[k] == token)
  {
    hide Connect, Terminal, RunScheduled, SendData, NewNonce, LetGo, Called, TokensFit, SideFit;
    var l := s.link;
    match step
    case DoConnect(name, leftLinked, rightLinked) => ConnectDecides(l, name, leftLinked, rightLinked);
    case DoDisconnect(leftLinked, rightLinked) => DisconnectDecides(l, leftLinked, rightLinked);
    case DoPowerOff => DisconnectDecides(l, false, false);
    case DoScheduled(leftNonce, rightNonce) => ScheduledDecides(l, leftNonce, rightNonce);
    case DoTerminal(p) => TerminalDecides(l, p);
    case DoSend(data, side, expected, leftOpen, rightOpen) =>
      SendRests(l, data, side, expected, leftOpen, rightOpen);
    case Callback(call, p, token) =>
      CallRests(l, call, p, token);
      CallReadies(l, call, p, token, k);
    case _ =>
  }

  lemma CallReadies(s: Link, call: Call, p: Peripheral, token: Token, k: Uuid)
    requires k in Called(s, call, p, token).ready
    ensures k in s.ready || (k == p.id && call.NotificationState? && call.notifying && Mine(s, p, token))
  {
    hide Services, Characteristics, Notification, Drain, Enqueue, Mine, BothUp;
    match call
    case ServicesFound(found, linked) => DiscoveredDecides(s, p, token, found, linked);
    case CharacteristicsFound(found, linked) => DiscoveredDecides(s, p, token, found, linked);
    case NotificationState(notifying, open, linked) =>
      NotificationDecides(s, p, token, notifying, open, linked);
      EnqueueRests(s.(ready := s.ready + {p.id}), INITIALIZATION, token.side, open);
    case WriteReady(room) => DrainDecides(s, p, token, room);
  }

  lemma StartFits()
    ensures Inv(START)
  {
  }

  lemma ReadyHolds(s: System, k: Uuid)
    requires Inv(s) && k in s.link.ready
    ensures k in s.link.tokens
  {
  }

  /** Over every run a leg is ready only because, under the very token it has now, it told that it notifies. */
  lemma {:induction false} ReadyStory(steps: seq<Step>, k: Uuid)
    requires k in Run(START, steps).link.ready
    ensures var l := Run(START, steps).link;
      && k in l.tokens
      && exists i :: 0 <= i < |steps| && NotifiedBy(Run(START, steps[..i]).link, steps[i], l.tokens[k])
    decreases |steps|
  {
    hide Next, NotifiedBy, Inv;
    StartFits();
    RunKeeps(START, steps);
    ReadyHolds(Run(START, steps), k);
    if steps == [] {
      assert false;
    } else {
      var n := |steps| - 1;
      var s := Run(START, steps[..n]);
      RunKeeps(START, steps[..n]);
      RunLast(START, steps);
      ReadyComes(s, steps[n], k);
      var token := Run(START, steps).link.tokens[k];
      if !NotifiedBy(s.link, steps[n], token) {
        ReadyStory(steps[..n], k);
        var i :| 0 <= i < n && NotifiedBy(Run(START, steps[..n][..i]).link, steps[..n][i], token);
        assert steps[..n][..i] == steps[..i];
      }
    }
  }

  /** This step, taken in s, announced the connection: a live leg of it told that it notifies and both were up. */
  ghost predicate AnnouncedBy(s: System, step: Step, generation: nat) {
    && step.Callback? && NotifiedBy(s.link, step, step.token) && generation == s.link.generation
    && BothUp(Next(s, step).link)
  }

  lemma AnnouncementComes(s: System, step: Step)
    ensures var announced' := Next(s, step).link.announced;
      || announced' == s.link.announced
      || (announced' == s.link.announced + [s.link.generation] && AnnouncedBy(s, step, s.link.generation))
  {
    hide Connect, Terminal, RunScheduled, SendData, NewNonce, LetGo, Mine, Called;
    var l := s.link;
    match step
    case DoConnect(name, leftLinked, rightLinked) => ConnectDecides(l, name, leftLinked, rightLinked);
    case DoDisconnect(leftLinked, rightLinked) => DisconnectDecides(l, leftLinked, rightLinked);
    case DoPowerOff => DisconnectDecides(l, false, false);
    case DoScheduled(leftNonce, rightNonce) => ScheduledDecides(l, leftNonce, rightNonce);
    case DoTerminal(p) => TerminalDecides(l, p);
    case DoSend(data, side, expected, leftOpen, rightOpen) =>
      SendRests(l, data, side, expected, leftOpen, rightOpen);
    case Callback(call, p, token) => CallAnnounces(l, call, p, token);
    case _ =>
  }

  lemma CallAnnounces(s: Link, call: Call, p: Peripheral, token: Token)
    ensures var s' := Called(s, call, p, token);
      || s'.announced == s.announced
      || (call.NotificationState? && call.notifying && Mine(s, p, token) && BothUp(s')
          && s'.announced == s.announced + [s.generation])
  {
    hide Services, Characteristics, Notification, Drain, Enqueue, BothUp;
    match call
    case ServicesFound(found, linked) => DiscoveredDecides(s, p, token, found, linked);
    case CharacteristicsFound(found, linked) => DiscoveredDecides(s, p, token, found, linked);
    case NotificationState(notifying, open, linked) =>
      NotificationDecides(s, p, token, notifying, open, linked);
      var w := if p.id in s.ready then Write(s, true)
        else Enqueue(s.(ready := s.ready + {p.id}), INITIALIZATION, token.side, open);
      SameUp(w.link, Called(s, call, p, token).announced);
    case WriteReady(room) => DrainDecides(s, p, token, room);
  }

  lemma SameUp(s: Link, announced: seq<nat>)
    ensures BothUp(s.(announced := announced)) <==> BothUp(s)
  {
  }

  /** Over every run each announcement was made by a live leg's notification that found both legs up. */
  lemma {:induction false} AnnouncementStory(steps: seq<Step>, n: nat)
    requires n < |Run(START, steps).link.announced|
    ensures var generation := Run(START, steps).link.announced[n];
      exists i :: 0 <= i < |steps| && AnnouncedBy(Run(START, steps[..i]), steps[i], generation)
    decreases |steps|
  {
    hide Next, AnnouncedBy;
    if steps == [] {
      assert false;
    } else {
      var last := |steps| - 1;
      var s := Run(START, steps[..last]);
      RunLast(START, steps);
      AnnouncementComes(s, steps[last]);
      if n < |s.link.announced| {
        AnnouncementStory(steps[..last], n);
        var i :| 0 <= i < last
                 && AnnouncedBy(Run(START, steps[..last][..i]), steps[..last][i], s.link.announced[n]);
        assert steps[..last][..i] == steps[..i];
      }
    }
  }
}
