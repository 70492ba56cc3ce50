/**
 * The iOS glasses link as it runs: the attempt authority, the barrier of retired connections and the manager's fields,
 * updated by calls and callbacks on the main queue. Each method is proved against its function.
 */
module BluetoothManagers {
  import opened Base
  import opened GlassesLink

  class ConnectionAttemptAuthority {
    var current: map<Uuid, Token>

    constructor ()
      ensures current == map[]
    {
      current := map[];
    }

    method Begin(id: Uuid, side: Side, generation: nat, nonce: Uuid) returns (token: Token)
      modifies this
      ensures token == Token(id, side, generation, nonce) && current == old(current)[id := token]
    {
      token := Token(id, side, generation, nonce);
      current := current[id := token];
    }

    predicate Owns(token: Token)
      reads this
    {
      token.id in current && current[token.id] == token
    }

    method Retire(token: Token) returns (retired: bool)
      modifies this
      ensures retired == old(Owns(token))
      ensures current == if retired then old(current) - {token.id} else old(current)
    {
      retired := Owns(token);
      if retired { current := current - {token.id}; }
    }

    method RetireAll() returns (tokens: set<Token>)
      modifies this
      ensures tokens == old(current).Values && current == map[]
    {
      tokens := current.Values;
      current := map[];
    }
  }

  class RetiredConnectionBarrier {
    var identifiers: set<Uuid>

    constructor ()
      ensures identifiers == {}
    {
      identifiers := {};
    }

    method Insert(id: Uuid)
      modifies this
      ensures identifiers == old(identifiers) + {id}
    {
      identifiers := identifiers + {id};
    }

    method Consume(id: Uuid) returns (consumed: bool)
      modifies this
      ensures consumed == (id in old(identifiers)) && identifiers == old(identifiers) - {id}
    {
      consumed := id in identifiers;
      identifiers := identifiers - {id};
    }

    predicate Blocks(candidates: set<Uuid>)
      reads this
    {
      exists id :: id in candidates && id in identifiers
    }
  }

  class BluetoothManager {
    const authority: ConnectionAttemptAuthority
    const barrier: RetiredConnectionBarrier
    var paired: map<string, Pair>
    var name: Option<string>
    var left: Option<Peripheral>
    var right: Option<Peripheral>
    var leftFound: bool
    var rightFound: bool
    var ready: set<Uuid>
    var writes: map<Uuid, seq<Data>>
    var generation: nat
    var pending: Option<Pending>
    var scheduled: bool
    ghost var accepted: seq<Sent>
    ghost var sent: seq<Sent>
    ghost var announced: seq<nat>

    ghost function View(): Link
      reads this, authority, barrier
    {
      Link(paired, name, left, right, leftFound, rightFound, ready, writes, generation, authority.current,
           barrier.identifiers, pending, scheduled, accepted, sent, announced)
    }

    constructor ()
      ensures View() == IDLE && fresh(authority) && fresh(barrier)
    {
      authority := new ConnectionAttemptAuthority();
      barrier := new RetiredConnectionBarrier();
      paired, name, left, right, leftFound, rightFound := map[], None, None, None, false, false;
      ready, writes, generation, pending, scheduled := {}, map[], 0, None, false;
      accepted, sent, announced := [], [], [];
    }

    predicate Owns(p: Peripheral, token: Token)
      reads this, authority
    {
      && token.generation == generation && token.id == p.id && authority.Owns(token)
      && (if token.side.Left? then left == Some(p) else right == Some(p))
    }

    method SetFound(side: Side, found: bool)
      modifies this`leftFound, this`rightFound
      ensures View() == GlassesLink.SetFound(old(View()), side, found)
    {
      if side.Left? { leftFound := found; } else { rightFound := found; }
    }

    method Unexpected(p: Peripheral, token: Token, cancel: bool, linked: bool)
      modifies this, authority, barrier
      ensures View() == GlassesLink.Unexpected(old(View()), p, token, cancel, linked)
    {
      if !Owns(p, token) { return; }
      var _ := authority.Retire(token);
      ready := ready - {p.id};
      writes := writes - {p.id};
      SetFound(token.side, false);
      if cancel && linked { barrier.Insert(p.id); }
    }

    /** One leg of clearConnection. */
    method Cut(leg: Option<Peripheral>, cancel: bool, linked: bool)
      modifies barrier
      ensures barrier.identifiers == old(barrier.identifiers) + CutOff(leg, cancel, linked)
    {
      if leg.Some? && cancel && linked { barrier.Insert(leg.value.id); }
    }

    method Clear(cancel: bool, leftLinked: bool, rightLinked: bool)
      modifies this, authority, barrier
      ensures View() == GlassesLink.Clear(old(View()), cancel, leftLinked, rightLinked)
    {
      hide CutOff;
      var _ := authority.RetireAll();
      Cut(left, cancel, leftLinked);
      Cut(right, cancel, rightLinked);
      ready, writes := {}, map[];
      leftFound, rightFound, left, right, name := false, false, None, None, None;
    }

    method Connect(device: string, leftLinked: bool, rightLinked: bool) returns (found: bool)
      modifies this, authority, barrier
      ensures found == Connectable(old(View()), device)
      ensures View() == GlassesLink.Connect(old(View()), device, leftLinked, rightLinked)
    {
      hide GlassesLink.Clear;
      if device !in paired || paired[device].left.None? || paired[device].right.None? { return false; }
      var next, pair := generation + 1, paired[device];
      pending := None;
      Clear(true, leftLinked, rightLinked);
      generation := next;
      pending := Some(Pending(device, pair.left.value, pair.right.value, next));
      ScheduleActivation();
      found := true;
    }

    method Disconnect(leftLinked: bool, rightLinked: bool)
      modifies this, authority, barrier
      ensures View() == GlassesLink.Disconnect(old(View()), leftLinked, rightLinked)
    {
      pending := None;
      Clear(true, leftLinked, rightLinked);
    }

    method ScheduleActivation()
      modifies this`scheduled
      ensures scheduled
    {
      if !scheduled { scheduled := true; }
    }

    method Activate(c: Pending, leftNonce: Uuid, rightNonce: Uuid)
      modifies this`name, this`left, this`right, authority
      ensures View() == GlassesLink.Activate(old(View()), c, leftNonce, rightNonce)
    {
      if c.generation != generation { return; }
      name, left, right := Some(c.name), Some(c.left), Some(c.right);
      var _ := authority.Begin(c.left.id, Left, c.generation, leftNonce);
      var _ := authority.Begin(c.right.id, Right, c.generation, rightNonce);
    }

    /** The block on the main queue. */
    method RunScheduled(leftNonce: Uuid, rightNonce: Uuid)
      requires scheduled
      modifies this, authority
      ensures View() == GlassesLink.RunScheduled(old(View()), leftNonce, rightNonce)
    {
      hide GlassesLink.Activate;
      scheduled := false;
      if pending.None? { return; }
      var c := pending.value;
      var legs := {c.left.id, c.right.id};
      if barrier.Blocks(legs) { return; }
      assert c.left.id in legs && c.right.id in legs;
      pending := None;
      Activate(c, leftNonce, rightNonce);
    }

    method Terminal(p: Peripheral)
      modifies this, authority, barrier
      ensures View() == GlassesLink.Terminal(old(View()), p)
    {
      var retired := barrier.Consume(p.id);
      if retired {
        writes := writes - {p.id};
        ready := ready - {p.id};
        ScheduleActivation();
        return;
      }
      assert barrier.identifiers == old(barrier.identifiers);
      if p.id in authority.current { Unexpected(p, authority.current[p.id], false, false); }
    }

    method Enqueue(data: Data, side: Side, canSend: bool) returns (taken: bool)
      modifies this`writes, this`accepted, this`sent
      ensures var w := GlassesLink.Enqueue(old(View()), data, side, canSend); View() == w.link && taken == w.accepted
    {
      var leg := if side.Left? then left else right;
      var found := if side.Left? then leftFound else rightFound;
      if leg.None? || !found || leg.value.id !in authority.current { return false; }
      var p := leg.value;
      var token := authority.current[p.id];
      if token.side != side || !Owns(p, token) || p.id !in ready { return false; }
      if canSend {
        sent, accepted := sent + [Sent(token, data)], accepted + [Sent(token, data)];
        return true;
      }
      var queue := if p.id in writes then writes[p.id] else [];
      if |queue| >= 128 { return false; }
      writes := writes[p.id := queue + [data]];
      accepted := accepted + [Sent(token, data)];
      taken := true;
    }

    /** drainWrites: one write at a time while the peripheral takes them. */
    method Drain(p: Peripheral, token: Token, room: nat)
      modifies this`writes, this`sent
      ensures View() == GlassesLink.Drain(old(View()), p, token, room)
    {
      if !Owns(p, token) { return; }
      if (if token.side.Left? then !leftFound else !rightFound) || p.id !in writes { return; }
      var queue, free := writes[p.id], room;
      ghost var n := 0;
      while free > 0 && queue != []
        invariant 0 <= n <= |old(writes)[p.id]| && n + free == room && queue == old(writes)[p.id][n..]
        invariant writes == old(writes)
        invariant sent == old(sent) + SentBy(token, old(writes)[p.id][..n])
        decreases free
      {
        sent := sent + [Sent(token, queue[0])];
        assert old(writes)[p.id][..n + 1] == old(writes)[p.id][..n] + [queue[0]];
        queue, free, n := queue[1..], free - 1, n + 1;
      }
      writes := if queue == [] then writes - {p.id} else writes[p.id := queue];
    }

    method MarkReady(p: Peripheral, token: Token, canSend: bool, linked: bool)
      modifies this, authority, barrier
      ensures View() == GlassesLink.MarkReady(old(View()), p, token, canSend, linked)
    {
      hide GlassesLink.Enqueue, GlassesLink.Unexpected;
      if !Owns(p, token) { return; }
      if p.id !in ready {
        ghost var before := View();
        ready := ready + {p.id};
        var taken := Enqueue(INITIALIZATION, token.side, canSend);
        if !taken {
          RefusedUnchanged(before.(ready := before.ready + {p.id}), INITIALIZATION, token.side, canSend);
          ready := ready - {p.id};
          ghost var undone := View();
          Unexpected(p, token, true, linked);
          SameEnd(before, undone, p, token, linked);
          return;
        }
        EnqueuedKeeps(before.(ready := before.ready + {p.id}), INITIALIZATION, token.side, canSend);
      }
      if left.Some? && right.Some? && left.value.id in ready && right.value.id in ready
        && token.generation == generation && name.Some? {
        announced := announced + [token.generation];
      }
    }
  }

  lemma RefusedUnchanged(s: Link, data: Data, side: Side, open: bool)
    requires !Enqueue(s, data, side, open).accepted
    ensures Enqueue(s, data, side, open).link == s
  {
  }

  lemma EnqueuedKeeps(s: Link, data: Data, side: Side, open: bool)
    ensures Enqueue(s, data, side, open).link.generation == s.generation
  {
  }

  /** Undoing the readiness first makes no difference to the attempt's end. */
  lemma SameEnd(s: Link, undone: Link, p: Peripheral, token: Token, linked: bool)
    requires undone == s.(ready := s.ready + {p.id} - {p.id})
    ensures Unexpected(undone, p, token, true, linked) == Unexpected(s, p, token, true, linked) || !Owns(s, p, token)
  {
    assert s.ready + {p.id} - {p.id} - {p.id} == s.ready - {p.id};
  }
}
