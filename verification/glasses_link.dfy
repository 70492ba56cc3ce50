/**
 * The iOS glasses link: which connection attempt owns which peripheral, one function for each thing that can happen.
 *
 * A peripheral is its identifier and the object CoreBluetooth made for it. Whether a link is up, and how many writes a
 * peripheral takes at once, are inputs. Delegate callbacks may come at any time with any token ever issued.
 */
module GlassesLink {
  import opened Base

  type Uuid = nat
  type Data = seq<bv8>

  datatype Side = Left | Right
  datatype Peripheral = Peripheral(id: Uuid, instance: nat)
  datatype Token = Token(id: Uuid, side: Side, generation: nat, nonce: Uuid)
  datatype Pending = Pending(name: string, left: Peripheral, right: Peripheral, generation: nat)
  datatype Pair = Pair(left: Option<Peripheral>, right: Option<Peripheral>)

  /** A write taken from a caller, or one that reached its peripheral, and the attempt that owned it then. */
  datatype Sent = Sent(token: Token, data: Data)

  /**
   * tokens is the attempt authority, retired the barrier; leftFound and rightFound say whether the side's two
   * characteristics are known. accepted, sent and announced are histories.
   */
  datatype Link = Link(paired: map<string, Pair>, name: Option<string>, left: Option<Peripheral>,
                       right: Option<Peripheral>, leftFound: bool, rightFound: bool, ready: set<Uuid>,
                       writes: map<Uuid, seq<Data>>, generation: nat, tokens: map<Uuid, Token>, retired: set<Uuid>,
                       pending: Option<Pending>, scheduled: bool, accepted: seq<Sent>, sent: seq<Sent>,
                       announced: seq<nat>)

  const IDLE := Link(map[], None, None, None, false, false, {}, map[], 0, map[], {}, None, false, [], [], [])
  const INITIALIZATION: Data := [0x4d, 0x01]

  function Leg(s: Link, side: Side): Option<Peripheral> {
    if side.Left? then s.left else s.right
  }

  function Found(s: Link, side: Side): bool {
    if side.Left? then s.leftFound else s.rightFound
  }

  function SetFound(s: Link, side: Side, found: bool): Link {
    if side.Left? then s.(leftFound := found) else s.(rightFound := found)
  }

  /** The attempt is current, for this very peripheral, on its side. */
  predicate Owns(s: Link, p: Peripheral, token: Token) {
    && token.generation == s.generation && token.id == p.id && token.id in s.tokens && s.tokens[token.id] == token
    && Leg(s, token.side) == Some(p)
  }

  /** handleUnexpectedDisconnect; linked says the link is not yet disconnected. */
  function Unexpected(s: Link, p: Peripheral, token: Token, cancel: bool, linked: bool): Link {
    if !Owns(s, p, token) then s else
    SetFound(s.(tokens := s.tokens - {token.id}, ready := s.ready - {p.id}, writes := s.writes - {p.id},
                retired := if cancel && linked then s.retired + {p.id} else s.retired), token.side, false)
  }

  function CutOff(leg: Option<Peripheral>, cancel: bool, linked: bool): set<Uuid> {
    if leg.Some? && cancel && linked then {leg.value.id} else {}
  }

  /** clearConnection; linked tells of each leg whether its link is not yet disconnected. */
  function Clear(s: Link, cancel: bool, leftLinked: bool, rightLinked: bool): Link {
    s.(tokens := map[], ready := {}, writes := map[], leftFound := false, rightFound := false, left := None,
       right := None, name := None,
       retired := s.retired + CutOff(s.left, cancel, leftLinked) + CutOff(s.right, cancel, rightLinked))
  }

  // ----- choosing a pair -----

  /** startScan forgets what was discovered. */
  function StartScan(s: Link): Link {
    s.(paired := map[])
  }

  function Discover(s: Link, key: string, p: Peripheral, side: Side): Link {
    var pair := if key in s.paired then s.paired[key] else Pair(None, None);
    s.(paired := s.paired[key := if side.Left? then pair.(left := Some(p)) else pair.(right := Some(p))])
  }

  predicate Connectable(s: Link, name: string) {
    name in s.paired && s.paired[name].left.Some? && s.paired[name].right.Some?
  }

  function Connect(s: Link, name: string, leftLinked: bool, rightLinked: bool): Link {
    if !Connectable(s, name) then s else
    var next := s.generation + 1;
    Clear(s.(pending := None), true, leftLinked, rightLinked).(generation := next, scheduled := true,
      pending := Some(Pending(name, s.paired[name].left.value, s.paired[name].right.value, next)))
  }

  function Disconnect(s: Link, leftLinked: bool, rightLinked: bool): Link {
    Clear(s.(pending := None), true, leftLinked, rightLinked)
  }

  /** centralManagerDidUpdateState: the radio is gone. */
  function PoweredOff(s: Link): Link {
    Clear(s.(pending := None), false, false, false)
  }

  predicate Blocked(s: Link, c: Pending) {
    c.left.id in s.retired || c.right.id in s.retired
  }

  /** activate: the right leg's token replaces the left's when both legs are one peripheral. */
  function Activate(s: Link, c: Pending, leftNonce: Uuid, rightNonce: Uuid): Link {
    if c.generation != s.generation then s else
    s.(name := Some(c.name), left := Some(c.left), right := Some(c.right),
       tokens :=
         s.tokens[c.left.id := Token(c.left.id, Left, c.generation, leftNonce)][c.right.id :=
           Token(c.right.id, Right, c.generation, rightNonce)])
  }

  /** The block schedulePendingActivationIfReady put on the main queue. */
  function RunScheduled(s: Link, leftNonce: Uuid, rightNonce: Uuid): Link {
    if !s.scheduled then s
    else if s.pending.None? || Blocked(s, s.pending.value) then s.(scheduled := false)
    else Activate(s.(scheduled := false, pending := None), s.pending.value, leftNonce, rightNonce)
  }

  /** didFailToConnect and didDisconnectPeripheral. */
  function Terminal(s: Link, p: Peripheral): Link {
    if p.id in s.retired then
      s.(retired := s.retired - {p.id}, writes := s.writes - {p.id}, ready := s.ready - {p.id}, scheduled := true)
    else if p.id in s.tokens then Unexpected(s, p, s.tokens[p.id], false, false)
    else s
  }

  // ----- writes -----

  datatype Write = Write(link: Link, accepted: bool)

  function Queue(s: Link, id: Uuid): seq<Data> {
    if id in s.writes then s.writes[id] else []
  }

  /** enqueueWrite; open says the peripheral takes a write at once. */
  function Enqueue(s: Link, data: Data, side: Side, open: bool): Write {
    if Leg(s, side).None? || !Found(s, side) then Write(s, false) else
    var p := Leg(s, side).value;
    if p.id !in s.tokens || s.tokens[p.id].side != side || !Owns(s, p, s.tokens[p.id]) || p.id !in s.ready
      then Write(s, false)
    else
      var write := Sent(s.tokens[p.id], data);
      var queue := Queue(s, p.id);
      if open then Write(s.(sent := s.sent + [write], accepted := s.accepted + [write]), true)
      else if |queue| >= 128 then Write(s, false)
      else Write(s.(writes := s.writes[p.id := queue + [data]], accepted := s.accepted + [write]), true)
  }

  /** writeData; without a side both legs are written, the right one whatever became of the left. */
  function WriteData(s: Link, data: Data, side: Option<Side>, leftOpen: bool, rightOpen: bool): Write {
    match side
    case Some(Left) => Enqueue(s, data, Left, leftOpen)
    case Some(Right) => Enqueue(s, data, Right, rightOpen)
    case None =>
      var l := Enqueue(s, data, Left, leftOpen);
      var r := Enqueue(l.link, data, Right, rightOpen);
      Write(r.link, l.accepted && r.accepted)
  }

  /** What the caller of sendData expects to be connected. */
  datatype Expected = Expected(generation: Option<nat>, name: Option<string>)

  function SendData(s: Link, data: Data, side: Option<Side>, expected: Expected, leftOpen: bool,
                    rightOpen: bool): Write {
    if data == [] || (expected.generation.Some? && expected.generation.value != s.generation)
       || (expected.name.Some? && expected.name != s.name) || s.name.None?
    then Write(s, false)
    else WriteData(s, data, side, leftOpen, rightOpen)
  }

  function SentBy(token: Token, queue: seq<Data>): (r: seq<Sent>)
    ensures |r| == |queue|
  {
    seq(|queue|, i requires 0 <= i < |queue| => Sent(token, queue[i]))
  }

  /** drainWrites: room is how many writes the peripheral takes before it closes again. */
  function Drain(s: Link, p: Peripheral, token: Token, room: nat): Link {
    if !Owns(s, p, token) || !Found(s, token.side) || p.id !in s.writes then s else
    var queue := s.writes[p.id];
    var n := if room < |queue| then room else |queue|;
    s.(sent := s.sent + SentBy(token, queue[..n]),
       writes := if n == |queue| then s.writes - {p.id} else s.writes[p.id := queue[n..]])
  }

  // ----- callbacks of one attempt -----

  predicate BothReady(s: Link) {
    s.left.Some? && s.right.Some? && s.left.value.id in s.ready && s.right.value.id in s.ready && s.name.Some?
  }

  /** markReady. */
  function MarkReady(s: Link, p: Peripheral, token: Token, open: bool, linked: bool): Link {
    if !Owns(s, p, token) then s else
    var w := if p.id in s.ready then Write(s, true)
      else Enqueue(s.(ready := s.ready + {p.id}), INITIALIZATION, token.side, open);
    if !w.accepted then Unexpected(s, p, token, true, linked)
    else if BothReady(w.link) then w.link.(announced := w.link.announced + [token.generation])
    else w.link
  }

  /** handleServicesDiscovered: only a failure changes anything. */
  function Services(s: Link, p: Peripheral, token: Token, found: bool, linked: bool): Link {
    if found then s else Unexpected(s, p, token, true, linked)
  }

  function Characteristics(s: Link, p: Peripheral, token: Token, found: bool, linked: bool): Link {
    if !Owns(s, p, token) then s
    else if !found then Unexpected(s, p, token, true, linked)
    else SetFound(s, token.side, true)
  }

  function Notification(s: Link, p: Peripheral, token: Token, notifying: bool, open: bool, linked: bool): Link {
    if !notifying then Unexpected(s, p, token, true, linked) else MarkReady(s, p, token, open, linked)
  }
}
