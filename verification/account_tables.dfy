/**
 * The account runtime's tables and transactions, one function for each. A token is kept under its own text, its digest
 * being injective; generated identifiers and tokens are parameters.
 */
module AccountTables {
  import opened Base
  import opened JsonBounds

  datatype SubjectState = SubjectActive | SubjectRevoked
  datatype DeviceState = DeviceActive | DeviceLost | DeviceReplaced | DeviceRevoked
  datatype Device = Device(subject: string, state: DeviceState, replacement: Option<string>, registered: int)

  /** Rotated is a token state only. */
  datatype State = Active | Rotated | Revoked | Expired
  datatype Session = Session(subject: string, device: string, state: State, expires: int, generation: nat, created: int)
  datatype Token = Token(session: string, audience: string, scopes: set<string>, policy: string, present: bool,
                         biometric: bool, expires: int, state: State, created: int)
  datatype Pair = Pair(subject: string, device: string, identity: string, state: State, expires: int, generation: nat)
  datatype Revocation = Revocation(subject: string, session: string, device: string, reason: string, at: int,
                                   acknowledged: bool)

  /** A revocation's sequence number is its position, counted from one. */
  datatype Tables = Tables(subjects: map<string, SubjectState>, devices: map<string, Device>,
                           sessions: map<string, Session>, tokens: map<string, Token>, pairs: map<string, Pair>,
                           revocations: seq<Revocation>)

  datatype Config = Config(maxSubjects: nat, maxSessions: nat)

  datatype Code =
    | BindingInvalid | ClockInvalid | SubjectCapacity | SubjectIsRevoked | DeviceConflict | ExpiryInvalid
    | SubjectUnavailable | DeviceUnavailable | SessionCapacity | SessionConflict | SessionUnknown | SessionExpired
    | SessionRevoked | ScopeInvalid | PolicyHashInvalid | IntegrityError | AccessDenied | PairDenied | ReasonInvalid
    | ReplacementInvalid | SequenceInvalid

  datatype Tx = Done(tables: Tables) | Raised(tables: Tables, code: Code)

  const EMPTY := Tables(map[], map[], map[], map[], map[], [])

  predicate Name(s: string) {
    Label(s, 256)
  }

  predicate GoodScopes(scopes: seq<string>) {
    && 0 < |scopes| <= 32
    && (forall i, j :: 0 <= i < j < |scopes| ==> scopes[i] != scopes[j])
    && (forall i :: 0 <= i < |scopes| ==> 1 <= |scopes[i]| <= 128 && Printable(scopes[i]))
  }

  predicate GoodExpiry(expires: int, now: int) {
    now < expires <= 253402300799
  }

  // ----- subjects, devices and sessions -----

  function Register(c: Config, t: Tables, subject: string, device: string, now: int): Tx {
    if !Name(subject) || !Name(device) then Raised(t, BindingInvalid)
    else if !Timestamp(now) then Raised(t, ClockInvalid)
    else if subject !in t.subjects && |t.subjects| >= c.maxSubjects then Raised(t, SubjectCapacity)
    else if subject in t.subjects && !t.subjects[subject].SubjectActive? then Raised(t, SubjectIsRevoked)
    else if device in t.devices && (t.devices[device].subject != subject || !t.devices[device].state.DeviceActive?)
      then Raised(t, DeviceConflict)
    else Done(t.(subjects := t.subjects[subject := SubjectActive],
                 devices := if device in t.devices then t.devices
                   else t.devices[device := Device(subject, DeviceActive, None, now)]))
  }

  function OpenSession(c: Config, t: Tables, subject: string, device: string, expires: int, id: string, now: int): Tx {
    if !Name(subject) || !Name(device) || !Name(id) then Raised(t, BindingInvalid)
    else if !Timestamp(now) then Raised(t, ClockInvalid)
    else if !GoodExpiry(expires, now) then Raised(t, ExpiryInvalid)
    else if subject !in t.subjects || !t.subjects[subject].SubjectActive? then Raised(t, SubjectUnavailable)
    else if device !in t.devices || t.devices[device].subject != subject || !t.devices[device].state.DeviceActive?
      then Raised(t, DeviceUnavailable)
    else if |t.sessions| >= c.maxSessions then Raised(t, SessionCapacity)
    else if id in t.sessions then Raised(t, SessionConflict)
    else Done(t.(sessions := t.sessions[id := Session(subject, device, Active, expires, 1, now)]))
  }

  /**
   * _live_session: an unknown session is one whose joins find nothing. What it writes for an expired one is rolled
   * back.
   */
  function LiveFault(t: Tables, id: string, now: int): Option<Code> {
    if id !in t.sessions || t.sessions[id].device !in t.devices || t.sessions[id].subject !in t.subjects
      then Some(SessionUnknown)
    else if t.sessions[id].expires <= now then Some(SessionExpired)
    else if !t.sessions[id].state.Active? || !t.devices[t.sessions[id].device].state.DeviceActive?
         || !t.subjects[t.sessions[id].subject].SubjectActive?
    then Some(SessionRevoked)
    else None
  }

  function BindPair(t: Tables, id: string, identity: string, expires: int, now: int): Tx {
    if !Name(id) || !Name(identity) then Raised(t, BindingInvalid)
    else if !Timestamp(now) then Raised(t, ClockInvalid)
    else if LiveFault(t, id, now).Some? then Raised(t, LiveFault(t, id, now).value)
    else if !GoodExpiry(expires, now) || expires > t.sessions[id].expires then Raised(t, ExpiryInvalid)
    else
      var generation := if id in t.pairs then t.pairs[id].generation + 1 else 1;
      Done(t.(pairs :=
        t.pairs[id := Pair(t.sessions[id].subject, t.sessions[id].device, identity, Active, expires, generation)]))
  }

  // ----- access tokens -----

  function Rotate(tokens: map<string, Token>, id: string, audience: string): map<string, Token> {
    map k | k in tokens ::
      if tokens[k].session == id && tokens[k].audience == audience && tokens[k].state.Active?
        then tokens[k].(state := Rotated) else tokens[k]
  }

  datatype Access = Access(session: string, audience: string, scopes: seq<string>, policy: string, expires: int,
                           present: bool, biometric: bool)

  function IssueAccess(t: Tables, q: Access, token: string, now: int): Tx {
    if !Name(q.session) || !Name(q.audience) then Raised(t, BindingInvalid)
    else if !GoodScopes(q.scopes) then Raised(t, ScopeInvalid)
    else if !Hex(q.policy) then Raised(t, PolicyHashInvalid)
    else if !Timestamp(now) then Raised(t, ClockInvalid)
    else if LiveFault(t, q.session, now).Some? then Raised(t, LiveFault(t, q.session, now).value)
    else if !GoodExpiry(q.expires, now) || q.expires > t.sessions[q.session].expires then Raised(t, ExpiryInvalid)
    else if token in t.tokens then Raised(t, IntegrityError)
    else Done(t.(tokens := Rotate(t.tokens, q.session, q.audience)[token :=
      Token(q.session, q.audience, set i | 0 <= i < |q.scopes| :: q.scopes[i], q.policy, q.present, q.biometric,
            q.expires, Active, now)]))
  }

  predicate Bearer(s: string) {
    16 <= Utf8Length(s) <= 8192 && Printable(s)
  }

  /** verify_access: why the bearer is not admitted. */
  function VerifyFault(t: Tables, token: string, audience: string, scope: string, now: int): Option<Code> {
    if !Bearer(token) || !Name(audience) || scope == "" then Some(AccessDenied)
    else if !Timestamp(now) then Some(ClockInvalid)
    else if token !in t.tokens || t.tokens[token].session !in t.sessions || !t.tokens[token].state.Active?
      then Some(AccessDenied)
    else if LiveFault(t, t.tokens[token].session, now).Some? then LiveFault(t, t.tokens[token].session, now)
    else
      var x := t.tokens[token];
      if x.expires <= now || x.audience != audience || scope !in x.scopes || x.expires > t.sessions[x.session].expires
        then Some(AccessDenied)
      else None
  }

  /** What verify_access tells of an admitted bearer, and resolve_pair of an active pair. */
  datatype Verified = Verified(subject: string, device: string, session: string, audience: string, scopes: set<string>,
                               expires: int, policy: string, present: bool, biometric: bool)
  datatype Binding = Binding(subject: string, device: string, session: string, identity: string, expires: int)

  /** resolve_pair. */
  function PairFault(t: Tables, subject: string, device: string, id: string, now: int): Option<Code> {
    if !Name(subject) || !Name(device) || !Name(id) then Some(PairDenied)
    else if !Timestamp(now) then Some(ClockInvalid)
    else if LiveFault(t, id, now).Some? then LiveFault(t, id, now)
    else if id !in t.pairs || !t.pairs[id].state.Active? || t.pairs[id].expires <= now || t.pairs[id].subject != subject
         || t.pairs[id].device != device || t.sessions[id].subject != subject || t.sessions[id].device != device
    then Some(PairDenied)
    else None
  }

  // ----- revocation -----

  /** The tokens of a session lose their authority; replacing a device takes those no longer active or rotated too. */
  function RevokeTokens(tokens: map<string, Token>, id: string, every: bool): map<string, Token> {
    map k | k in tokens ::
      if tokens[k].session == id && (every || tokens[k].state.Active? || tokens[k].state.Rotated?)
        then tokens[k].(state := Revoked) else tokens[k]
  }

  function RevokePair(pairs: map<string, Pair>, id: string): map<string, Pair> {
    if id in pairs then pairs[id := pairs[id].(state := Revoked, generation := pairs[id].generation + 1)] else pairs
  }

  /** One session with its tokens, its pair and its event. */
  function Cascade(t: Tables, id: string, reason: string, every: bool, now: int): Tables
    requires id in t.sessions
  {
    var row := t.sessions[id];
    t.(sessions := t.sessions[id := row.(state := Revoked, generation := row.generation + 1)],
       tokens := RevokeTokens(t.tokens, id, every), pairs := RevokePair(t.pairs, id),
       revocations := t.revocations + [Revocation(row.subject, id, row.device, reason, now, false)])
  }

  function RevokeSession(t: Tables, id: string, reason: string, now: int): Tx {
    if !Name(id) then Raised(t, BindingInvalid)
    else if !Name(reason) then Raised(t, ReasonInvalid)
    else if !Timestamp(now) then Raised(t, ClockInvalid)
    else if id !in t.sessions then Raised(t, SessionUnknown)
    else if t.sessions[id].state.Revoked? then Done(t)
    else Done(Cascade(t, id, reason, false, now))
  }

  predicate Selected(sessions: map<string, Session>, subject: string, device: string, id: string) {
    id in sessions && sessions[id].subject == subject && sessions[id].device == device && sessions[id].state.Active?
  }

  /** The active sessions of a device, in the order the database lists them. */
  function Select(sessions: map<string, Session>, subject: string, device: string, listing: seq<string>): seq<string> {
    if listing == [] then [] else
    var rest := Select(sessions, subject, device, listing[1..]);
    if Selected(sessions, subject, device, listing[0]) then [listing[0]] + rest else rest
  }

  /** The loop of replace_lost_device, over sessions selected before it. */
  function CascadeAll(t: Tables, ids: seq<string>, now: int): (r: Tables)
    requires forall i :: 0 <= i < |ids| ==> ids[i] in t.sessions
    ensures r.sessions.Keys == t.sessions.Keys
  {
    if ids == [] then t else Cascade(CascadeAll(t, ids[..|ids| - 1], now), ids[|ids| - 1], "lost_device", true, now)
  }

  lemma {:induction false} SelectMeans(sessions: map<string, Session>, subject: string, device: string,
                                       listing: seq<string>)
    ensures var ids := Select(sessions, subject, device, listing);
      && (forall id :: id in ids <==> id in listing && Selected(sessions, subject, device, id))
      && (forall i :: 0 <= i < |ids| ==> Selected(sessions, subject, device, ids[i]))
      && ((forall i, j :: 0 <= i < j < |listing| ==> listing[i] != listing[j]) ==>
        forall i, j :: 0 <= i < j < |ids| ==> ids[i] != ids[j])
  {
    if listing != [] {
      SelectMeans(sessions, subject, device, listing[1..]);
      assert listing == [listing[0]] + listing[1..];
    }
  }

  function ReplaceDevice(t: Tables, subject: string, lost: string, replacement: string, listing: seq<string>,
                         now: int): Tx {
    if !Name(subject) || !Name(lost) || !Name(replacement) then Raised(t, BindingInvalid)
    else if lost == replacement then Raised(t, ReplacementInvalid)
    else if !Timestamp(now) then Raised(t, ClockInvalid)
    else if lost !in t.devices || t.devices[lost].subject != subject || !t.devices[lost].state.DeviceActive?
      then Raised(t, DeviceUnavailable)
    else if replacement in t.devices then Raised(t, DeviceConflict)
    else
      var ids := Select(t.sessions, subject, lost, listing);
      SelectMeans(t.sessions, subject, lost, listing);
      var devices := t.devices[lost := t.devices[lost].(state := DeviceReplaced, replacement := Some(replacement))][
                               replacement := Device(subject, DeviceActive, None, now)];
      Done(CascadeAll(t.(devices := devices), ids, now))
  }

  function Acknowledge(t: Tables, sequence: int): Tx {
    if !(1 <= sequence <= |t.revocations|) || t.revocations[sequence - 1].acknowledged then Raised(t, SequenceInvalid)
    else Done(t.(revocations := t.revocations[sequence - 1 := t.revocations[sequence - 1].(acknowledged := true)]))
  }
}
