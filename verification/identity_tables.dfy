/**
 * The durable identity store's tables and transactions, one function for each. Digests are injective: a challenge is
 * kept by its nonce, a token with the claims its digest is of. Generated identifiers are parameters; one already in use
 * makes the insertion fail.
 */
module IdentityTables {
  import opened Base

  datatype Platform = Android | Ios | OtherPlatform

  datatype Device = Device(subject: string, proof: string, platform: Platform, application: string, signer: string,
                           active: bool, registered: int)

  datatype ChallengeState = Issued | Consumed | Withdrawn
  datatype Challenge = Challenge(subject: string, device: string, platform: Platform, application: string,
                                 signer: string, expires: int)
  datatype ChallengeRow = ChallengeRow(challenge: Challenge, state: ChallengeState)

  datatype Session = Session(subject: string, device: string, audience: string, scopes: set<string>, expires: int,
                             active: bool)

  datatype Claims = Claims(iss: string, aud: string, sub: string, device: string, session: string, jti: string,
                           scope: seq<string>, iat: int, exp: int, kid: string)
  datatype TokenState = Preparing | Active | Indeterminate | Revoked
  datatype Token = Token(subject: string, device: string, session: string, claims: Claims, expires: int,
                         state: TokenState, receipt: Option<string>)

  datatype Kind = SubjectKind | DeviceKind | SessionKind | TokenKind
  datatype Target = Target(kind: Kind, id: string)
  datatype Event = Event(target: Target, at: int)

  /** subjects maps to whether the subject is active; an event's sequence number is its position, counted from one. */
  datatype Tables = Tables(subjects: map<string, bool>, devices: map<string, Device>,
                           challenges: map<string, ChallengeRow>, sessions: map<string, Session>,
                           tokens: map<string, Token>, revocations: map<Target, int>, events: seq<Event>)

  datatype Config = Config(issuer: string, allowed: set<string>, maxRows: nat, maxTtl: nat)

  datatype Code =
    | BindingInvalid | DigestInvalid | TtlInvalid | ScopeInvalid | ScopeDuplicate | PlatformInvalid | ClockInvalid
    | Capacity | SubjectUnavailable | SubjectRevoked | DeviceUnavailable | DeviceRevoked | DeviceConflict
    | SessionUnavailable | ChallengeBinding | ChallengeSpent | AttestationStale | RecoveryRequired | ClockRollback
    | ScopeNotAllowed | Escalation | TokenOutlivesSession | Collision | IntegrityError | ClaimsInvalid
    | TimeOrIssuerInvalid | TokenBinding | TokenNotPrepared | TokenNotActive | Insufficient

  datatype Tx = Done(tables: Tables) | Raised(tables: Tables, code: Code)

  const EMPTY := Tables(map[], map[], map[], map[], map[], map[], [])

  predicate Clock(now: int) {
    0 <= now <= 253402214399
  }

  function ScopeSet(values: seq<string>): set<string> {
    set i | 0 <= i < |values| :: values[i]
  }

  function ScopeFault(values: seq<string>): Option<Code> {
    if !(1 <= |values| <= 32) then Some(ScopeInvalid)
    else if exists i :: 0 <= i < |values| && !Identifier(values[i], 128) then Some(BindingInvalid)
    else if |ScopeSet(values)| != |values| then Some(ScopeDuplicate)
    else None
  }

  function Inserted(sorted: seq<string>, value: string): seq<string> {
    if sorted == [] || !Precedes(sorted[0], value) then [value] + sorted else [sorted[0]] + Inserted(sorted[1..], value)
  }

  /** The scopes in order, as they are stored and claimed. */
  function Sorted(values: seq<string>): seq<string> {
    if values == [] then [] else Inserted(Sorted(values[1..]), values[0])
  }

  // ----- admission checks -----

  predicate SubjectLive(t: Tables, subject: string) {
    subject in t.subjects && t.subjects[subject] && Target(SubjectKind, subject) !in t.revocations
  }

  predicate DeviceLive(t: Tables, subject: string, device: string) {
    && SubjectLive(t, subject) && device in t.devices && t.devices[device].subject == subject
    && t.devices[device].active
    && Target(DeviceKind, device) !in t.revocations
  }

  predicate SessionLive(t: Tables, subject: string, device: string, session: string, now: int) {
    && DeviceLive(t, subject, device) && session in t.sessions && t.sessions[session].subject == subject
    && t.sessions[session].device == device && t.sessions[session].active && t.sessions[session].expires > now
    && Target(SessionKind, session) !in t.revocations
  }

  /** _device and _session name the first thing that is missing. */
  function DeviceFault(t: Tables, subject: string, device: string): Option<Code> {
    if !SubjectLive(t, subject) then Some(SubjectUnavailable)
    else if !DeviceLive(t, subject, device) then Some(DeviceUnavailable) else None
  }

  function SessionFault(t: Tables, subject: string, device: string, session: string, now: int): Option<Code> {
    if DeviceFault(t, subject, device).Some? then DeviceFault(t, subject, device)
    else if !SessionLive(t, subject, device, session, now) then Some(SessionUnavailable)
    else None
  }

  // ----- transactions -----

  function AdmitSubject(c: Config, t: Tables, subject: string): Tx {
    if !Identifier(subject) then Raised(t, BindingInvalid)
    else if Target(SubjectKind, subject) in t.revocations then Raised(t, SubjectRevoked)
    else if subject !in t.subjects then
      if |t.subjects| >= c.maxRows then Raised(t, Capacity) else Done(t.(subjects := t.subjects[subject := true]))
    else if !t.subjects[subject] then Raised(t, SubjectRevoked)
    else Done(t)
  }

  function IssueChallenge(c: Config, t: Tables, q: Challenge, ttl: int, nonce: string, now: int): Tx {
    if !Identifier(q.subject) || !Identifier(q.device) || !Identifier(q.application) then Raised(t, BindingInvalid)
    else if !Hex(q.signer) then Raised(t, DigestInvalid)
    else if q.platform.OtherPlatform? then Raised(t, PlatformInvalid)
    else if !(1 <= ttl <= 300) then Raised(t, TtlInvalid)
    else if !Clock(now) then Raised(t, ClockInvalid)
    else if !SubjectLive(t, q.subject) then Raised(t, SubjectUnavailable)
    else if Target(DeviceKind, q.device) in t.revocations then Raised(t, DeviceRevoked)
    else if q.device in t.devices && (t.devices[q.device].subject != q.subject || !t.devices[q.device].active)
      then Raised(t, DeviceConflict)
    else if |t.challenges| >= c.maxRows then Raised(t, Capacity)
    else if nonce in t.challenges then Raised(t, IntegrityError)
    else Done(t.(challenges := t.challenges[nonce := ChallengeRow(q.(expires := now + ttl), Issued)]))
  }

  predicate Fresh(verified: int, expires: int, challengeExpires: int, now: int) {
    Timestamp(verified) && Timestamp(expires) && now - 120 <= verified <= now < expires <= challengeExpires
  }

  datatype Attestation = Attestation(nonce: string, challenge: Challenge, proof: string, receipt: string, verified: int,
                                     expires: int)

  /** accept_attestation; final is the clock read again after the writes. */
  function Accept(c: Config, t: Tables, a: Attestation, now: int, final: int): Tx {
    var q := a.challenge;
    if !Identifier(a.nonce, 128) then Raised(t, BindingInvalid)
    else if !Hex(a.proof) then Raised(t, DigestInvalid)
    else if !Identifier(a.receipt) then Raised(t, BindingInvalid)
    else if !Clock(now) then Raised(t, ClockInvalid)
    else if !SubjectLive(t, q.subject) then Raised(t, SubjectUnavailable)
    else if a.nonce !in t.challenges || t.challenges[a.nonce].challenge != q then Raised(t, ChallengeBinding)
    else if !t.challenges[a.nonce].state.Issued? || q.expires <= now then Raised(t, ChallengeSpent)
    else if !Fresh(a.verified, a.expires, q.expires, now) then Raised(t, AttestationStale)
    else if Target(DeviceKind, q.device) in t.revocations then Raised(t, DeviceRevoked)
    else if q.device in t.devices && (var d := t.devices[q.device];
              !d.active || d.subject != q.subject || d.platform != q.platform || d.application != q.application
                || d.signer != q.signer)
    then Raised(t, DeviceConflict)
    else if q.device in t.devices && t.devices[q.device].proof != a.proof then Raised(t, RecoveryRequired)
    else if q.device !in t.devices && |t.devices| >= c.maxRows then Raised(t, Capacity)
    else if !Clock(final) then Raised(t, ClockInvalid)
    else if final < now then Raised(t, ClockRollback)
    else if !Fresh(a.verified, a.expires, q.expires, final) then Raised(t, AttestationStale)
    else
      var device := if q.device in t.devices then t.devices[q.device]
                    else Device(q.subject, a.proof, q.platform, q.application, q.signer, true, now);
      Done(t.(devices := t.devices[q.device := device],
              challenges := t.challenges[a.nonce := ChallengeRow(q, Consumed)]))
  }

  function CreateSession(c: Config, t: Tables, subject: string, device: string, audience: string, scopes: seq<string>,
                         ttl: int, id: string, now: int): Tx {
    if !Identifier(subject) || !Identifier(device) || !Identifier(audience) then Raised(t, BindingInvalid)
    else if ScopeFault(scopes).Some? then Raised(t, ScopeFault(scopes).value)
    else if !(ScopeSet(scopes) <= c.allowed) then Raised(t, ScopeNotAllowed)
    else if !(1 <= ttl <= 86400) then Raised(t, TtlInvalid)
    else if !Clock(now) then Raised(t, ClockInvalid)
    else if DeviceFault(t, subject, device).Some? then Raised(t, DeviceFault(t, subject, device).value)
    else if |t.sessions| >= c.maxRows then Raised(t, Capacity)
    else if Target(SessionKind, id) in t.revocations then Raised(t, Collision)
    else if id in t.sessions then Raised(t, IntegrityError)
    else Done(t.(sessions := t.sessions[id := Session(subject, device, audience, ScopeSet(scopes), now + ttl, true)]))
  }

  datatype Wanted = Wanted(subject: string, device: string, session: string, audience: string, scopes: seq<string>,
                           keyId: string, ttl: int)

  function ClaimsOf(c: Config, w: Wanted, id: string, now: int): Claims {
    Claims(c.issuer, w.audience, w.subject, w.device, w.session, id, Sorted(w.scopes), now, now + w.ttl, w.keyId)
  }

  function PrepareToken(c: Config, t: Tables, w: Wanted, id: string, now: int): Tx {
    if !Identifier(w.subject) || !Identifier(w.device) || !Identifier(w.session) || !Identifier(w.audience)
      || !Identifier(w.keyId)
    then Raised(t, BindingInvalid)
    else if ScopeFault(w.scopes).Some? then Raised(t, ScopeFault(w.scopes).value)
    else if !(1 <= w.ttl <= c.maxTtl) then Raised(t, TtlInvalid)
    else if !Clock(now) then Raised(t, ClockInvalid)
    else if SessionFault(t, w.subject, w.device, w.session, now).Some?
      then Raised(t, SessionFault(t, w.subject, w.device, w.session, now).value)
    else
      var session := t.sessions[w.session];
      if w.audience != session.audience || !(ScopeSet(w.scopes) <= session.scopes) then Raised(t, Escalation)
      else if now + w.ttl > session.expires then Raised(t, TokenOutlivesSession)
      else if Target(TokenKind, id) in t.revocations then Raised(t, Collision)
      else if |t.tokens| >= c.maxRows then Raised(t, Capacity)
      else if id in t.tokens then Raised(t, IntegrityError)
      else
        var token := Token(w.subject, w.device, w.session, ClaimsOf(c, w, id, now), now + w.ttl, Preparing, None);
        Done(t.(tokens := t.tokens[id := token]))
  }

  /** _claims; None stands for a value without exactly the claim fields. */
  function ClaimsFault(c: Config, t: Tables, claims: Option<Claims>, now: int): Option<Code> {
    if claims.None? then Some(ClaimsInvalid) else
    var q := claims.value;
    if !Identifier(q.iss) || !Identifier(q.aud) || !Identifier(q.sub) || !Identifier(q.device) || !Identifier(q.session)
      || !Identifier(q.jti)
       || !Identifier(q.kid)
    then Some(BindingInvalid)
    else if ScopeFault(q.scope).Some? then ScopeFault(q.scope)
    else if !Timestamp(q.iat) || !Timestamp(q.exp) || !(0 < q.exp - q.iat <= c.maxTtl) || q.iat > now || q.exp <= now
      || q.iss != c.issuer
    then Some(TimeOrIssuerInvalid)
    else if SessionFault(t, q.sub, q.device, q.session, now).Some? then SessionFault(t, q.sub, q.device, q.session, now)
    else
      var session := t.sessions[q.session];
      if q.aud != session.audience || q.exp > session.expires || !(ScopeSet(q.scope) <= session.scopes)
        then Some(Escalation)
      else if q.jti !in t.tokens || Target(TokenKind, q.jti) in t.revocations || t.tokens[q.jti].claims != q
        || t.tokens[q.jti].subject != q.sub
           || t.tokens[q.jti].device != q.device || t.tokens[q.jti].session != q.session
           || t.tokens[q.jti].expires != q.exp
      then Some(TokenBinding)
      else None
  }

  lemma ClaimsKnown(c: Config, t: Tables, claims: Option<Claims>, now: int)
    requires ClaimsFault(c, t, claims, now).None?
    ensures claims.Some? && claims.value.jti in t.tokens
  {
    hide Identifier, ScopeFault, SessionFault;
  }

  function CommitToken(c: Config, t: Tables, claims: Option<Claims>, receipt: string, now: int): Tx {
    if !Identifier(receipt) then Raised(t, BindingInvalid)
    else if !Clock(now) then Raised(t, ClockInvalid)
    else if ClaimsFault(c, t, claims, now).Some? then Raised(t, ClaimsFault(c, t, claims, now).value)
    else
      ClaimsKnown(c, t, claims, now);
      var id := claims.value.jti;
      if !t.tokens[id].state.Preparing? then Raised(t, TokenNotPrepared)
      else Done(t.(tokens := t.tokens[id := t.tokens[id].(state := Active, receipt := Some(receipt))]))
  }

  function AbandonToken(t: Tables, id: string): Tx {
    if !Identifier(id) then Raised(t, BindingInvalid)
    else if id !in t.tokens || !t.tokens[id].state.Preparing? then Done(t)
    else Done(t.(tokens := t.tokens[id := t.tokens[id].(state := Indeterminate)]))
  }

  /** require_token: why the token is not accepted for this audience and these scopes. */
  function RequireFault(c: Config, t: Tables, claims: Option<Claims>, audience: string, required: seq<string>,
                        now: int): Option<Code> {
    if !Identifier(audience) then Some(BindingInvalid)
    else if ScopeFault(required).Some? then ScopeFault(required)
    else if !Clock(now) then Some(ClockInvalid)
    else if ClaimsFault(c, t, claims, now).Some? then ClaimsFault(c, t, claims, now)
    else
      ClaimsKnown(c, t, claims, now);
      if !t.tokens[claims.value.jti].state.Active? then Some(TokenNotActive)
      else if claims.value.aud != audience || !(ScopeSet(required) <= ScopeSet(claims.value.scope))
        then Some(Insufficient)
      else None
  }

  // ----- revocation -----

  function RevokeSubjects(t: Tables, target: Target): map<string, bool> {
    map k | k in t.subjects :: t.subjects[k] && target != Target(SubjectKind, k)
  }

  predicate HitsDevice(target: Target, subject: string, device: string) {
    target == Target(SubjectKind, subject) || target == Target(DeviceKind, device)
  }

  predicate HitsSession(target: Target, subject: string, device: string, session: string) {
    HitsDevice(target, subject, device) || target == Target(SessionKind, session)
  }

  predicate HitsToken(target: Target, token: Token, id: string) {
    HitsSession(target, token.subject, token.device, token.session) || target == Target(TokenKind, id)
  }

  function RevokeDevices(devices: map<string, Device>, target: Target): map<string, Device> {
    map k | k in devices :: if HitsDevice(target, devices[k].subject, k) then devices[k].(active := false)
      else devices[k]
  }

  function RevokeChallenges(challenges: map<string, ChallengeRow>, target: Target): map<string, ChallengeRow> {
    map k | k in challenges :: var row := challenges[k];
      if HitsDevice(target, row.challenge.subject, row.challenge.device) then row.(state := Withdrawn) else row
  }

  function RevokeSessions(sessions: map<string, Session>, target: Target): map<string, Session> {
    map k | k in sessions :: var row := sessions[k];
      if HitsSession(target, row.subject, row.device, k) then row.(active := false) else row
  }

  function RevokeTokens(tokens: map<string, Token>, target: Target): map<string, Token> {
    map k | k in tokens :: if HitsToken(target, tokens[k], k) then tokens[k].(state := Revoked) else tokens[k]
  }

  /** revoke: the tombstone first, for an unknown id too and whatever the capacity; then every row it reaches. */
  function Revoke(t: Tables, target: Target, now: int): Tx {
    if !Identifier(target.id) then Raised(t, BindingInvalid)
    else if !Clock(now) then Raised(t, ClockInvalid)
    else Done(Tables(RevokeSubjects(t, target), RevokeDevices(t.devices, target),
                     RevokeChallenges(t.challenges, target), RevokeSessions(t.sessions, target),
                     RevokeTokens(t.tokens, target),
                     if target in t.revocations then t.revocations else t.revocations[target := now],
                     if target in t.revocations then t.events else t.events + [Event(target, now)]))
  }
}
