/** The revocation closure every run of the identity store keeps, and what it means for the final admission check. */
module IdentityTheorems {
  import opened Base
  import opened IdentityTables

  datatype Step =
    | DoAdmit(subject: string)
    | DoChallenge(q: Challenge, ttl: int, nonce: string, now: int)
    | DoAccept(a: Attestation, now: int, final: int)
    | DoSession(subject: string, device: string, audience: string, scopes: seq<string>, ttl: int, id: string, now: int)
    | DoPrepare(w: Wanted, id: string, now: int)
    | DoCommit(claims: Option<Claims>, receipt: string, now: int)
    | DoAbandon(id: string)
    | DoRevoke(target: Target, now: int)

  function Transaction(c: Config, t: Tables, step: Step): Tx {
    match step
    case DoAdmit(subject) => AdmitSubject(c, t, subject)
    case DoChallenge(q, ttl, nonce, now) => IssueChallenge(c, t, q, ttl, nonce, now)
    case DoAccept(a, now, final) => Accept(c, t, a, now, final)
    case DoSession(subject, device, audience, scopes, ttl, id, now) =>
      CreateSession(c, t, subject, device, audience, scopes, ttl, id, now)
    case DoPrepare(w, id, now) => PrepareToken(c, t, w, id, now)
    case DoCommit(claims, receipt, now) => CommitToken(c, t, claims, receipt, now)
    case DoAbandon(id) => AbandonToken(t, id)
    case DoRevoke(target, now) => Revoke(t, target, now)
  }

  function Next(c: Config, t: Tables, step: Step): Tables {
    Transaction(c, t, step).tables
  }

  function Run(c: Config, t: Tables, steps: seq<Step>): Tables
    decreases |steps|
  {
    if steps == [] then t else Run(c, Next(c, t, steps[0]), steps[1..])
  }

  // ----- the closure -----

  predicate Untouched(revocations: map<Target, int>, kind: Kind, id: string) {
    Target(kind, id) !in revocations
  }

  ghost predicate SubjectsClosed(subjects: map<string, bool>, revocations: map<Target, int>) {
    forall k :: k in subjects && subjects[k] ==> Untouched(revocations, SubjectKind, k)
  }

  /** An active device has no tombstone on itself or its subject, and its subject is active. */
  predicate DeviceClosed(k: string, d: Device, subjects: map<string, bool>, revocations: map<Target, int>) {
    d.active ==>
      Untouched(revocations, DeviceKind, k) && Untouched(revocations, SubjectKind, d.subject) && d.subject in subjects
        && subjects[d.subject]
  }

  ghost predicate DevicesClosed(devices: map<string, Device>, subjects: map<string, bool>,
                                revocations: map<Target, int>) {
    forall k :: k in devices ==> DeviceClosed(k, devices[k], subjects, revocations)
  }

  predicate ChallengeClosed(row: ChallengeRow, revocations: map<Target, int>) {
    !row.state.Withdrawn? ==>
      Untouched(revocations, DeviceKind, row.challenge.device)
        && Untouched(revocations, SubjectKind, row.challenge.subject)
  }

  ghost predicate ChallengesClosed(challenges: map<string, ChallengeRow>, revocations: map<Target, int>) {
    forall k :: k in challenges ==> ChallengeClosed(challenges[k], revocations)
  }

  /** An active session has no tombstone, and an active device of the same subject. */
  predicate SessionClosed(k: string, s: Session, devices: map<string, Device>, revocations: map<Target, int>) {
    s.active ==>
      && Untouched(revocations, SessionKind, k) && Untouched(revocations, DeviceKind, s.device)
      && Untouched(revocations, SubjectKind, s.subject)
      && s.device in devices && devices[s.device].active && devices[s.device].subject == s.subject
  }

  ghost predicate SessionsClosed(sessions: map<string, Session>, devices: map<string, Device>,
                                 revocations: map<Target, int>) {
    forall k :: k in sessions ==> SessionClosed(k, sessions[k], devices, revocations)
  }

  /** The token's claims are its row's, and stay inside its session. */
  predicate TokenBound(c: Config, k: string, x: Token, s: Session) {
    var q := x.claims;
    && q.jti == k && q.sub == x.subject && q.device == x.device && q.session == x.session && q.exp == x.expires
    && q.iss == c.issuer
    && q.aud == s.audience && ScopeSet(q.scope) <= s.scopes && x.expires <= s.expires && 0 < q.exp - q.iat <= c.maxTtl
    && x.subject == s.subject && x.device == s.device
  }

  /** A token that is not revoked has no tombstone, and a live session that its claims stay inside. */
  predicate TokenClosed(c: Config, k: string, x: Token, sessions: map<string, Session>, revocations: map<Target, int>) {
    && x.session in sessions && TokenBound(c, k, x, sessions[x.session])
    && (!x.state.Revoked? ==>
          && Untouched(revocations, TokenKind, k) && Untouched(revocations, SessionKind, x.session)
          && Untouched(revocations, DeviceKind, x.device) && Untouched(revocations, SubjectKind, x.subject)
          && sessions[x.session].active)
  }

  ghost predicate TokensClosed(c: Config, tokens: map<string, Token>, sessions: map<string, Session>,
                               revocations: map<Target, int>) {
    forall k :: k in tokens ==> TokenClosed(c, k, tokens[k], sessions, revocations)
  }

  function Count(events: seq<Event>, target: Target): nat {
    if events == [] then 0
    else Count(events[..|events| - 1], target) + (if events[|events| - 1].target == target then 1 else 0)
  }

  /** Every tombstone was announced exactly once. */
  ghost predicate Announced(revocations: map<Target, int>, events: seq<Event>) {
    forall target :: Count(events, target) == if target in revocations then 1 else 0
  }

  ghost predicate Inv(c: Config, t: Tables) {
    && SubjectsClosed(t.subjects, t.revocations)
    && DevicesClosed(t.devices, t.subjects, t.revocations)
    && ChallengesClosed(t.challenges, t.revocations)
    && SessionsClosed(t.sessions, t.devices, t.revocations)
    && TokensClosed(c, t.tokens, t.sessions, t.revocations)
    && Announced(t.revocations, t.events)
  }

  // ----- forward -----

  predicate TokenLater(a: Token, b: Token) {
    && b == a.(state := b.state, receipt := b.receipt)
    && (a.state == b.state || (a.state.Preparing? && !b.state.Preparing?) || b.state.Revoked?)
    && (a.state.Revoked? ==> b == a)
  }

  /** Rows are never forgotten and their bindings never change; nothing inactive comes back, no tombstone is lifted. */
  ghost predicate Forward(t: Tables, t': Tables) {
    && (forall k :: k in t.subjects ==> k in t'.subjects && (t'.subjects[k] ==> t.subjects[k]))
    && (forall k :: k in t.devices ==> k in t'.devices && t'.devices[k] == t.devices[k].(active := t'.devices[k].active)
                                         && (t'.devices[k].active ==> t.devices[k].active))
    && (forall k :: k in t.sessions ==>
      k in t'.sessions && t'.sessions[k] == t.sessions[k].(active := t'.sessions[k].active)
                                         && (t'.sessions[k].active ==> t.sessions[k].active))
    && (forall k :: k in t.tokens ==> k in t'.tokens && TokenLater(t.tokens[k], t'.tokens[k]))
    && (forall x :: x in t.revocations ==> x in t'.revocations && t'.revocations[x] == t.revocations[x])
    && |t.events| <= |t'.events| && t'.events[..|t.events|] == t.events
  }

  lemma Resting(t: Tables)
    ensures Forward(t, t)
  {
  }

  lemma ForwardTransitive(a: Tables, b: Tables, c: Tables)
    requires Forward(a, b) && Forward(b, c)
    ensures Forward(a, c)
  {
    assert c.events[..|a.events|] == b.events[..|a.events|];
  }

  // ----- each transaction -----

  lemma AdmitKeeps(c: Config, t: Tables, subject: string)
    requires Inv(c, t)
    ensures Inv(c, AdmitSubject(c, t, subject).tables) && Forward(t, AdmitSubject(c, t, subject).tables)
  {
    hide Identifier, ChallengesClosed, SessionsClosed, TokensClosed, Announced;
    Resting(t);
  }

  lemma ChallengeKeeps(c: Config, t: Tables, q: Challenge, ttl: int, nonce: string, now: int)
    requires Inv(c, t)
    ensures Inv(c, IssueChallenge(c, t, q, ttl, nonce, now).tables)
    ensures Forward(t, IssueChallenge(c, t, q, ttl, nonce, now).tables)
  {
    hide Identifier, Hex, SubjectsClosed, DevicesClosed, SessionsClosed, TokensClosed, Announced;
    Resting(t);
  }

  lemma AcceptMeans(c: Config, t: Tables, a: Attestation, now: int, final: int, x: Tx)
    requires x == Accept(c, t, a, now, final)
    ensures x.Raised? ==> x.tables == t
    ensures x.Done? ==>
      var q := a.challenge;
      && SubjectLive(t, q.subject) && Untouched(t.revocations, DeviceKind, q.device) && a.nonce in t.challenges
      && t.challenges[a.nonce] == ChallengeRow(q, Issued) && q.device in x.tables.devices
      && x.tables.devices[q.device].active
      && x.tables.devices[q.device].subject == q.subject
      && (q.device in t.devices ==> x.tables.devices[q.device] == t.devices[q.device])
      && x.tables
        == t.(devices := t.devices[q.device := x.tables.devices[q.device]],
              challenges := t.challenges[a.nonce := ChallengeRow(q, Consumed)])
  {
    hide Identifier, Hex, Fresh;
  }

  lemma AcceptKeeps(c: Config, t: Tables, a: Attestation, now: int, final: int)
    requires Inv(c, t)
    ensures Inv(c, Accept(c, t, a, now, final).tables) && Forward(t, Accept(c, t, a, now, final).tables)
  {
    hide Accept, SubjectsClosed, TokensClosed, Announced;
    var x := Accept(c, t, a, now, final);
    AcceptMeans(c, t, a, now, final, x);
    Resting(t);
  }

  lemma CreateMeans(c: Config, t: Tables, subject: string, device: string, audience: string, scopes: seq<string>,
                    ttl: int, id: string, now: int, x: Tx)
    requires x == CreateSession(c, t, subject, device, audience, scopes, ttl, id, now)
    ensures x.Raised? ==> x.tables == t
    ensures x.Done? ==>
      && DeviceLive(t, subject, device) && Untouched(t.revocations, SessionKind, id) && id !in t.sessions
      && x.tables == t.(sessions := t.sessions[id :=
           Session(subject, device, audience, ScopeSet(scopes), now + ttl, true)])
  {
    hide Identifier, ScopeFault, ScopeSet;
  }

  lemma SessionKeeps(c: Config, t: Tables, subject: string, device: string, audience: string, scopes: seq<string>,
                     ttl: int, id: string, now: int)
    requires Inv(c, t)
    ensures var t' := CreateSession(c, t, subject, device, audience, scopes, ttl, id, now).tables;
      Inv(c, t') && Forward(t, t')
  {
    hide CreateSession, ScopeSet, SubjectsClosed, DevicesClosed, ChallengesClosed, Announced, SessionsClosed,
      TokensClosed;
    Resting(t);
    var x := CreateSession(c, t, subject, device, audience, scopes, ttl, id, now);
    CreateMeans(c, t, subject, device, audience, scopes, ttl, id, now, x);
    if x.Done? { SessionAppears(c, t, id, x.tables.sessions[id]); }
  }

  lemma SessionAppears(c: Config, t: Tables, id: string, s: Session)
    requires SessionsClosed(t.sessions, t.devices, t.revocations) && id !in t.sessions
    requires TokensClosed(c, t.tokens, t.sessions, t.revocations) && SessionClosed(id, s, t.devices, t.revocations)
    ensures SessionsClosed(t.sessions[id := s], t.devices, t.revocations)
    ensures TokensClosed(c, t.tokens, t.sessions[id := s], t.revocations)
  {
    hide SessionClosed, TokenBound;
  }

  lemma PrepareMeans(c: Config, t: Tables, w: Wanted, id: string, now: int, x: Tx)
    requires x == PrepareToken(c, t, w, id, now)
    ensures x.Raised? ==> x.tables == t
    ensures x.Done? ==>
      && SessionLive(t, w.subject, w.device, w.session, now) && id !in t.tokens
      && Untouched(t.revocations, TokenKind, id)
      && w.audience == t.sessions[w.session].audience && ScopeSet(w.scopes) <= t.sessions[w.session].scopes
      && now + w.ttl <= t.sessions[w.session].expires && 1 <= w.ttl <= c.maxTtl
      && x.tables
        == t.(tokens :=
          t.tokens[id := Token(w.subject, w.device, w.session, ClaimsOf(c, w, id, now), now + w.ttl, Preparing, None)])
  {
    hide Identifier, ScopeFault, ScopeSet, Sorted;
  }

  lemma {:induction false} InsertedSet(sorted: seq<string>, value: string)
    ensures ScopeSet(Inserted(sorted, value)) == ScopeSet(sorted) + {value}
  {
    hide Precedes;
    if sorted == [] || !Precedes(sorted[0], value) {
      AppendedSet([value], sorted);
    } else {
      AppendedSet([sorted[0]], sorted[1..]);
      AppendedSet([sorted[0]], Inserted(sorted[1..], value));
      assert sorted == [sorted[0]] + sorted[1..];
      InsertedSet(sorted[1..], value);
    }
  }

  lemma AppendedSet(a: seq<string>, b: seq<string>)
    ensures ScopeSet(a + b) == ScopeSet(a) + ScopeSet(b)
    ensures |a| == 1 ==> ScopeSet(a) == {a[0]}
  {
    forall x | x in ScopeSet(a + b) ensures x in ScopeSet(a) + ScopeSet(b) {
      var i :| 0 <= i < |a + b| && (a + b)[i] == x;
      if i < |a| { assert a[i] == x; } else { assert b[i - |a|] == x; }
    }
    forall x | x in ScopeSet(a) ensures x in ScopeSet(a + b) {
      var i :| 0 <= i < |a| && a[i] == x;
      assert (a + b)[i] == x;
    }
    forall x | x in ScopeSet(b) ensures x in ScopeSet(a + b) {
      var i :| 0 <= i < |b| && b[i] == x;
      assert (a + b)[|a| + i] == x;
    }
  }

  lemma {:induction false} SortedSet(values: seq<string>)
    ensures ScopeSet(Sorted(values)) == ScopeSet(values)
  {
    if values != [] {
      SortedSet(values[1..]);
      InsertedSet(Sorted(values[1..]), values[0]);
      assert values == [values[0]] + values[1..];
      AppendedSet([values[0]], values[1..]);
    }
  }

  lemma PrepareKeeps(c: Config, t: Tables, w: Wanted, id: string, now: int)
    requires Inv(c, t)
    ensures Inv(c, PrepareToken(c, t, w, id, now).tables) && Forward(t, PrepareToken(c, t, w, id, now).tables)
  {
    hide PrepareToken, ScopeSet, Sorted, SubjectsClosed, DevicesClosed, ChallengesClosed, Announced;
    var x := PrepareToken(c, t, w, id, now);
    PrepareMeans(c, t, w, id, now, x);
    Resting(t);
    SortedSet(w.scopes);
  }

  /** What passing the shared claim check says. */
  lemma ClaimsMean(c: Config, t: Tables, claims: Option<Claims>, now: int)
    requires ClaimsFault(c, t, claims, now).None?
    ensures claims.Some? && var q := claims.value;
      && q.jti in t.tokens && t.tokens[q.jti].claims == q && Untouched(t.revocations, TokenKind, q.jti)
      && q.iat <= now < q.exp
      && SessionLive(t, q.sub, q.device, q.session, now)
      && t.tokens[q.jti].subject == q.sub && t.tokens[q.jti].device == q.device && t.tokens[q.jti].session == q.session
  {
    hide Identifier, ScopeFault, ScopeSet;
  }

  /** One token moves on and stays closed. */
  lemma TokenMoves(c: Config, t: Tables, id: string, x: Token)
    requires Inv(c, t) && id in t.tokens
    requires TokenClosed(c, id, x, t.sessions, t.revocations) && TokenLater(t.tokens[id], x)
    ensures Inv(c, t.(tokens := t.tokens[id := x])) && Forward(t, t.(tokens := t.tokens[id := x]))
  {
    hide TokenClosed, SubjectsClosed, DevicesClosed, ChallengesClosed, SessionsClosed, Announced;
    Resting(t);
    hide TokenLater;
  }

  lemma TokenKnown(c: Config, t: Tables, id: string)
    requires Inv(c, t) && id in t.tokens
    ensures TokenClosed(c, id, t.tokens[id], t.sessions, t.revocations)
  {
    hide TokenClosed, SubjectsClosed, DevicesClosed, ChallengesClosed, SessionsClosed, Announced;
  }

  /** An open token keeps what closes it when only its state and receipt move. */
  lemma StateMoves(c: Config, id: string, x: Token, state: TokenState, receipt: Option<string>,
                   sessions: map<string, Session>, revocations: map<Target, int>)
    requires TokenClosed(c, id, x, sessions, revocations) && x.state.Preparing? && !state.Preparing?
    ensures TokenClosed(c, id, x.(state := state, receipt := receipt), sessions, revocations)
    ensures TokenLater(x, x.(state := state, receipt := receipt))
  {
    hide ScopeSet;
  }

  lemma CommitKeeps(c: Config, t: Tables, claims: Option<Claims>, receipt: string, now: int)
    requires Inv(c, t)
    ensures Inv(c, CommitToken(c, t, claims, receipt, now).tables)
    ensures Forward(t, CommitToken(c, t, claims, receipt, now).tables)
  {
    hide Identifier, ClaimsFault, Inv, Forward, TokenClosed, TokenLater;
    Resting(t);
    if CommitToken(c, t, claims, receipt, now).Done? {
      ClaimsKnown(c, t, claims, now);
      var id := claims.value.jti;
      TokenKnown(c, t, id);
      StateMoves(c, id, t.tokens[id], Active, Some(receipt), t.sessions, t.revocations);
      TokenMoves(c, t, id, t.tokens[id].(state := Active, receipt := Some(receipt)));
    }
  }

  lemma AbandonKeeps(c: Config, t: Tables, id: string)
    requires Inv(c, t)
    ensures Inv(c, AbandonToken(t, id).tables) && Forward(t, AbandonToken(t, id).tables)
  {
    hide Identifier, Inv, Forward, TokenClosed, TokenLater;
    Resting(t);
    if id in t.tokens && t.tokens[id].state.Preparing? {
      TokenKnown(c, t, id);
      StateMoves(c, id, t.tokens[id], Indeterminate, t.tokens[id].receipt, t.sessions, t.revocations);
      TokenMoves(c, t, id, t.tokens[id].(state := Indeterminate));
    }
  }

  // ----- revoking -----

  lemma RevokeClosed(c: Config, t: Tables, target: Target, revocations: map<Target, int>)
    requires Inv(c, t) && revocations.Keys == t.revocations.Keys + {target}
    ensures SubjectsClosed(RevokeSubjects(t, target), revocations)
    ensures DevicesClosed(RevokeDevices(t.devices, target), RevokeSubjects(t, target), revocations)
    ensures ChallengesClosed(RevokeChallenges(t.challenges, target), revocations)
  {
    hide SessionsClosed, TokensClosed, Announced;
  }

  lemma RevokeSessionsClosed(c: Config, t: Tables, target: Target, revocations: map<Target, int>)
    requires Inv(c, t) && revocations.Keys == t.revocations.Keys + {target}
    ensures SessionsClosed(RevokeSessions(t.sessions, target), RevokeDevices(t.devices, target), revocations)
  {
    hide SubjectsClosed, ChallengesClosed, DevicesClosed, TokensClosed, Announced;
    forall k | k in t.sessions
      ensures SessionClosed(k, RevokeSessions(t.sessions, target)[k], RevokeDevices(t.devices, target), revocations)
    {
      assert SessionClosed(k, t.sessions[k], t.devices, t.revocations);
    }
    hide SessionClosed;
  }

  lemma RevokeTokensClosed(c: Config, t: Tables, target: Target, revocations: map<Target, int>)
    requires Inv(c, t) && revocations.Keys == t.revocations.Keys + {target}
    ensures TokensClosed(c, RevokeTokens(t.tokens, target), RevokeSessions(t.sessions, target), revocations)
  {
    hide SubjectsClosed, ChallengesClosed, DevicesClosed, SessionsClosed, Announced, ScopeSet;
    forall k | k in t.tokens
      ensures TokenClosed(c, k, RevokeTokens(t.tokens, target)[k], RevokeSessions(t.sessions, target), revocations)
    {
      assert TokenClosed(c, k, t.tokens[k], t.sessions, t.revocations);
    }
    hide TokenClosed;
  }

  lemma AnnouncedGrows(revocations: map<Target, int>, events: seq<Event>, target: Target, now: int)
    requires Announced(revocations, events) && target !in revocations
    ensures Announced(revocations[target := now], events + [Event(target, now)])
  {
    assert (events + [Event(target, now)])[..|events|] == events;
  }

  lemma RevokeForward(t: Tables, target: Target, now: int)
    ensures Forward(t, Revoke(t, target, now).tables)
  {
    hide Identifier;
    Resting(t);
  }

  lemma RevokeKeeps(c: Config, t: Tables, target: Target, now: int)
    requires Inv(c, t)
    ensures Inv(c, Revoke(t, target, now).tables)
  {
    hide SubjectsClosed, ChallengesClosed, DevicesClosed, SessionsClosed, TokensClosed, Announced, Identifier,
      RevokeSubjects, RevokeDevices, RevokeChallenges, RevokeSessions, RevokeTokens;
    var x := Revoke(t, target, now);
    if x.Done? {
      RevokeClosed(c, t, target, x.tables.revocations);
      RevokeSessionsClosed(c, t, target, x.tables.revocations);
      RevokeTokensClosed(c, t, target, x.tables.revocations);
      if target !in t.revocations { AnnouncedGrows(t.revocations, t.events, target, now); }
    }
  }

  // ----- every step, every run -----

  lemma NextKeeps(c: Config, t: Tables, step: Step)
    requires Inv(c, t)
    ensures Inv(c, Next(c, t, step)) && Forward(t, Next(c, t, step))
  {
    hide Inv, Forward, AdmitSubject, IssueChallenge, Accept, CreateSession, PrepareToken, CommitToken, AbandonToken,
      Revoke;
    match step
    case DoAdmit(subject) => AdmitKeeps(c, t, subject);
    case DoChallenge(q, ttl, nonce, now) => ChallengeKeeps(c, t, q, ttl, nonce, now);
    case DoAccept(a, now, final) => AcceptKeeps(c, t, a, now, final);
    case DoSession(subject, device, audience, scopes, ttl, id, now) =>
      SessionKeeps(c, t, subject, device, audience, scopes, ttl, id, now);
    case DoPrepare(w, id, now) => PrepareKeeps(c, t, w, id, now);
    case DoCommit(claims, receipt, now) => CommitKeeps(c, t, claims, receipt, now);
    case DoAbandon(id) => AbandonKeeps(c, t, id);
    case DoRevoke(target, now) =>
      RevokeKeeps(c, t, target, now);
      RevokeForward(t, target, now);
  }

  lemma {:induction false} RunKeeps(c: Config, t: Tables, steps: seq<Step>)
    requires Inv(c, t)
    ensures Inv(c, Run(c, t, steps)) && Forward(t, Run(c, t, steps))
    decreases |steps|
  {
    hide Inv, Next, Forward;
    Resting(t);
    if steps != [] {
      var t1 := Next(c, t, steps[0]);
      NextKeeps(c, t, steps[0]);
      RunKeeps(c, t1, steps[1..]);
      ForwardTransitive(t, t1, Run(c, t1, steps[1..]));
    }
  }

  ghost predicate Reachable(c: Config, t: Tables) {
    exists steps :: t == Run(c, EMPTY, steps)
  }

  lemma ReachableCloses(c: Config, t: Tables)
    requires Reachable(c, t)
    ensures Inv(c, t)
  {
    hide Run;
    var steps :| t == Run(c, EMPTY, steps);
    RunKeeps(c, EMPTY, steps);
  }

  // ----- theorems -----

  /** Which claims a revocation is about. */
  predicate Names(target: Target, q: Claims) {
    HitsSession(target, q.sub, q.device, q.session) || target == Target(TokenKind, q.jti)
  }

  /**
   * After a revocation of a subject, device, session or token, known or not, and at whatever point of a token's
   * preparation: no token it names is prepared, committed or accepted again.
   */
  lemma RevocationAlwaysWins(c: Config, t: Tables, target: Target, at: int, steps: seq<Step>, w: Wanted, id: string,
                             claims: Option<Claims>, receipt: string, audience: string, required: seq<string>, now: int)
    requires Reachable(c, t) && Revoke(t, target, at).Done?
    ensures var t' := Run(c, Revoke(t, target, at).tables, steps);
      && target in t'.revocations
      && (HitsSession(target, w.subject, w.device, w.session) || target == Target(TokenKind, id) ==>
        PrepareToken(c, t', w, id, now).Raised?)
      && (claims.Some? && Names(target, claims.value) ==>
            CommitToken(c, t', claims, receipt, now).Raised?
              && RequireFault(c, t', claims, audience, required, now).Some?)
  {
    hide Reachable, Inv, Run, Identifier, ClaimsFault, PrepareToken, ScopeFault, ScopeSet;
    ReachableCloses(c, t);
    var t1 := Revoke(t, target, at).tables;
    RevokeKeeps(c, t, target, at);
    RunKeeps(c, t1, steps);
    var t' := Run(c, t1, steps);
    PrepareMeans(c, t', w, id, now, PrepareToken(c, t', w, id, now));
    if ClaimsFault(c, t', claims, now).None? { ClaimsMean(c, t', claims, now); }
  }

  /** The rows the revocation reached, and every row it names that appears later, stay inactive. */
  lemma RevokedStaysInactive(c: Config, t: Tables, target: Target)
    requires Reachable(c, t) && target in t.revocations
    ensures forall k :: k in t.subjects && target == Target(SubjectKind, k) ==> !t.subjects[k]
    ensures forall k :: k in t.devices && HitsDevice(target, t.devices[k].subject, k) ==> !t.devices[k].active
    ensures forall k :: k in t.sessions && HitsSession(target, t.sessions[k].subject, t.sessions[k].device, k) ==>
      !t.sessions[k].active
    ensures forall k :: k in t.tokens && HitsToken(target, t.tokens[k], k) ==> t.tokens[k].state.Revoked?
  {
    hide Reachable, Announced, ScopeSet;
    ReachableCloses(c, t);
  }

  predicate GoodClaims(q: Claims) {
    && Identifier(q.iss) && Identifier(q.aud) && Identifier(q.sub) && Identifier(q.device) && Identifier(q.session)
    && Identifier(q.jti)
    && Identifier(q.kid) && ScopeFault(q.scope).None? && Timestamp(q.iat) && Timestamp(q.exp)
  }

  /**
   * In a reachable store the whole final admission comes down to one row: the token is active, its claims are exactly
   * these, they have not expired, and they cover what is asked. Everything else it checks then holds of itself.
   */
  lemma AdmissionIsOneRow(c: Config, t: Tables, q: Claims, audience: string, required: seq<string>, now: int)
    requires Reachable(c, t) && GoodClaims(q) && Identifier(audience) && ScopeFault(required).None? && Clock(now)
    ensures RequireFault(c, t, Some(q), audience, required, now).None? <==>
      && q.jti in t.tokens && t.tokens[q.jti].state.Active? && t.tokens[q.jti].claims == q
      && q.iat <= now < q.exp && q.aud == audience && ScopeSet(required) <= ScopeSet(q.scope)
  {
    hide Reachable, Inv, Identifier, ScopeFault, ScopeSet, ClaimsFault, SessionLive;
    ReachableCloses(c, t);
    if RequireFault(c, t, Some(q), audience, required, now).None? {
      ClaimsMean(c, t, Some(q), now);
    } else if q.jti in t.tokens && t.tokens[q.jti].state.Active? && t.tokens[q.jti].claims == q
      && q.iat <= now < q.exp {
      ActiveAdmits(c, t, q, now);
    }
  }

  lemma ActiveAdmits(c: Config, t: Tables, q: Claims, now: int)
    requires Inv(c, t) && GoodClaims(q) && q.jti in t.tokens && t.tokens[q.jti].state.Active?
    requires t.tokens[q.jti].claims == q && q.iat <= now < q.exp
    ensures ClaimsFault(c, t, Some(q), now).None?
  {
    hide Identifier, ScopeFault, ScopeSet, ChallengesClosed, Announced;
    var x := t.tokens[q.jti];
    assert TokenClosed(c, q.jti, x, t.sessions, t.revocations);
    assert SessionClosed(x.session, t.sessions[x.session], t.devices, t.revocations);
    assert DeviceClosed(x.device, t.devices[x.device], t.subjects, t.revocations);
    hide SubjectsClosed, DevicesClosed, SessionsClosed, TokensClosed;
  }

  /** A token that was abandoned or revoked is never active again, and an active one only ever becomes revoked. */
  lemma TokensOnlyMoveOn(c: Config, t: Tables, k: string, steps: seq<Step>)
    requires Reachable(c, t) && k in t.tokens
    ensures var t' := Run(c, t, steps);
      && k in t'.tokens && t'.tokens[k].claims == t.tokens[k].claims && t'.tokens[k].expires == t.tokens[k].expires
      && (t.tokens[k].state.Indeterminate? || t.tokens[k].state.Revoked? ==>
        !t'.tokens[k].state.Active? && !t'.tokens[k].state.Preparing?)
      && (t.tokens[k].state.Active? ==> t'.tokens[k].state.Active? || t'.tokens[k].state.Revoked?)
  {
    hide Reachable, Inv, Run;
    ReachableCloses(c, t);
    RunKeeps(c, t, steps);
    assert TokenLater(t.tokens[k], Run(c, t, steps).tokens[k]);
  }

  /** A device's proof is the one it enrolled with: nothing but a review outside this store replaces it. */
  lemma ProofIsForever(c: Config, t: Tables, k: string, steps: seq<Step>)
    requires Reachable(c, t) && k in t.devices
    ensures k in Run(c, t, steps).devices && Run(c, t, steps).devices[k].proof == t.devices[k].proof
    ensures Run(c, t, steps).devices[k].subject == t.devices[k].subject
  {
    hide Reachable, Inv, Run;
    ReachableCloses(c, t);
    RunKeeps(c, t, steps);
  }
}
