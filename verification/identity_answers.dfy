/**
 * What the identity store answers, said of the rows, the tombstones and the clock alone: which attestation enrols a
 * device, which session and token rest on it, what a revocation reaches; and where every row of a run comes from.
 */
module IdentityAnswers {
  import opened Base
  import opened IdentityTables
  import opened IdentityTheorems

  // ----- order -----

  /** a comes before b: it is a proper beginning of b, or smaller at the first place where they differ. */
  ghost predicate Before(a: string, b: string) {
    || (|a| < |b| && a == b[..|a|])
    || exists i :: Differ(a, b, i)
  }

  ghost predicate Differ(a: string, b: string, i: int) {
    0 <= i < |a| && i < |b| && a[..i] == b[..i] && a[i] < b[i]
  }

  lemma BeforeHead(a: string, b: string)
    requires a != "" && b != ""
    ensures a[0] == b[0] ==> (Before(a, b) <==> Before(a[1..], b[1..]))
    ensures a[0] != b[0] ==> (Before(a, b) <==> a[0] < b[0])
  {
    assert b[0] < a[0] || a[0] == b[0] || Differ(a, b, 0);
    if |a| <= |b| && a == b[..|a|] { assert a[0] == b[0] && a[1..] == b[1..][..|a| - 1]; }
    if a[0] == b[0] && |a| <= |b| && a[1..] == b[1..][..|a[1..]|] { assert a == [a[0]] + a[1..] == b[..|a|]; }
    if i :| Differ(a, b, i) {
      if i > 0 {
        assert a[..i][0] == b[..i][0] && a[1..][..i - 1] == a[..i][1..] && b[1..][..i - 1] == b[..i][1..];
        assert Differ(a[1..], b[1..], i - 1);
      }
    }
    if a[0] == b[0] && exists i :: Differ(a[1..], b[1..], i) {
      var i :| Differ(a[1..], b[1..], i);
      assert a[..i + 1] == [a[0]] + a[1..][..i] && b[..i + 1] == [b[0]] + b[1..][..i];
      assert Differ(a, b, i + 1);
    }
  }

  lemma {:induction false} PrecedesIsBefore(a: string, b: string)
    ensures Precedes(a, b) <==> Before(a, b)
    decreases |a|
  {
    if a != "" && b != "" {
      BeforeHead(a, b);
      if a[0] == b[0] { PrecedesIsBefore(a[1..], b[1..]); }
    }
  }

  lemma {:induction false} PrecedesTotal(a: string, b: string)
    ensures a == b || Precedes(a, b) || Precedes(b, a)
    decreases |a|
  {
    if a != "" && b != "" && a[0] == b[0] {
      PrecedesTotal(a[1..], b[1..]);
      assert a == [a[0]] + a[1..] && b == [b[0]] + b[1..];
    }
  }

  /** No value comes after the next. */
  ghost predicate Ascending(s: seq<string>) {
    forall i :: 0 <= i < |s| - 1 ==> s[i] == s[i + 1] || Before(s[i], s[i + 1])
  }

  lemma AscendingFrom(head: string, tail: seq<string>)
    requires Ascending(tail) && (tail != [] ==> head == tail[0] || Before(head, tail[0]))
    ensures Ascending([head] + tail)
  {
    hide Before;
    var s := [head] + tail;
    forall i | 0 <= i < |s| - 1 ensures s[i] == s[i + 1] || Before(s[i], s[i + 1]) {
      if i > 0 { assert s[i] == tail[i - 1] && s[i + 1] == tail[i]; }
    }
  }

  lemma {:induction false} InsertedAscends(sorted: seq<string>, value: string)
    requires Ascending(sorted)
    ensures Ascending(Inserted(sorted, value))
    ensures multiset(Inserted(sorted, value)) == multiset(sorted) + multiset{value}
    ensures Inserted(sorted, value)[0] == value || (sorted != [] && Inserted(sorted, value)[0] == sorted[0])
  {
    hide Before, Precedes;
    if sorted == [] {
    } else if !Precedes(sorted[0], value) {
      PrecedesTotal(sorted[0], value);
      PrecedesIsBefore(value, sorted[0]);
      AscendingFrom(value, sorted);
    } else {
      var rest := sorted[1..];
      assert sorted == [sorted[0]] + rest;
      forall i | 0 <= i < |rest| - 1 ensures rest[i] == rest[i + 1] || Before(rest[i], rest[i + 1]) {
        assert sorted[i + 1] == rest[i] && sorted[i + 2] == rest[i + 1];
      }
      InsertedAscends(rest, value);
      PrecedesIsBefore(sorted[0], value);
      AscendingFrom(sorted[0], Inserted(rest, value));
    }
  }

  /** The scopes a token claims are exactly those asked for, in ascending order. */
  lemma {:induction false} SortedAscends(values: seq<string>)
    ensures Ascending(Sorted(values)) && multiset(Sorted(values)) == multiset(values)
  {
    hide Before;
    if values != [] {
      SortedAscends(values[1..]);
      InsertedAscends(Sorted(values[1..]), values[0]);
      assert values == [values[0]] + values[1..];
    }
  }

  // ----- who is live -----

  /** One to 32 names of at most 128 characters, none twice. */
  ghost predicate Scopes(values: seq<string>) {
    && 1 <= |values| <= 32 && (forall s :: s in values ==> Identifier(s, 128))
    && (forall i, j :: 0 <= i < j < |values| ==> values[i] != values[j])
  }

  lemma {:induction false} DistinctSize(values: seq<string>)
    ensures |ScopeSet(values)| <= |values|
    ensures |ScopeSet(values)| == |values| <==> forall i, j :: 0 <= i < j < |values| ==> values[i] != values[j]
  {
    if values == [] {
      assert ScopeSet(values) == {};
    } else {
      var n := |values| - 1;
      var init := values[..n];
      DistinctSize(init);
      assert ScopeSet(values) == ScopeSet(init) + {values[n]} by {
        assert values == init + [values[n]];
        AppendedSet(init, [values[n]]);
        AppendedSet([values[n]], []);
      }
      if i :| 0 <= i < n && values[i] == values[n] { assert init[i] == values[n]; }
    }
  }

  lemma ScopesIff(values: seq<string>)
    ensures ScopeFault(values).None? <==> Scopes(values)
    ensures ScopeSet(values) == set s | s in values
    ensures forall s :: s in ScopeSet(values) <==> s in values
  {
    hide Identifier;
    DistinctSize(values);
    assert forall s :: s in values ==> exists i :: 0 <= i < |values| && values[i] == s;
  }

  ghost predicate LiveSubject(t: Tables, subject: string) {
    subject in t.subjects && t.subjects[subject] && Target(SubjectKind, subject) !in t.revocations
  }

  /** The device is the subject's own and active, and nobody revoked it or the subject. */
  ghost predicate LiveDevice(t: Tables, subject: string, device: string) {
    && LiveSubject(t, subject) && Target(DeviceKind, device) !in t.revocations
    && device in t.devices && t.devices[device].subject == subject && t.devices[device].active
  }

  /** The session is of this subject and device, active and unexpired, and nobody revoked it or them. */
  ghost predicate LiveSession(t: Tables, subject: string, device: string, session: string, now: int) {
    && LiveDevice(t, subject, device) && Target(SessionKind, session) !in t.revocations && session in t.sessions
    && (var row := t.sessions[session];
        row.subject == subject && row.device == device && row.active && now < row.expires)
  }

  lemma LiveIff(t: Tables, subject: string, device: string, session: string, now: int)
    ensures SubjectLive(t, subject) <==> LiveSubject(t, subject)
    ensures DeviceFault(t, subject, device).None? <==> LiveDevice(t, subject, device)
    ensures SessionFault(t, subject, device, session, now).None? <==> LiveSession(t, subject, device, session, now)
  {
  }

  // ----- enrolment -----

  /** A subject is admitted exactly when it was never revoked and there is room for a new one. */
  lemma AdmitDecides(c: Config, t: Tables, subject: string)
    ensures var x := AdmitSubject(c, t, subject);
      && (x.Done? <==>
            && Identifier(subject) && Target(SubjectKind, subject) !in t.revocations
            && (if subject in t.subjects then t.subjects[subject] else |t.subjects| < c.maxRows))
      && x.tables == if x.Done? then t.(subjects := t.subjects[subject := true]) else t
  {
    hide Identifier;
  }

  /** A challenge is issued exactly for a live subject and a device that is new or its own; it keeps what it asked. */
  lemma ChallengeDecides(c: Config, t: Tables, q: Challenge, ttl: int, nonce: string, now: int)
    ensures var x := IssueChallenge(c, t, q, ttl, nonce, now);
      && (x.Done? <==>
            && Identifier(q.subject) && Identifier(q.device) && Identifier(q.application) && Hex(q.signer)
            && (q.platform == Android || q.platform == Ios) && 1 <= ttl <= 300 && 0 <= now <= 253402214399
            && LiveSubject(t, q.subject) && Target(DeviceKind, q.device) !in t.revocations
            && (q.device in t.devices ==> t.devices[q.device].subject == q.subject && t.devices[q.device].active)
            && |t.challenges| < c.maxRows && nonce !in t.challenges)
      && x.tables == if x.Done? then t.(challenges := t.challenges[nonce := ChallengeRow(
                       Challenge(q.subject, q.device, q.platform, q.application, q.signer, now + ttl), Issued)])
                     else t
  {
    hide Identifier, Hex;
  }

  /** The proof was verified at most two minutes ago and has not run out, nor does it outlive its challenge. */
  ghost predicate Timely(a: Attestation, now: int) {
    0 <= a.verified <= now <= a.verified + 120 && now < a.expires <= a.challenge.expires && a.expires <= 253402300799
  }

  /** The row an attestation enrols. */
  function Enrolled(a: Attestation, registered: int): Device {
    var q := a.challenge;
    Device(q.subject, a.proof, q.platform, q.application, q.signer, true, registered)
  }

  /**
   * An attestation is accepted exactly for the very challenge that was issued under its nonce and is unspent, by a live
   * subject, with a proof that is timely both before and after the writes, for a device that is new or was enrolled
   * with the same binding and proof and never revoked. The challenge is then spent and the device enrolled, and no
   * more.
   */
  lemma AcceptDecides(c: Config, t: Tables, a: Attestation, now: int, final: int)
    ensures var x, q := Accept(c, t, a, now, final), a.challenge;
      && (x.Done? <==>
            && Identifier(a.nonce, 128) && Hex(a.proof) && Identifier(a.receipt)
            && 0 <= now <= final <= 253402214399 && LiveSubject(t, q.subject)
            && a.nonce in t.challenges && t.challenges[a.nonce] == ChallengeRow(q, Issued)
            && Timely(a, now) && Timely(a, final) && Target(DeviceKind, q.device) !in t.revocations
            && (if q.device in t.devices then t.devices[q.device] == Enrolled(a, t.devices[q.device].registered)
                else |t.devices| < c.maxRows))
      && x.tables == if x.Done? then
           t.(devices := t.devices[q.device := Enrolled(a, if q.device in t.devices then t.devices[q.device].registered
                                                           else now)],
              challenges := t.challenges[a.nonce := ChallengeRow(q, Consumed)])
         else t
  {
    hide Identifier, Hex;
  }

  /** Each refusal says what is so: the reason holds of the rows as they are. */
  lemma RefusalIsReal(c: Config, t: Tables, a: Attestation, now: int, final: int)
    ensures var x, q := Accept(c, t, a, now, final), a.challenge;
      x.Raised? ==> match x.code
        case BindingInvalid => !Identifier(a.nonce, 128) || !Identifier(a.receipt)
        case DigestInvalid => !Hex(a.proof)
        case ClockInvalid => !(0 <= now <= 253402214399) || !(0 <= final <= 253402214399)
        case SubjectUnavailable => !LiveSubject(t, q.subject)
        case ChallengeBinding => a.nonce !in t.challenges || t.challenges[a.nonce].challenge != q
        case ChallengeSpent => a.nonce in t.challenges && (t.challenges[a.nonce].state != Issued || q.expires <= now)
        case AttestationStale => !Timely(a, now) || !Timely(a, final)
        case DeviceRevoked => Target(DeviceKind, q.device) in t.revocations
        case DeviceConflict =>
          q.device in t.devices && t.devices[q.device] != Enrolled(a, t.devices[q.device].registered)
        case RecoveryRequired =>
          q.device in t.devices && t.devices[q.device].proof != a.proof
            && t.devices[q.device].(proof := a.proof) == Enrolled(a, t.devices[q.device].registered)
        case Capacity => q.device !in t.devices && |t.devices| >= c.maxRows
        case ClockRollback => final < now
        case _ => false
  {
    hide Identifier, Hex;
  }

  // ----- sessions -----

  /** A session is opened exactly on a live device, for allowed scopes and at most a day. */
  lemma SessionDecides(c: Config, t: Tables, subject: string, device: string, audience: string, scopes: seq<string>,
                       ttl: int, id: string, now: int)
    ensures var x := CreateSession(c, t, subject, device, audience, scopes, ttl, id, now);
      && (x.Done? <==>
            && Identifier(subject) && Identifier(device) && Identifier(audience) && Scopes(scopes)
            && (forall s :: s in scopes ==> s in c.allowed) && 1 <= ttl <= 86400 && 0 <= now <= 253402214399
            && LiveDevice(t, subject, device) && |t.sessions| < c.maxRows
            && Target(SessionKind, id) !in t.revocations && id !in t.sessions)
      && x.tables == if x.Done? then t.(sessions := t.sessions[id :=
                       Session(subject, device, audience, (set s | s in scopes), now + ttl, true)])
                     else t
  {
    hide Identifier, Scopes, ScopeFault, DeviceFault, LiveDevice, ScopeSet;
    ScopesIff(scopes);
    LiveIff(t, subject, device, id, now);
    assert ScopeSet(scopes) <= c.allowed <==> forall s :: s in scopes ==> s in c.allowed;
  }

  // ----- tokens -----

  /** The row a preparation leaves: claims of just what was asked for, its scopes in ascending order. */
  ghost predicate Prepared(c: Config, w: Wanted, id: string, now: int, row: Token) {
    && row == Token(w.subject, w.device, w.session, row.claims, now + w.ttl, Preparing, None)
    && row.claims == Claims(c.issuer, w.audience, w.subject, w.device, w.session, id, row.claims.scope, now,
                            now + w.ttl, w.keyId)
    && Ascending(row.claims.scope) && multiset(row.claims.scope) == multiset(w.scopes)
  }

  /** A token is prepared exactly on a live session that it neither outlives nor goes beyond. */
  lemma PrepareDecides(c: Config, t: Tables, w: Wanted, id: string, now: int)
    ensures var x := PrepareToken(c, t, w, id, now);
      && (x.Done? <==>
            && Identifier(w.subject) && Identifier(w.device) && Identifier(w.session) && Identifier(w.audience)
            && Identifier(w.keyId) && Scopes(w.scopes) && 1 <= w.ttl <= c.maxTtl && 0 <= now <= 253402214399
            && LiveSession(t, w.subject, w.device, w.session, now) && w.audience == t.sessions[w.session].audience
            && (forall s :: s in w.scopes ==> s in t.sessions[w.session].scopes)
            && now + w.ttl <= t.sessions[w.session].expires && Target(TokenKind, id) !in t.revocations
            && |t.tokens| < c.maxRows && id !in t.tokens)
      && (x.Done? ==>
            && id in x.tables.tokens && Prepared(c, w, id, now, x.tables.tokens[id])
            && x.tables == t.(tokens := t.tokens[id := x.tables.tokens[id]]))
      && (x.Raised? ==> x.tables == t)
  {
    hide Identifier, Scopes, ScopeFault, SessionFault, ScopeSet, Sorted, Ascending;
    ScopesIff(w.scopes);
    SortedAscends(w.scopes);
    LiveIff(t, w.subject, w.device, w.session, now);
    if LiveSession(t, w.subject, w.device, w.session, now) {
      assert ScopeSet(w.scopes) <= t.sessions[w.session].scopes
        <==> forall s :: s in w.scopes ==> s in t.sessions[w.session].scopes;
    }
    hide LiveSession;
  }

  /** The claims are sound, within their session and exactly those of a token that was not revoked. */
  ghost predicate Sound(c: Config, t: Tables, q: Claims, now: int) {
    && Identifier(q.iss) && Identifier(q.aud) && Identifier(q.sub) && Identifier(q.device) && Identifier(q.session)
    && Identifier(q.jti) && Identifier(q.kid) && Scopes(q.scope)
    && q.iss == c.issuer && 0 <= q.iat <= now < q.exp <= q.iat + c.maxTtl && q.exp <= 253402300799
    && LiveSession(t, q.sub, q.device, q.session, now)
    && q.aud == t.sessions[q.session].audience && q.exp <= t.sessions[q.session].expires
    && (forall s :: s in q.scope ==> s in t.sessions[q.session].scopes)
    && Target(TokenKind, q.jti) !in t.revocations && q.jti in t.tokens
    && (var row := t.tokens[q.jti];
        row == Token(q.sub, q.device, q.session, q, q.exp, row.state, row.receipt))
  }

  lemma SoundIff(c: Config, t: Tables, claims: Option<Claims>, now: int)
    ensures ClaimsFault(c, t, claims, now).None? <==> claims.Some? && Sound(c, t, claims.value, now)
  {
    hide Identifier, Scopes, ScopeFault, SessionFault, ScopeSet;
    if claims.Some? {
      var q := claims.value;
      ScopesIff(q.scope);
      LiveIff(t, q.sub, q.device, q.session, now);
      if LiveSession(t, q.sub, q.device, q.session, now) {
        assert ScopeSet(q.scope) <= t.sessions[q.session].scopes
          <==> forall s :: s in q.scope ==> s in t.sessions[q.session].scopes;
      }
    }
    hide LiveSession;
  }

  /** A token is committed exactly when it is being prepared and its claims are still sound; it keeps the receipt. */
  lemma CommitDecides(c: Config, t: Tables, claims: Option<Claims>, receipt: string, now: int)
    ensures var x := CommitToken(c, t, claims, receipt, now);
      if && Identifier(receipt) && 0 <= now <= 253402214399 && claims.Some? && Sound(c, t, claims.value, now)
         && t.tokens[claims.value.jti].state == Preparing
      then var id := claims.value.jti;
           x == Done(t.(tokens := t.tokens[id := t.tokens[id].(state := Active, receipt := Some(receipt))]))
      else x.Raised? && x.tables == t
  {
    hide Identifier, ClaimsFault;
    SoundIff(c, t, claims, now);
    hide Scopes, LiveSession;
  }

  /** Abandoning leaves a token that is being prepared indeterminate, and any other as it is. */
  lemma AbandonDecides(t: Tables, id: string)
    ensures AbandonToken(t, id).Done? <==> Identifier(id)
    ensures AbandonToken(t, id).tables ==
      if Identifier(id) && id in t.tokens && t.tokens[id].state == Preparing
      then t.(tokens := t.tokens[id := t.tokens[id].(state := Indeterminate)]) else t
  {
    hide Identifier;
  }

  /**
   * A token is accepted exactly when it is active, its claims are sound, and it is for this audience and these scopes.
   */
  lemma RequireDecides(c: Config, t: Tables, claims: Option<Claims>, audience: string, required: seq<string>, now: int)
    ensures RequireFault(c, t, claims, audience, required, now).None? <==>
      && Identifier(audience) && Scopes(required) && 0 <= now <= 253402214399
      && claims.Some? && Sound(c, t, claims.value, now) && t.tokens[claims.value.jti].state == Active
      && claims.value.aud == audience && forall s :: s in required ==> s in claims.value.scope
  {
    hide Identifier, Scopes, ScopeFault, ClaimsFault, ScopeSet, LiveSession;
    ScopesIff(required);
    SoundIff(c, t, claims, now);
    if claims.Some? {
      ScopesIff(claims.value.scope);
    }
  }

  // ----- revocation -----

  /** Which rows a revocation reaches, table by table. */
  ghost predicate Swept(t: Tables, target: Target, t': Tables) {
    SweptBindings(t, target, t') && SweptAuthority(t, target, t')
  }

  ghost predicate SweptBindings(t: Tables, target: Target, t': Tables) {
    var Target(kind, id) := target;
    && t'.subjects.Keys == t.subjects.Keys && t'.devices.Keys == t.devices.Keys
    && t'.challenges.Keys == t.challenges.Keys
    && (forall k :: k in t.subjects ==> t'.subjects[k] == (t.subjects[k] && !(kind == SubjectKind && k == id)))
    && (forall k :: k in t.devices ==>
          t'.devices[k] == if (kind == SubjectKind && t.devices[k].subject == id) || (kind == DeviceKind && k == id)
                           then t.devices[k].(active := false) else t.devices[k])
    && (forall k :: k in t.challenges ==>
          t'.challenges[k] == if || (kind == SubjectKind && t.challenges[k].challenge.subject == id)
                                 || (kind == DeviceKind && t.challenges[k].challenge.device == id)
                              then t.challenges[k].(state := Withdrawn) else t.challenges[k])
  }

  ghost predicate SweptAuthority(t: Tables, target: Target, t': Tables) {
    var Target(kind, id) := target;
    && t'.sessions.Keys == t.sessions.Keys && t'.tokens.Keys == t.tokens.Keys
    && (forall k :: k in t.sessions ==>
          t'.sessions[k] == if || (kind == SubjectKind && t.sessions[k].subject == id)
                               || (kind == DeviceKind && t.sessions[k].device == id) || (kind == SessionKind && k == id)
                            then t.sessions[k].(active := false) else t.sessions[k])
    && (forall k :: k in t.tokens ==>
          t'.tokens[k] == if || (kind == SubjectKind && t.tokens[k].subject == id)
                             || (kind == DeviceKind && t.tokens[k].device == id)
                             || (kind == SessionKind && t.tokens[k].session == id) || (kind == TokenKind && k == id)
                          then t.tokens[k].(state := Revoked) else t.tokens[k])
  }

  /**
   * A revocation goes through for any well-formed name, known or not and however full the store is. It leaves one
   * tombstone with one event, those of the first time, and reaches exactly the rows of the name.
   */
  lemma RevokeDecides(t: Tables, target: Target, now: int)
    ensures var x := Revoke(t, target, now);
      && (x.Done? <==> Identifier(target.id) && 0 <= now <= 253402214399)
      && (x.Done? ==>
            && Swept(t, target, x.tables)
            && (if target in t.revocations then x.tables.revocations == t.revocations && x.tables.events == t.events
                else && x.tables.revocations == t.revocations[target := now]
                     && x.tables.events == t.events + [Event(target, now)]))
      && (x.Raised? ==> x.tables == t)
  {
    hide Identifier, RevokeSubjects, RevokeDevices, RevokeChallenges, RevokeSessions, RevokeTokens, Swept;
    var x := Revoke(t, target, now);
    if x.Done? { RevokeSweeps(t, target, x.tables); }
  }

  lemma RevokeSweeps(t: Tables, target: Target, t': Tables)
    requires t'.subjects == RevokeSubjects(t, target) && t'.devices == RevokeDevices(t.devices, target)
    requires t'.challenges == RevokeChallenges(t.challenges, target)
    requires t'.sessions == RevokeSessions(t.sessions, target) && t'.tokens == RevokeTokens(t.tokens, target)
    ensures Swept(t, target, t')
  {
    hide SweptBindings, SweptAuthority;
    BindingsSwept(t, target, t');
    AuthoritySwept(t, target, t');
  }

  lemma BindingsSwept(t: Tables, target: Target, t': Tables)
    requires t'.subjects == RevokeSubjects(t, target) && t'.devices == RevokeDevices(t.devices, target)
    requires t'.challenges == RevokeChallenges(t.challenges, target)
    ensures SweptBindings(t, target, t')
  {
  }

  lemma AuthoritySwept(t: Tables, target: Target, t': Tables)
    requires t'.sessions == RevokeSessions(t.sessions, target) && t'.tokens == RevokeTokens(t.tokens, target)
    ensures SweptAuthority(t, target, t')
  {
  }

  // ----- where rows come from -----

  lemma {:induction false} RunLast(c: Config, t: Tables, steps: seq<Step>)
    requires steps != []
    ensures Run(c, t, steps) == Next(c, Run(c, t, steps[..|steps| - 1]), steps[|steps| - 1])
    decreases |steps|
  {
    hide Next;
    if |steps| > 1 {
      RunLast(c, Next(c, t, steps[0]), steps[1..]);
      assert steps[1..][..|steps| - 2] == steps[..|steps| - 1][1..];
    }
  }

  /** This step issued the challenge kept under the nonce. */
  ghost predicate IssuedBy(step: Step, nonce: string, q: Challenge) {
    && step.DoChallenge? && step.nonce == nonce && 1 <= step.ttl <= 300
    && q == step.q.(expires := step.now + step.ttl)
  }

  lemma ChallengeAppears(c: Config, t: Tables, step: Step, nonce: string)
    requires nonce in Next(c, t, step).challenges
    ensures var q := Next(c, t, step).challenges[nonce].challenge;
      IssuedBy(step, nonce, q) || (nonce in t.challenges && t.challenges[nonce].challenge == q)
  {
    hide AdmitSubject, IssueChallenge, Accept, CreateSession, PrepareToken, CommitToken, AbandonToken, Revoke,
      Identifier, Hex, Scopes, LiveSubject, LiveDevice, LiveSession, Sound, Prepared, Timely;
    match step
    case DoAdmit(subject) => AdmitDecides(c, t, subject);
    case DoChallenge(q, ttl, n, now) => ChallengeDecides(c, t, q, ttl, n, now);
    case DoAccept(a, now, final) => AcceptDecides(c, t, a, now, final);
    case DoSession(subject, device, audience, scopes, ttl, id, now) =>
      SessionDecides(c, t, subject, device, audience, scopes, ttl, id, now);
    case DoPrepare(w, id, now) => PrepareDecides(c, t, w, id, now);
    case DoCommit(claims, receipt, now) => CommitDecides(c, t, claims, receipt, now);
    case DoAbandon(id) => AbandonDecides(t, id);
    case DoRevoke(target, now) => RevokeDecides(t, target, now);
  }

  /** Over every run each challenge is one that was asked for, for at most five minutes. */
  lemma {:induction false} ChallengeStory(c: Config, steps: seq<Step>, nonce: string)
    requires nonce in Run(c, EMPTY, steps).challenges
    ensures var q := Run(c, EMPTY, steps).challenges[nonce].challenge;
      exists i :: 0 <= i < |steps| && IssuedBy(steps[i], nonce, q)
    decreases |steps|
  {
    hide Next, IssuedBy;
    if steps == [] {
      assert false;
    } else {
      var n := |steps| - 1;
      RunLast(c, EMPTY, steps);
      ChallengeAppears(c, Run(c, EMPTY, steps[..n]), steps[n], nonce);
      var q := Run(c, EMPTY, steps).challenges[nonce].challenge;
      if !IssuedBy(steps[n], nonce, q) {
        ChallengeStory(c, steps[..n], nonce);
        var i :| 0 <= i < n && IssuedBy(steps[..n][i], nonce, q);
      }
    }
  }

  /** This step, taken in t, enrolled the device: by an attestation for it that was accepted. */
  ghost predicate EnrolledBy(t: Tables, step: Step, k: string, d: Device) {
    && step.DoAccept? && step.a.challenge.device == k && d.(active := true) == Enrolled(step.a, step.now)
    && LiveSubject(t, d.subject) && step.a.nonce in t.challenges
    && t.challenges[step.a.nonce] == ChallengeRow(step.a.challenge, Issued)
    && Timely(step.a, step.now) && Timely(step.a, step.final) && step.now <= step.final
  }

  lemma DeviceAppears(c: Config, t: Tables, step: Step, k: string)
    requires k in Next(c, t, step).devices
    ensures var d := Next(c, t, step).devices[k];
      EnrolledBy(t, step, k, d) || (k in t.devices && t.devices[k].(active := d.active) == d)
  {
    hide AdmitSubject, IssueChallenge, Accept, CreateSession, PrepareToken, CommitToken, AbandonToken, Revoke,
      Identifier, Hex, Scopes, LiveSubject, LiveDevice, LiveSession, Sound, Prepared, Timely;
    match step
    case DoAdmit(subject) => AdmitDecides(c, t, subject);
    case DoChallenge(q, ttl, n, now) => ChallengeDecides(c, t, q, ttl, n, now);
    case DoAccept(a, now, final) => AcceptDecides(c, t, a, now, final);
    case DoSession(subject, device, audience, scopes, ttl, id, now) =>
      SessionDecides(c, t, subject, device, audience, scopes, ttl, id, now);
    case DoPrepare(w, id, now) => PrepareDecides(c, t, w, id, now);
    case DoCommit(claims, receipt, now) => CommitDecides(c, t, claims, receipt, now);
    case DoAbandon(id) => AbandonDecides(t, id);
    case DoRevoke(target, now) => RevokeDecides(t, target, now);
  }

  /** The one step asked for the challenge, and the other answered it with a timely proof, which enrolled the device. */
  ghost predicate Enrols(ask: Step, t: Tables, step: Step, k: string, d: Device) {
    EnrolledBy(t, step, k, d) && IssuedBy(ask, step.a.nonce, step.a.challenge)
  }

  /**
   * Over every run: a device is there only because a challenge was issued for exactly its binding and, while it was
   * unspent and unexpired, answered once with the proof the device has kept since.
   */
  lemma {:induction false} DeviceStory(c: Config, steps: seq<Step>, k: string)
    requires k in Run(c, EMPTY, steps).devices
    ensures var d := Run(c, EMPTY, steps).devices[k];
      exists i, j :: 0 <= i < j < |steps| && Enrols(steps[i], Run(c, EMPTY, steps[..j]), steps[j], k, d)
    decreases |steps|
  {
    hide Next, EnrolledBy, IssuedBy;
    if steps == [] {
      assert false;
    } else {
      var n := |steps| - 1;
      var t := Run(c, EMPTY, steps[..n]);
      RunLast(c, EMPTY, steps);
      DeviceAppears(c, t, steps[n], k);
      var d := Run(c, EMPTY, steps).devices[k];
      if k in t.devices && t.devices[k].(active := d.active) == d {
        DeviceStory(c, steps[..n], k);
        var i, j :| 0 <= i < j < n
          && Enrols(steps[..n][i], Run(c, EMPTY, steps[..n][..j]), steps[..n][j], k, t.devices[k]);
        assert steps[..n][..j] == steps[..j];
        SameEnrolment(Run(c, EMPTY, steps[..j]), steps[j], k, t.devices[k], d);
      } else {
        AnswersChallenge(t, steps[n], k, d);
        ChallengeStory(c, steps[..n], steps[n].a.nonce);
        var i :| 0 <= i < n && IssuedBy(steps[..n][i], steps[n].a.nonce, steps[n].a.challenge);
        assert Enrols(steps[i], t, steps[n], k, d);
      }
    }
  }

  lemma SameEnrolment(t: Tables, step: Step, k: string, d: Device, d': Device)
    requires EnrolledBy(t, step, k, d) && d' == d.(active := d'.active)
    ensures EnrolledBy(t, step, k, d')
  {
    hide Timely, LiveSubject;
  }

  lemma AnswersChallenge(t: Tables, step: Step, k: string, d: Device)
    requires EnrolledBy(t, step, k, d)
    ensures step.DoAccept? && step.a.nonce in t.challenges && t.challenges[step.a.nonce].challenge == step.a.challenge
  {
  }

  /** This step, taken in t, opened the session on a device that was live. */
  ghost predicate OpenedBy(c: Config, t: Tables, step: Step, k: string, s: Session) {
    && step.DoSession? && step.id == k && LiveDevice(t, step.subject, step.device)
    && 1 <= step.ttl <= 86400 && Scopes(step.scopes) && s.scopes <= c.allowed
    && s.(active := true) == Session(step.subject, step.device, step.audience, (set x | x in step.scopes),
                                     step.now + step.ttl, true)
  }

  lemma SessionAppears(c: Config, t: Tables, step: Step, k: string)
    requires k in Next(c, t, step).sessions
    ensures var s := Next(c, t, step).sessions[k];
      OpenedBy(c, t, step, k, s) || (k in t.sessions && t.sessions[k].(active := s.active) == s)
  {
    hide AdmitSubject, IssueChallenge, Accept, CreateSession, PrepareToken, CommitToken, AbandonToken, Revoke,
      Identifier, Hex, Scopes, LiveSubject, LiveDevice, LiveSession, Sound, Prepared, Timely;
    match step
    case DoAdmit(subject) => AdmitDecides(c, t, subject);
    case DoChallenge(q, ttl, n, now) => ChallengeDecides(c, t, q, ttl, n, now);
    case DoAccept(a, now, final) => AcceptDecides(c, t, a, now, final);
    case DoSession(subject, device, audience, scopes, ttl, id, now) =>
      SessionDecides(c, t, subject, device, audience, scopes, ttl, id, now);
    case DoPrepare(w, id, now) => PrepareDecides(c, t, w, id, now);
    case DoCommit(claims, receipt, now) => CommitDecides(c, t, claims, receipt, now);
    case DoAbandon(id) => AbandonDecides(t, id);
    case DoRevoke(target, now) => RevokeDecides(t, target, now);
  }

  /** Over every run each session was opened on a live device of its subject, for allowed scopes and at most a day. */
  lemma {:induction false} SessionStory(c: Config, steps: seq<Step>, k: string)
    requires k in Run(c, EMPTY, steps).sessions
    ensures var s := Run(c, EMPTY, steps).sessions[k];
      exists i :: 0 <= i < |steps| && OpenedBy(c, Run(c, EMPTY, steps[..i]), steps[i], k, s)
    decreases |steps|
  {
    hide Next, OpenedBy;
    if steps == [] {
      assert false;
    } else {
      var n := |steps| - 1;
      var t := Run(c, EMPTY, steps[..n]);
      RunLast(c, EMPTY, steps);
      SessionAppears(c, t, steps[n], k);
      var s := Run(c, EMPTY, steps).sessions[k];
      if !OpenedBy(c, t, steps[n], k, s) {
        SessionStory(c, steps[..n], k);
        var i :| 0 <= i < n && OpenedBy(c, Run(c, EMPTY, steps[..n][..i]), steps[..n][i], k, t.sessions[k]);
        assert steps[..n][..i] == steps[..i];
        SameOpening(c, Run(c, EMPTY, steps[..i]), steps[i], k, t.sessions[k], s);
      }
    }
  }

  lemma SameOpening(c: Config, t: Tables, step: Step, k: string, s: Session, s': Session)
    requires OpenedBy(c, t, step, k, s) && s' == s.(active := s'.active)
    ensures OpenedBy(c, t, step, k, s')
  {
    hide LiveDevice, Scopes;
  }

  /** This step, taken in t, prepared the token with these claims on a session that was live. */
  ghost predicate PreparedBy(c: Config, t: Tables, step: Step, k: string, q: Claims) {
    && step.DoPrepare? && step.id == k && LiveSession(t, step.w.subject, step.w.device, step.w.session, step.now)
    && Prepared(c, step.w, k, step.now, Token(q.sub, q.device, q.session, q, q.exp, Preparing, None))
    && q.aud == t.sessions[q.session].audience && q.exp <= t.sessions[q.session].expires
    && (forall s :: s in step.w.scopes ==> s in t.sessions[q.session].scopes)
  }

  /** This step, taken in t, committed the token: it was being prepared and its claims were still sound. */
  ghost predicate CommittedBy(c: Config, t: Tables, step: Step, k: string, row: Token) {
    && step.DoCommit? && step.claims == Some(row.claims) && row.claims.jti == k && row.receipt == Some(step.receipt)
    && k in t.tokens && t.tokens[k].state == Preparing && Sound(c, t, row.claims, step.now)
  }

  lemma TokenAppears(c: Config, t: Tables, step: Step, k: string)
    requires k in Next(c, t, step).tokens
    ensures var row := Next(c, t, step).tokens[k];
      || (PreparedBy(c, t, step, k, row.claims) && row.state == Preparing)
      || (k in t.tokens && t.tokens[k].claims == row.claims
          && (row.state == Active ==> row == t.tokens[k] || CommittedBy(c, t, step, k, row)))
  {
    hide AdmitSubject, IssueChallenge, Accept, CreateSession, PrepareToken, CommitToken, AbandonToken, Revoke,
      Identifier, Hex, Scopes, LiveSubject, LiveDevice, LiveSession, Timely, Ascending;
    match step
    case DoAdmit(subject) => AdmitDecides(c, t, subject);
    case DoChallenge(q, ttl, n, now) => ChallengeDecides(c, t, q, ttl, n, now);
    case DoAccept(a, now, final) => AcceptDecides(c, t, a, now, final);
    case DoSession(subject, device, audience, scopes, ttl, id, now) =>
      SessionDecides(c, t, subject, device, audience, scopes, ttl, id, now);
    case DoPrepare(w, id, now) => PrepareDecides(c, t, w, id, now);
    case DoCommit(claims, receipt, now) => CommitDecides(c, t, claims, receipt, now);
    case DoAbandon(id) => AbandonDecides(t, id);
    case DoRevoke(target, now) => RevokeDecides(t, target, now);
  }

  /** Over every run each token was prepared, with the claims it has, on a session live at that moment and within it. */
  lemma {:induction false} TokenStory(c: Config, steps: seq<Step>, k: string)
    requires k in Run(c, EMPTY, steps).tokens
    ensures var q := Run(c, EMPTY, steps).tokens[k].claims;
      exists i :: 0 <= i < |steps| && PreparedBy(c, Run(c, EMPTY, steps[..i]), steps[i], k, q)
    decreases |steps|
  {
    hide Next, PreparedBy, CommittedBy;
    if steps == [] {
      assert false;
    } else {
      var n := |steps| - 1;
      var t := Run(c, EMPTY, steps[..n]);
      RunLast(c, EMPTY, steps);
      TokenAppears(c, t, steps[n], k);
      var q := Run(c, EMPTY, steps).tokens[k].claims;
      if !PreparedBy(c, t, steps[n], k, q) {
        TokenStory(c, steps[..n], k);
        var i :| 0 <= i < n && PreparedBy(c, Run(c, EMPTY, steps[..n][..i]), steps[..n][i], k, q);
        assert steps[..n][..i] == steps[..i];
      }
    }
  }

  /** Over every run each active token was committed while being prepared, on claims that were sound at that moment. */
  lemma {:induction false} ActiveStory(c: Config, steps: seq<Step>, k: string)
    requires k in Run(c, EMPTY, steps).tokens && Run(c, EMPTY, steps).tokens[k].state == Active
    ensures var row := Run(c, EMPTY, steps).tokens[k];
      exists i :: 0 <= i < |steps| && CommittedBy(c, Run(c, EMPTY, steps[..i]), steps[i], k, row)
    decreases |steps|
  {
    hide Next, PreparedBy, CommittedBy;
    if steps == [] {
      assert false;
    } else {
      var n := |steps| - 1;
      var t := Run(c, EMPTY, steps[..n]);
      RunLast(c, EMPTY, steps);
      TokenAppears(c, t, steps[n], k);
      var row := Run(c, EMPTY, steps).tokens[k];
      if !CommittedBy(c, t, steps[n], k, row) {
        ActiveStory(c, steps[..n], k);
        var i :| 0 <= i < n && CommittedBy(c, Run(c, EMPTY, steps[..n][..i]), steps[..n][i], k, row);
        assert steps[..n][..i] == steps[..i];
      }
    }
  }

  /** Step i prepared the token with these claims and step j committed it; the claims cover what is asked now. */
  ghost predicate Admitted(c: Config, steps: seq<Step>, q: Claims, audience: string, required: seq<string>, now: int,
                           i: nat, j: nat) {
    && i < |steps| && j < |steps| && PreparedBy(c, Run(c, EMPTY, steps[..i]), steps[i], q.jti, q)
    && steps[j].DoCommit? && steps[j].claims == Some(q) && Sound(c, Run(c, EMPTY, steps[..j]), q, steps[j].now)
    && q.aud == audience && q.iat <= now < q.exp && (forall s :: s in required ==> s in q.scope)
  }

  /**
   * Over every run: claims are accepted only if a token was prepared with exactly these on a session then live, and
   * committed while they were still sound; and only for the audience and the scopes they name, before they expire.
   */
  lemma AdmissionStory(c: Config, steps: seq<Step>, q: Claims, audience: string, required: seq<string>, now: int)
    requires RequireFault(c, Run(c, EMPTY, steps), Some(q), audience, required, now).None?
    ensures exists i, j :: Admitted(c, steps, q, audience, required, now, i, j)
  {
    hide Run, RequireFault, PreparedBy, Scopes, LiveSession, Identifier;
    var t := Run(c, EMPTY, steps);
    RequireDecides(c, t, Some(q), audience, required, now);
    TokenStory(c, steps, q.jti);
    ActiveStory(c, steps, q.jti);
    var i :| 0 <= i < |steps| && PreparedBy(c, Run(c, EMPTY, steps[..i]), steps[i], q.jti, q);
    var j :| 0 <= j < |steps| && CommittedBy(c, Run(c, EMPTY, steps[..j]), steps[j], q.jti, t.tokens[q.jti]);
    hide Sound;
    assert Admitted(c, steps, q, audience, required, now, i, j);
  }

  // ----- refusals -----

  /** An error of a challenge says what is so: of the names, of the rows or of the clock. */
  lemma ChallengeRefusals(c: Config, t: Tables, q: Challenge, ttl: int, nonce: string, now: int)
    ensures var x := IssueChallenge(c, t, q, ttl, nonce, now);
      x.Raised? ==> match x.code
        case BindingInvalid => !Identifier(q.subject) || !Identifier(q.device) || !Identifier(q.application)
        case DigestInvalid => !Hex(q.signer)
        case PlatformInvalid => q.platform != Android && q.platform != Ios
        case TtlInvalid => ttl < 1 || 300 < ttl
        case ClockInvalid => now < 0 || 253402214399 < now
        case SubjectUnavailable => !LiveSubject(t, q.subject)
        case DeviceRevoked => Target(DeviceKind, q.device) in t.revocations
        case DeviceConflict =>
          q.device in t.devices && (t.devices[q.device].subject != q.subject || !t.devices[q.device].active)
        case Capacity => |t.challenges| >= c.maxRows
        case IntegrityError => nonce in t.challenges
        case _ => false
  {
    hide Identifier, Hex;
  }

  /** What is missing of a session, its device or its subject. */
  ghost predicate MissingSays(t: Tables, subject: string, device: string, session: string, now: int, code: Code) {
    match code
    case SubjectUnavailable => !LiveSubject(t, subject)
    case DeviceUnavailable => LiveSubject(t, subject) && !LiveDevice(t, subject, device)
    case SessionUnavailable => LiveDevice(t, subject, device) && !LiveSession(t, subject, device, session, now)
    case _ => false
  }

  lemma MissingIsReal(t: Tables, subject: string, device: string, session: string, now: int)
    ensures var fault := SessionFault(t, subject, device, session, now);
      fault.Some? ==> MissingSays(t, subject, device, session, now, fault.value)
  {
  }

  /** What is wrong with a list of scopes. */
  ghost predicate ScopesSay(values: seq<string>, code: Code) {
    match code
    case ScopeInvalid => |values| == 0 || 32 < |values|
    case BindingInvalid => exists s :: s in values && !Identifier(s, 128)
    case ScopeDuplicate => exists i, j :: 0 <= i < j < |values| && values[i] == values[j]
    case _ => false
  }

  lemma ScopesAreReal(values: seq<string>)
    ensures ScopeFault(values).Some? ==> ScopesSay(values, ScopeFault(values).value)
  {
    hide Identifier;
    DistinctSize(values);
  }

  /** So does one of a session. */
  lemma SessionRefusals(c: Config, t: Tables, subject: string, device: string, audience: string, scopes: seq<string>,
                        ttl: int, id: string, now: int)
    ensures var x := CreateSession(c, t, subject, device, audience, scopes, ttl, id, now);
      x.Raised? ==> ScopesSay(scopes, x.code) || MissingSays(t, subject, device, id, now, x.code) || match x.code
        case BindingInvalid => !Identifier(subject) || !Identifier(device) || !Identifier(audience)
        case ScopeNotAllowed => exists s :: s in scopes && s !in c.allowed
        case TtlInvalid => ttl < 1 || 86400 < ttl
        case ClockInvalid => now < 0 || 253402214399 < now
        case Capacity => |t.sessions| >= c.maxRows
        case Collision => Target(SessionKind, id) in t.revocations
        case IntegrityError => id in t.sessions
        case _ => false
  {
    hide Identifier, ScopeSet, ScopeFault, ScopesSay;
    ScopesIff(scopes);
    ScopesAreReal(scopes);
    assert ScopeSet(scopes) <= c.allowed <==> forall s :: s in scopes ==> s in c.allowed;
  }

  /** So does one of a preparation. */
  lemma PrepareRefusals(c: Config, t: Tables, w: Wanted, id: string, now: int)
    ensures var x := PrepareToken(c, t, w, id, now);
      var live := LiveSession(t, w.subject, w.device, w.session, now);
      x.Raised? ==>
        ScopesSay(w.scopes, x.code) || MissingSays(t, w.subject, w.device, w.session, now, x.code) || match x.code
        case BindingInvalid =>
          || !Identifier(w.subject) || !Identifier(w.device) || !Identifier(w.session) || !Identifier(w.audience)
          || !Identifier(w.keyId)
        case TtlInvalid => w.ttl < 1 || c.maxTtl < w.ttl
        case ClockInvalid => now < 0 || 253402214399 < now
        case Escalation =>
          live && (w.audience != t.sessions[w.session].audience
                   || exists s :: s in w.scopes && s !in t.sessions[w.session].scopes)
        case TokenOutlivesSession => live && t.sessions[w.session].expires < now + w.ttl
        case Collision => Target(TokenKind, id) in t.revocations
        case Capacity => |t.tokens| >= c.maxRows
        case IntegrityError => id in t.tokens
        case _ => false
  {
    hide Identifier, ScopeFault, SessionFault, ScopeSet, Sorted, ScopesSay, MissingSays, LiveDevice;
    ScopesIff(w.scopes);
    ScopesAreReal(w.scopes);
    LiveIff(t, w.subject, w.device, w.session, now);
    MissingIsReal(t, w.subject, w.device, w.session, now);
    if LiveSession(t, w.subject, w.device, w.session, now) {
      assert ScopeSet(w.scopes) <= t.sessions[w.session].scopes
        <==> forall s :: s in w.scopes ==> s in t.sessions[w.session].scopes;
    }
  }

  /** What is wrong with the claims of a token. */
  ghost predicate ClaimsSay(c: Config, t: Tables, claims: Option<Claims>, now: int, code: Code) {
    if claims.None? then code == ClaimsInvalid else
    var q := claims.value;
    var live := LiveSession(t, q.sub, q.device, q.session, now);
    ScopesSay(q.scope, code) || MissingSays(t, q.sub, q.device, q.session, now, code) || match code
    case BindingInvalid =>
      || !Identifier(q.iss) || !Identifier(q.aud) || !Identifier(q.sub) || !Identifier(q.device)
      || !Identifier(q.session) || !Identifier(q.jti) || !Identifier(q.kid)
    case TimeOrIssuerInvalid =>
      !(0 <= q.iat <= now < q.exp <= 253402300799) || q.iat + c.maxTtl < q.exp || q.iss != c.issuer
    case Escalation =>
      live && (q.aud != t.sessions[q.session].audience || t.sessions[q.session].expires < q.exp
               || exists s :: s in q.scope && s !in t.sessions[q.session].scopes)
    case TokenBinding =>
      || q.jti !in t.tokens || Target(TokenKind, q.jti) in t.revocations
      || t.tokens[q.jti].(state := Preparing, receipt := None)
           != Token(q.sub, q.device, q.session, q, q.exp, Preparing, None)
    case _ => false
  }

  lemma ClaimsAreReal(c: Config, t: Tables, claims: Option<Claims>, now: int)
    ensures ClaimsFault(c, t, claims, now).Some? ==> ClaimsSay(c, t, claims, now, ClaimsFault(c, t, claims, now).value)
  {
    hide Identifier, ScopeFault, SessionFault, ScopeSet, ScopesSay, MissingSays, LiveDevice;
    if claims.Some? {
      var q := claims.value;
      ScopesIff(q.scope);
      ScopesAreReal(q.scope);
      LiveIff(t, q.sub, q.device, q.session, now);
      MissingIsReal(t, q.sub, q.device, q.session, now);
      if LiveSession(t, q.sub, q.device, q.session, now) {
        assert ScopeSet(q.scope) <= t.sessions[q.session].scopes
          <==> forall s :: s in q.scope ==> s in t.sessions[q.session].scopes;
      }
    }
  }

  /** So does one of a commit. */
  lemma CommitRefusals(c: Config, t: Tables, claims: Option<Claims>, receipt: string, now: int)
    ensures var x := CommitToken(c, t, claims, receipt, now);
      x.Raised? ==> ClaimsSay(c, t, claims, now, x.code) || match x.code
        case BindingInvalid => !Identifier(receipt)
        case ClockInvalid => now < 0 || 253402214399 < now
        case TokenNotPrepared =>
          claims.Some? && claims.value.jti in t.tokens && t.tokens[claims.value.jti].state != Preparing
        case _ => false
  {
    hide Identifier, ClaimsFault, ClaimsSay;
    ClaimsAreReal(c, t, claims, now);
    if ClaimsFault(c, t, claims, now).None? { ClaimsKnown(c, t, claims, now); }
  }

  /** And one of the final admission. */
  lemma RequireRefusals(c: Config, t: Tables, claims: Option<Claims>, audience: string, required: seq<string>, now: int)
    ensures var fault := RequireFault(c, t, claims, audience, required, now);
      fault.Some? ==> ScopesSay(required, fault.value) || ClaimsSay(c, t, claims, now, fault.value) || match fault.value
        case BindingInvalid => !Identifier(audience)
        case ClockInvalid => now < 0 || 253402214399 < now
        case TokenNotActive =>
          claims.Some? && claims.value.jti in t.tokens && t.tokens[claims.value.jti].state != Active
        case Insufficient =>
          claims.Some? && (claims.value.aud != audience || exists s :: s in required && s !in claims.value.scope)
        case _ => false
  {
    hide Identifier, ScopeFault, ClaimsFault, ClaimsSay, ScopesSay, ScopeSet;
    ScopesIff(required);
    ScopesAreReal(required);
    ClaimsAreReal(c, t, claims, now);
    if claims.Some? { ScopesIff(claims.value.scope); }
    if ClaimsFault(c, t, claims, now).None? { ClaimsKnown(c, t, claims, now); }
  }
}
