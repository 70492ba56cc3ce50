/**
 * The durable identity store as it runs: rows inserted and updated inside a transaction, put back when it raises. Each
 * method is one transaction of durable_identity.py, proved against its function.
 */
module IdentityStore {
  import opened Base
  import opened IdentityTables
  import IdentityTheorems

  function ErrorOf(x: Tx): Option<Code> {
    match x
    case Done(_) => None
    case Raised(_, code) => Some(code)
  }

  class DurableIdentityStore {
    const config: Config
    var subjects: map<string, bool>
    var devices: map<string, Device>
    var challenges: map<string, ChallengeRow>
    var sessions: map<string, Session>
    var tokens: map<string, Token>
    var revocations: map<Target, int>
    var events: seq<Event>

    function View(): Tables
      reads this
    {
      Tables(subjects, devices, challenges, sessions, tokens, revocations, events)
    }

    constructor (config: Config)
      ensures this.config == config && View() == EMPTY
    {
      this.config := config;
      subjects, devices, challenges, sessions, tokens := map[], map[], map[], map[], map[];
      revocations, events := map[], [];
    }

    method Rollback(saved: Tables)
      modifies this
      ensures View() == saved
    {
      subjects, devices, challenges, sessions := saved.subjects, saved.devices, saved.challenges, saved.sessions;
      tokens, revocations, events := saved.tokens, saved.revocations, saved.events;
    }

    method AdmitSubject(subject: string) returns (error: Option<Code>)
      modifies this
      ensures var x := IdentityTables.AdmitSubject(config, old(View()), subject);
        View() == x.tables && error == ErrorOf(x)
    {
      hide Identifier;
      if !Identifier(subject) { return Some(BindingInvalid); }
      if Target(SubjectKind, subject) in revocations { return Some(SubjectRevoked); }
      if subject !in subjects {
        if |subjects| >= config.maxRows { return Some(Capacity); }
        subjects := subjects[subject := true];
      } else if !subjects[subject] {
        return Some(SubjectRevoked);
      }
      error := None;
    }

    method IssueChallenge(q: Challenge, ttl: int, nonce: string, now: int) returns (error: Option<Code>)
      modifies this
      ensures var x := IdentityTables.IssueChallenge(config, old(View()), q, ttl, nonce, now);
        View() == x.tables && error == ErrorOf(x)
    {
      hide Identifier, Hex, SubjectLive;
      if !Identifier(q.subject) || !Identifier(q.device) || !Identifier(q.application) { return Some(BindingInvalid); }
      if !Hex(q.signer) { return Some(DigestInvalid); }
      if q.platform.OtherPlatform? { return Some(PlatformInvalid); }
      if !(1 <= ttl <= 300) { return Some(TtlInvalid); }
      if !Clock(now) { return Some(ClockInvalid); }
      if !SubjectLive(View(), q.subject) { return Some(SubjectUnavailable); }
      if Target(DeviceKind, q.device) in revocations { return Some(DeviceRevoked); }
      if q.device in devices && (devices[q.device].subject != q.subject || !devices[q.device].active) {
        return Some(DeviceConflict);
      }
      if |challenges| >= config.maxRows { return Some(Capacity); }
      if nonce in challenges { return Some(IntegrityError); }
      challenges := challenges[nonce := ChallengeRow(q.(expires := now + ttl), Issued)];
      error := None;
    }

    /** accept_attestation: device and challenge are written before the clock is read again. */
    method Accept(a: Attestation, now: int, final: int) returns (error: Option<Code>)
      modifies this
      ensures var x := IdentityTables.Accept(config, old(View()), a, now, final);
        View() == x.tables && error == ErrorOf(x)
    {
      hide Identifier, Hex, SubjectLive, Fresh;
      var q, saved := a.challenge, View();
      if !Identifier(a.nonce, 128) { return Some(BindingInvalid); }
      if !Hex(a.proof) { return Some(DigestInvalid); }
      if !Identifier(a.receipt) { return Some(BindingInvalid); }
      if !Clock(now) { return Some(ClockInvalid); }
      if !SubjectLive(View(), q.subject) { return Some(SubjectUnavailable); }
      if a.nonce !in challenges || challenges[a.nonce].challenge != q { return Some(ChallengeBinding); }
      if !challenges[a.nonce].state.Issued? || q.expires <= now { return Some(ChallengeSpent); }
      if !Fresh(a.verified, a.expires, q.expires, now) { return Some(AttestationStale); }
      if Target(DeviceKind, q.device) in revocations { return Some(DeviceRevoked); }
      if q.device in devices {
        var d := devices[q.device];
        if !d.active || d.subject != q.subject || d.platform != q.platform || d.application != q.application
          || d.signer != q.signer {
          return Some(DeviceConflict);
        }
        if d.proof != a.proof { return Some(RecoveryRequired); }
      } else {
        if |devices| >= config.maxRows { return Some(Capacity); }
        devices := devices[q.device := Device(q.subject, a.proof, q.platform, q.application, q.signer, true, now)];
      }
      challenges := challenges[a.nonce := ChallengeRow(q, Consumed)];
      error :=
        if !Clock(final) then Some(ClockInvalid)
        else if final < now then Some(ClockRollback)
        else if !Fresh(a.verified, a.expires, q.expires, final) then Some(AttestationStale)
        else None;
      if error.Some? { Rollback(saved); }
    }

    method CreateSession(subject: string, device: string, audience: string, scopes: seq<string>, ttl: int, id: string,
                         now: int)
      returns (error: Option<Code>)
      modifies this
      ensures var x :=
        IdentityTables.CreateSession(config, old(View()), subject, device, audience, scopes, ttl, id, now);
        View() == x.tables && error == ErrorOf(x)
    {
      hide Identifier, ScopeFault, ScopeSet, DeviceFault;
      if !Identifier(subject) || !Identifier(device) || !Identifier(audience) { return Some(BindingInvalid); }
      error := ScopeFault(scopes);
      if error.Some? { return; }
      if !(ScopeSet(scopes) <= config.allowed) { return Some(ScopeNotAllowed); }
      if !(1 <= ttl <= 86400) { return Some(TtlInvalid); }
      if !Clock(now) { return Some(ClockInvalid); }
      error := DeviceFault(View(), subject, device);
      if error.Some? { return; }
      if |sessions| >= config.maxRows { return Some(Capacity); }
      if Target(SessionKind, id) in revocations { return Some(Collision); }
      if id in sessions { return Some(IntegrityError); }
      sessions := sessions[id := Session(subject, device, audience, ScopeSet(scopes), now + ttl, true)];
    }

    method PrepareToken(w: Wanted, id: string, now: int) returns (error: Option<Code>)
      modifies this
      ensures var x := IdentityTables.PrepareToken(config, old(View()), w, id, now);
        View() == x.tables && error == ErrorOf(x)
    {
      hide Identifier, ScopeFault, ScopeSet, Sorted;
      if !Identifier(w.subject) || !Identifier(w.device) || !Identifier(w.session) || !Identifier(w.audience)
        || !Identifier(w.keyId) {
        return Some(BindingInvalid);
      }
      error := ScopeFault(w.scopes);
      if error.Some? { return; }
      if !(1 <= w.ttl <= config.maxTtl) { return Some(TtlInvalid); }
      if !Clock(now) { return Some(ClockInvalid); }
      error := SessionFault(View(), w.subject, w.device, w.session, now);
      if error.Some? { return; }
      var session := sessions[w.session];
      if w.audience != session.audience || !(ScopeSet(w.scopes) <= session.scopes) { return Some(Escalation); }
      if now + w.ttl > session.expires { return Some(TokenOutlivesSession); }
      if Target(TokenKind, id) in revocations { return Some(Collision); }
      if |tokens| >= config.maxRows { return Some(Capacity); }
      if id in tokens { return Some(IntegrityError); }
      tokens :=
        tokens[id := Token(w.subject, w.device, w.session, ClaimsOf(config, w, id, now), now + w.ttl, Preparing, None)];
    }

    method CommitToken(claims: Option<Claims>, receipt: string, now: int) returns (error: Option<Code>)
      modifies this
      ensures var x := IdentityTables.CommitToken(config, old(View()), claims, receipt, now);
        View() == x.tables && error == ErrorOf(x)
    {
      hide Identifier, ClaimsFault;
      if !Identifier(receipt) { return Some(BindingInvalid); }
      if !Clock(now) { return Some(ClockInvalid); }
      error := ClaimsFault(config, View(), claims, now);
      if error.Some? { return; }
      ClaimsKnown(config, View(), claims, now);
      var id := claims.value.jti;
      if !tokens[id].state.Preparing? { return Some(TokenNotPrepared); }
      tokens := tokens[id := tokens[id].(state := Active, receipt := Some(receipt))];
    }

    method AbandonToken(id: string) returns (error: Option<Code>)
      modifies this
      ensures var x := IdentityTables.AbandonToken(old(View()), id); View() == x.tables && error == ErrorOf(x)
    {
      hide Identifier;
      if !Identifier(id) { return Some(BindingInvalid); }
      if id in tokens && tokens[id].state.Preparing? { tokens := tokens[id := tokens[id].(state := Indeterminate)]; }
      error := None;
    }

    /** require_token only reads. */
    method RequireToken(claims: Option<Claims>, audience: string, required: seq<string>,
                        now: int) returns (error: Option<Code>)
      ensures error == RequireFault(config, View(), claims, audience, required, now)
    {
      hide Identifier, ClaimsFault, ScopeFault, ScopeSet;
      if !Identifier(audience) { return Some(BindingInvalid); }
      error := ScopeFault(required);
      if error.Some? { return; }
      if !Clock(now) { return Some(ClockInvalid); }
      error := ClaimsFault(config, View(), claims, now);
      if error.Some? { return; }
      ClaimsKnown(config, View(), claims, now);
      if !tokens[claims.value.jti].state.Active? { return Some(TokenNotActive); }
      if claims.value.aud != audience || !(ScopeSet(required) <= ScopeSet(claims.value.scope)) {
        return Some(Insufficient);
      }
    }

    /** revoke, with the sequence number of the tombstone's announcement. */
    method Revoke(target: Target, now: int) returns (error: Option<Code>, sequence: nat)
      requires IdentityTheorems.Announced(revocations, events)
      modifies this
      ensures var x := IdentityTables.Revoke(old(View()), target, now); View() == x.tables && error == ErrorOf(x)
      ensures error.None? ==> 1 <= sequence <= |events| && events[sequence - 1].target == target
    {
      hide Identifier;
      if !Identifier(target.id) { return Some(BindingInvalid), 0; }
      if !Clock(now) { return Some(ClockInvalid), 0; }
      if target !in revocations {
        IdentityTheorems.AnnouncedGrows(revocations, events, target, now);
        revocations := revocations[target := now];
        events := events + [Event(target, now)];
      }
      subjects := RevokeSubjects(View(), target);
      devices := RevokeDevices(devices, target);
      sessions := RevokeSessions(sessions, target);
      challenges := RevokeChallenges(challenges, target);
      tokens := RevokeTokens(tokens, target);
      AnnouncedSomewhere(events, target);
      var n :| 0 <= n < |events| && events[n].target == target;
      error, sequence := None, n + 1;
    }
  }

  lemma {:induction false} AnnouncedSomewhere(events: seq<Event>, target: Target)
    requires IdentityTheorems.Count(events, target) > 0
    ensures exists n :: 0 <= n < |events| && events[n].target == target
  {
    if events[|events| - 1].target != target {
      AnnouncedSomewhere(events[..|events| - 1], target);
      var n :| 0 <= n < |events| - 1 && events[..|events| - 1][n].target == target;
      assert events[n].target == target;
    }
  }
}
