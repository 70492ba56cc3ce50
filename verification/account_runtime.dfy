/**
 * The account runtime as it runs: rows inserted and updated inside a transaction, put back when it raises. Each method
 * is one entry point of account_runtime.py, proved against its function.
 */
module AccountRuntime {
  import opened Base
  import opened AccountTables

  function ErrorOf(x: Tx): Option<Code> {
    match x
    case Done(_) => None
    case Raised(_, code) => Some(code)
  }

  /** What _live_session writes to the tokens of an expired session before it raises. */
  function ExpireTokens(tokens: map<string, Token>, id: string): map<string, Token> {
    map k | k in tokens :: if tokens[k].session == id && tokens[k].state.Active? then tokens[k].(state := Expired)
      else tokens[k]
  }

  class DurableAccountRuntime {
    const config: Config
    var subjects: map<string, SubjectState>
    var devices: map<string, Device>
    var sessions: map<string, Session>
    var tokens: map<string, Token>
    var pairs: map<string, Pair>
    var revocations: seq<Revocation>

    function View(): Tables
      reads this
    {
      Tables(subjects, devices, sessions, tokens, pairs, revocations)
    }

    constructor (config: Config)
      ensures this.config == config && View() == EMPTY
    {
      this.config := config;
      subjects, devices, sessions, tokens, pairs, revocations := map[], map[], map[], map[], map[], [];
    }

    method Rollback(saved: Tables)
      modifies this
      ensures View() == saved
    {
      subjects, devices, sessions := saved.subjects, saved.devices, saved.sessions;
      tokens, pairs, revocations := saved.tokens, saved.pairs, saved.revocations;
    }

    method Register(subject: string, device: string, now: int) returns (error: Option<Code>)
      modifies this
      ensures var x := AccountTables.Register(config, old(View()), subject, device, now);
        View() == x.tables && error == ErrorOf(x)
    {
      hide Name;
      if !Name(subject) || !Name(device) { return Some(BindingInvalid); }
      if !Timestamp(now) { return Some(ClockInvalid); }
      var saved := View();
      if subject !in subjects {
        if |subjects| >= config.maxSubjects { return Some(SubjectCapacity); }
        subjects := subjects[subject := SubjectActive];
      } else if !subjects[subject].SubjectActive? {
        return Some(SubjectIsRevoked);
      }
      assert subjects == saved.subjects[subject := SubjectActive];
      if device !in devices {
        devices := devices[device := Device(subject, DeviceActive, None, now)];
      } else if devices[device].subject != subject || !devices[device].state.DeviceActive? {
        Rollback(saved);
        return Some(DeviceConflict);
      }
      error := None;
    }

    method OpenSession(subject: string, device: string, expires: int, id: string,
                       now: int) returns (error: Option<Code>)
      modifies this
      ensures var x := AccountTables.OpenSession(config, old(View()), subject, device, expires, id, now);
        View() == x.tables && error == ErrorOf(x)
    {
      hide Name;
      if !Name(subject) || !Name(device) || !Name(id) { return Some(BindingInvalid); }
      if !Timestamp(now) { return Some(ClockInvalid); }
      if !GoodExpiry(expires, now) { return Some(ExpiryInvalid); }
      if subject !in subjects || !subjects[subject].SubjectActive? { return Some(SubjectUnavailable); }
      if device !in devices || devices[device].subject != subject || !devices[device].state.DeviceActive? {
        return Some(DeviceUnavailable);
      }
      if |sessions| >= config.maxSessions { return Some(SessionCapacity); }
      if id in sessions { return Some(SessionConflict); }
      sessions := sessions[id := Session(subject, device, Active, expires, 1, now)];
      error := None;
    }

    /** _live_session: an expired session is written down as such before the failure that undoes it. */
    method RequireLive(id: string, now: int) returns (error: Option<Code>)
      modifies this
      ensures error == LiveFault(old(View()), id, now)
      ensures error.None? ==> View() == old(View())
    {
      if id !in sessions || sessions[id].device !in devices || sessions[id].subject !in subjects {
        return Some(SessionUnknown);
      }
      var row := sessions[id];
      if row.expires <= now {
        if row.state.Active? { sessions := sessions[id := row.(state := Expired, generation := row.generation + 1)]; }
        tokens := ExpireTokens(tokens, id);
        if id in pairs && pairs[id].state.Active? {
          pairs := pairs[id := pairs[id].(state := Expired, generation := pairs[id].generation + 1)];
        }
        return Some(SessionExpired);
      }
      if !row.state.Active? || !devices[row.device].state.DeviceActive? || !subjects[row.subject].SubjectActive? {
        return Some(SessionRevoked);
      }
      error := None;
    }

    method BindPair(id: string, identity: string, expires: int, now: int) returns (error: Option<Code>)
      modifies this
      ensures var x := AccountTables.BindPair(old(View()), id, identity, expires, now);
        View() == x.tables && error == ErrorOf(x)
    {
      hide Name;
      if !Name(id) || !Name(identity) { return Some(BindingInvalid); }
      if !Timestamp(now) { return Some(ClockInvalid); }
      var saved := View();
      error := RequireLive(id, now);
      if error.Some? {
        Rollback(saved);
        return;
      }
      if !GoodExpiry(expires, now) || expires > sessions[id].expires { return Some(ExpiryInvalid); }
      var generation := if id in pairs then pairs[id].generation + 1 else 1;
      pairs := pairs[id := Pair(sessions[id].subject, sessions[id].device, identity, Active, expires, generation)];
    }

    method IssueAccess(q: Access, token: string, now: int) returns (error: Option<Code>)
      modifies this
      ensures var x := AccountTables.IssueAccess(old(View()), q, token, now); View() == x.tables && error == ErrorOf(x)
    {
      hide Name, GoodScopes, Hex;
      if !Name(q.session) || !Name(q.audience) { return Some(BindingInvalid); }
      if !GoodScopes(q.scopes) { return Some(ScopeInvalid); }
      if !Hex(q.policy) { return Some(PolicyHashInvalid); }
      if !Timestamp(now) { return Some(ClockInvalid); }
      var saved := View();
      error := RequireLive(q.session, now);
      if error.Some? {
        Rollback(saved);
        return;
      }
      if !GoodExpiry(q.expires, now) || q.expires > sessions[q.session].expires { return Some(ExpiryInvalid); }
      tokens := Rotate(tokens, q.session, q.audience);
      if token in tokens {
        Rollback(saved);
        return Some(IntegrityError);
      }
      tokens := tokens[token :=
        Token(q.session, q.audience, set i | 0 <= i < |q.scopes| :: q.scopes[i], q.policy, q.present, q.biometric,
              q.expires, Active, now)];
    }

    /** verify_access leaves the tables as they were, whatever it wrote on the way to a failure. */
    method VerifyAccess(token: string, audience: string, scope: string, now: int)
      returns (error: Option<Code>, verified: Option<Verified>)
      modifies this
      ensures View() == old(View()) && error == VerifyFault(old(View()), token, audience, scope, now)
      ensures verified.Some? <==> error.None?
      ensures verified.Some? ==>
        && token in tokens && tokens[token].session in sessions
        && (var x, s := tokens[token], sessions[tokens[token].session];
            verified.value == Verified(s.subject, s.device, x.session, audience, x.scopes, x.expires, x.policy,
                                       x.present, x.biometric))
    {
      hide Name, Bearer;
      if !Bearer(token) || !Name(audience) || scope == "" { return Some(AccessDenied), None; }
      if !Timestamp(now) { return Some(ClockInvalid), None; }
      if token !in tokens || tokens[token].session !in sessions || !tokens[token].state.Active? {
        return Some(AccessDenied), None;
      }
      var x, saved := tokens[token], View();
      error := RequireLive(x.session, now);
      if error.Some? {
        Rollback(saved);
        return error, None;
      }
      if x.expires <= now {
        tokens := tokens[token := x.(state := Expired)];
        Rollback(saved);
        return Some(AccessDenied), None;
      }
      var row := sessions[x.session];
      if x.audience != audience || scope !in x.scopes || x.expires > row.expires { return Some(AccessDenied), None; }
      verified := Some(Verified(row.subject, row.device, x.session, audience, x.scopes, x.expires, x.policy, x.present,
                                x.biometric));
    }

    /** resolve_pair, which leaves the tables as they were too. */
    method ResolvePair(subject: string, device: string, id: string, now: int)
      returns (error: Option<Code>, binding: Option<Binding>)
      modifies this
      ensures View() == old(View()) && error == PairFault(old(View()), subject, device, id, now)
      ensures binding.Some? <==> error.None?
      ensures binding.Some? ==>
        id in pairs && binding.value == Binding(subject, device, id, pairs[id].identity, pairs[id].expires)
    {
      hide Name;
      if !Name(subject) || !Name(device) || !Name(id) { return Some(PairDenied), None; }
      if !Timestamp(now) { return Some(ClockInvalid), None; }
      var saved := View();
      error := RequireLive(id, now);
      if error.Some? {
        Rollback(saved);
        return error, None;
      }
      if id !in pairs { return Some(PairDenied), None; }
      var pair, session := pairs[id], sessions[id];
      if !pair.state.Active? || pair.expires <= now || pair.subject != subject || pair.device != device
         || session.subject != subject || session.device != device
      {
        return Some(PairDenied), None;
      }
      binding := Some(Binding(subject, device, id, pair.identity, pair.expires));
    }

    method RevokeSession(id: string, reason: string, now: int) returns (error: Option<Code>)
      modifies this
      ensures var x := AccountTables.RevokeSession(old(View()), id, reason, now);
        View() == x.tables && error == ErrorOf(x)
    {
      hide Name;
      if !Name(id) { return Some(BindingInvalid); }
      if !Name(reason) { return Some(ReasonInvalid); }
      if !Timestamp(now) { return Some(ClockInvalid); }
      if id !in sessions { return Some(SessionUnknown); }
      if sessions[id].state.Revoked? { return None; }
      CascadeOne(id, reason, false, now);
      error := None;
    }

    /** The four statements that end one session. */
    method CascadeOne(id: string, reason: string, every: bool, now: int)
      requires id in sessions
      modifies this`sessions, this`tokens, this`pairs, this`revocations
      ensures View() == Cascade(old(View()), id, reason, every, now)
    {
      var row := sessions[id];
      sessions := sessions[id := row.(state := Revoked, generation := row.generation + 1)];
      tokens := RevokeTokens(tokens, id, every);
      pairs := RevokePair(pairs, id);
      revocations := revocations + [Revocation(row.subject, id, row.device, reason, now, false)];
    }

    /** replace_lost_device: both device rows, then the sessions selected from the lost one, one after the other. */
    method ReplaceDevice(subject: string, lost: string, replacement: string, listing: seq<string>,
                         now: int) returns (error: Option<Code>)
      modifies this
      ensures var x := AccountTables.ReplaceDevice(old(View()), subject, lost, replacement, listing, now);
        View() == x.tables && error == ErrorOf(x)
    {
      hide Name, Cascade, Select;
      if !Name(subject) || !Name(lost) || !Name(replacement) { return Some(BindingInvalid); }
      if lost == replacement { return Some(ReplacementInvalid); }
      if !Timestamp(now) { return Some(ClockInvalid); }
      if lost !in devices || devices[lost].subject != subject || !devices[lost].state.DeviceActive? {
        return Some(DeviceUnavailable);
      }
      if replacement in devices { return Some(DeviceConflict); }
      devices := devices[lost := devices[lost].(state := DeviceReplaced, replacement := Some(replacement))];
      devices := devices[replacement := Device(subject, DeviceActive, None, now)];
      var ids := Select(sessions, subject, lost, listing);
      SelectMeans(sessions, subject, lost, listing);
      ghost var start := View();
      assert forall i :: 0 <= i < |ids| ==> Selected(start.sessions, subject, lost, ids[i]);
      var n := 0;
      while n < |ids|
        invariant 0 <= n <= |ids| && View() == CascadeAll(start, ids[..n], now)
      {
        assert ids[..n + 1][..n] == ids[..n];
        CascadeOne(ids[n], "lost_device", true, now);
        n := n + 1;
      }
      assert ids[..|ids|] == ids;
      error := None;
    }

    method Acknowledge(sequence: int) returns (error: Option<Code>)
      modifies this
      ensures var x := AccountTables.Acknowledge(old(View()), sequence); View() == x.tables && error == ErrorOf(x)
    {
      if !(1 <= sequence <= |revocations|) || revocations[sequence - 1].acknowledged { return Some(SequenceInvalid); }
      revocations := revocations[sequence - 1 := revocations[sequence - 1].(acknowledged := true)];
      error := None;
    }
  }
}
