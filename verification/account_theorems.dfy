/** The session cascade every run of the account runtime keeps, and what it means for access and pair checks. */
module AccountTheorems {
  import opened Base
  import opened AccountTables

  datatype Step =
    | DoRegister(subject: string, device: string, now: int)
    | DoOpen(subject: string, device: string, expires: int, id: string, now: int)
    | DoBind(id: string, identity: string, expires: int, now: int)
    | DoIssue(q: Access, token: string, now: int)
    | DoRevoke(id: string, reason: string, now: int)
    | DoReplace(subject: string, lost: string, replacement: string, listing: seq<string>, now: int)
    | DoAcknowledge(sequence: int)

  /** The database lists every session once. */
  predicate Listing(sessions: map<string, Session>, listing: seq<string>) {
    (forall i, j :: 0 <= i < j < |listing| ==> listing[i] != listing[j]) && (forall k :: k in sessions ==> k in listing)
  }

  function Next(c: Config, t: Tables, step: Step): Tables {
    match step
    case DoRegister(subject, device, now) => Register(c, t, subject, device, now).tables
    case DoOpen(subject, device, expires, id, now) => OpenSession(c, t, subject, device, expires, id, now).tables
    case DoBind(id, identity, expires, now) => BindPair(t, id, identity, expires, now).tables
    case DoIssue(q, token, now) => IssueAccess(t, q, token, now).tables
    case DoRevoke(id, reason, now) => RevokeSession(t, id, reason, now).tables
    case DoReplace(subject, lost, replacement, listing, now) =>
      if Listing(t.sessions, listing) then ReplaceDevice(t, subject, lost, replacement, listing, now).tables else t
    case DoAcknowledge(sequence) => Acknowledge(t, sequence).tables
  }

  function Run(c: Config, t: Tables, steps: seq<Step>): Tables
    decreases |steps|
  {
    if steps == [] then t else Run(c, Next(c, t, steps[0]), steps[1..])
  }

  // ----- the invariant -----

  /** A session belongs to a device of its subject; an active one to an active device. It moves on once, to revoked. */
  predicate SessionFit(s: Session, devices: map<string, Device>, subjects: map<string, SubjectState>) {
    && s.device in devices && devices[s.device].subject == s.subject && s.subject in subjects
    && subjects[s.subject].SubjectActive?
    && (s.state.Active? || s.state.Revoked?) && (s.state.Active? ==> s.generation == 1)
    && (s.state.Revoked? ==> s.generation == 2)
  }

  ghost predicate SessionsFit(sessions: map<string, Session>, devices: map<string, Device>,
                              subjects: map<string, SubjectState>) {
    forall k :: k in sessions ==> SessionFit(sessions[k], devices, subjects)
  }

  ghost predicate DevicesLive(sessions: map<string, Session>, devices: map<string, Device>) {
    forall k :: k in sessions && sessions[k].state.Active? && sessions[k].device in devices ==>
      devices[sessions[k].device].state.DeviceActive?
  }

  predicate TokenFit(x: Token, sessions: map<string, Session>) {
    && x.session in sessions && x.expires <= sessions[x.session].expires && !x.state.Expired?
    && (x.state.Active? ==> sessions[x.session].state.Active?)
  }

  predicate Rivals(a: Token, b: Token) {
    a.session == b.session && a.audience == b.audience && a.state.Active? && b.state.Active?
  }

  /** At most one active token for a session and an audience. */
  ghost predicate TokensFit(tokens: map<string, Token>, sessions: map<string, Session>) {
    && (forall k :: k in tokens ==> TokenFit(tokens[k], sessions))
    && (forall k, l | k in tokens && l in tokens && Rivals(tokens[k], tokens[l]) :: k == l)
  }

  predicate PairFit(id: string, p: Pair, sessions: map<string, Session>) {
    && id in sessions && p.subject == sessions[id].subject && p.device == sessions[id].device
    && p.expires <= sessions[id].expires
    && (p.state.Active? || p.state.Revoked?) && (p.state.Active? ==> sessions[id].state.Active?)
  }

  ghost predicate PairsFit(pairs: map<string, Pair>, sessions: map<string, Session>) {
    forall k :: k in pairs ==> PairFit(k, pairs[k], sessions)
  }

  function Count(revocations: seq<Revocation>, id: string): nat {
    if revocations == [] then 0 else
    Count(revocations[..|revocations| - 1], id) + (if revocations[|revocations| - 1].session == id then 1 else 0)
  }

  /** Each revoked session has exactly one event, every other one none. */
  ghost predicate EventsFit(revocations: seq<Revocation>, sessions: map<string, Session>) {
    forall id :: Count(revocations, id) == if id in sessions && sessions[id].state.Revoked? then 1 else 0
  }

  ghost predicate Core(t: Tables) {
    && SessionsFit(t.sessions, t.devices, t.subjects)
    && TokensFit(t.tokens, t.sessions)
    && PairsFit(t.pairs, t.sessions)
    && EventsFit(t.revocations, t.sessions)
  }

  ghost predicate Inv(t: Tables) {
    Core(t) && DevicesLive(t.sessions, t.devices)
  }

  // ----- forward -----

  predicate Later(a: State, b: State) {
    a == b || b.Revoked? || (a.Active? && b.Rotated?)
  }

  ghost predicate Forward(t: Tables, t': Tables) {
    && (forall k :: k in t.sessions ==>
          && k in t'.sessions
          && t'.sessions[k] == t.sessions[k].(state := t'.sessions[k].state, generation := t'.sessions[k].generation)
          && (t.sessions[k].state.Revoked? ==> t'.sessions[k].state.Revoked?))
    && (forall k :: k in t.tokens ==> k in t'.tokens && t'.tokens[k] == t.tokens[k].(state := t'.tokens[k].state)
                                        && Later(t.tokens[k].state, t'.tokens[k].state))
  }

  lemma ForwardTransitive(a: Tables, b: Tables, c: Tables)
    requires Forward(a, b) && Forward(b, c)
    ensures Forward(a, c)
  {
  }

  lemma Resting(t: Tables)
    ensures Forward(t, t)
  {
  }

  // ----- each transaction -----

  lemma RegisterKeeps(c: Config, t: Tables, subject: string, device: string, now: int)
    requires Inv(t)
    ensures var t' := Register(c, t, subject, device, now).tables; Inv(t') && Forward(t, t')
  {
    hide Name, TokensFit, PairsFit, EventsFit;
    Resting(t);
  }

  lemma OpenKeeps(c: Config, t: Tables, subject: string, device: string, expires: int, id: string, now: int)
    requires Inv(t)
    ensures var t' := OpenSession(c, t, subject, device, expires, id, now).tables; Inv(t') && Forward(t, t')
  {
    hide Name, TokensFit, PairsFit, EventsFit, DevicesLive;
    Resting(t);
    if OpenSession(c, t, subject, device, expires, id, now).Done? {
      SessionAppears(t, id, Session(subject, device, Active, expires, 1, now));
    }
  }

  lemma SessionAppears(t: Tables, id: string, s: Session)
    requires TokensFit(t.tokens, t.sessions) && PairsFit(t.pairs, t.sessions) && EventsFit(t.revocations, t.sessions)
    requires DevicesLive(t.sessions, t.devices) && id !in t.sessions && s.state.Active? && s.device in t.devices
    requires t.devices[s.device].state.DeviceActive?
    ensures TokensFit(t.tokens, t.sessions[id := s]) && PairsFit(t.pairs, t.sessions[id := s])
    ensures EventsFit(t.revocations, t.sessions[id := s])
    ensures DevicesLive(t.sessions[id := s], t.devices)
  {
    hide Count, Rivals;
  }

  lemma BindKeeps(t: Tables, id: string, identity: string, expires: int, now: int)
    requires Inv(t)
    ensures var t' := BindPair(t, id, identity, expires, now).tables; Inv(t') && Forward(t, t')
  {
    hide Name, TokensFit, SessionsFit, EventsFit, DevicesLive;
    Resting(t);
  }

  lemma RotatedTokens(tokens: map<string, Token>, sessions: map<string, Session>, id: string, audience: string,
                      token: string, x: Token)
    requires TokensFit(tokens, sessions) && token !in tokens && x.session == id && x.audience == audience
    requires x.state.Active?
    requires id in sessions && sessions[id].state.Active? && x.expires <= sessions[id].expires
    ensures TokensFit(Rotate(tokens, id, audience)[token := x], sessions)
  {
    var tokens' := Rotate(tokens, id, audience)[token := x];
    forall k, l | k in tokens' && l in tokens' && Rivals(tokens'[k], tokens'[l]) ensures k == l {
      if k != token && l != token { assert Rivals(tokens[k], tokens[l]); }
    }
  }

  lemma IssueKeeps(t: Tables, q: Access, token: string, now: int)
    requires Inv(t)
    ensures var t' := IssueAccess(t, q, token, now).tables; Inv(t') && Forward(t, t')
  {
    hide Name, GoodScopes, Hex, SessionsFit, EventsFit, PairsFit, DevicesLive, TokensFit;
    Resting(t);
    var x := IssueAccess(t, q, token, now);
    if x.Done? { RotatedTokens(t.tokens, t.sessions, q.session, q.audience, token, x.tables.tokens[token]); }
  }

  lemma CascadeTokens(tokens: map<string, Token>, sessions: map<string, Session>, id: string, every: bool, row: Session)
    requires TokensFit(tokens, sessions) && id in sessions && row.expires == sessions[id].expires
    ensures TokensFit(RevokeTokens(tokens, id, every), sessions[id := row])
  {
    var tokens' := RevokeTokens(tokens, id, every);
    forall k, l | k in tokens' && l in tokens' && Rivals(tokens'[k], tokens'[l]) ensures k == l {
      assert Rivals(tokens[k], tokens[l]);
    }
    hide Rivals;
  }

  lemma CascadePairs(pairs: map<string, Pair>, sessions: map<string, Session>, id: string, row: Session)
    requires PairsFit(pairs, sessions) && id in sessions
    requires row == sessions[id].(state := row.state, generation := row.generation)
    ensures PairsFit(RevokePair(pairs, id), sessions[id := row])
  {
  }

  lemma CascadeEvents(revocations: seq<Revocation>, sessions: map<string, Session>, id: string, row: Session,
                      e: Revocation)
    requires EventsFit(revocations, sessions) && id in sessions && !sessions[id].state.Revoked? && row.state.Revoked?
    requires e.session == id
    ensures EventsFit(revocations + [e], sessions[id := row])
  {
    assert (revocations + [e])[..|revocations|] == revocations;
  }

  /** Revoking one active session keeps everything but that its device may just have been replaced. */
  lemma CascadeKeeps(t: Tables, id: string, reason: string, every: bool, now: int)
    requires Core(t) && id in t.sessions && t.sessions[id].state.Active?
    ensures var t' := Cascade(t, id, reason, every, now);
      && Core(t') && Forward(t, t') && t'.devices == t.devices && t'.subjects == t.subjects
      && t'.sessions[id].state.Revoked?
      && t'.sessions.Keys == t.sessions.Keys
        && forall k :: k in t.sessions && k != id ==> t'.sessions[k] == t.sessions[k]
  {
    hide TokensFit, PairsFit, EventsFit, RevokePair;
    var t' := Cascade(t, id, reason, every, now);
    CascadeTokens(t.tokens, t.sessions, id, every, t'.sessions[id]);
    CascadePairs(t.pairs, t.sessions, id, t'.sessions[id]);
    CascadeEvents(t.revocations, t.sessions, id, t'.sessions[id], t'.revocations[|t.revocations|]);
  }

  lemma RevokeKeeps(t: Tables, id: string, reason: string, now: int)
    requires Inv(t)
    ensures var t' := RevokeSession(t, id, reason, now).tables; Inv(t') && Forward(t, t')
  {
    hide Core, Cascade, Name, Forward;
    Resting(t);
    var x := RevokeSession(t, id, reason, now);
    if x.Done? && !t.sessions[id].state.Revoked? {
      SessionKnown(t, id);
      CascadeKeeps(t, id, reason, false, now);
      StillLive(t, x.tables, id);
    }
  }

  lemma SessionKnown(t: Tables, id: string)
    requires Core(t) && id in t.sessions
    ensures SessionFit(t.sessions[id], t.devices, t.subjects)
  {
    hide TokensFit, PairsFit, EventsFit, SessionFit;
  }

  lemma StillLive(t: Tables, t': Tables, id: string)
    requires DevicesLive(t.sessions, t.devices) && t'.devices == t.devices && id in t'.sessions
    requires t'.sessions[id].state.Revoked?
    requires forall k :: k in t'.sessions && k != id ==> k in t.sessions && t'.sessions[k] == t.sessions[k]
    ensures DevicesLive(t'.sessions, t'.devices)
  {
  }

  /** The loop revokes exactly the sessions it was given. */
  lemma {:induction false} CascadeAllKeeps(t: Tables, ids: seq<string>, now: int)
    requires Core(t) && forall i :: 0 <= i < |ids| ==> ids[i] in t.sessions && t.sessions[ids[i]].state.Active?
    requires forall i, j :: 0 <= i < j < |ids| ==> ids[i] != ids[j]
    ensures var t' := CascadeAll(t, ids, now);
      && Core(t') && Forward(t, t') && t'.devices == t.devices && t'.subjects == t.subjects
      && (forall k :: k in t.sessions && k !in ids ==> t'.sessions[k] == t.sessions[k])
      && (forall k :: k in ids ==> k in t'.sessions && t'.sessions[k].state.Revoked?)
  {
    hide Core, Cascade, Forward;
    Resting(t);
    if ids != [] {
      var init, id := ids[..|ids| - 1], ids[|ids| - 1];
      assert ids == init + [id];
      CascadeAllKeeps(t, init, now);
      var t1 := CascadeAll(t, init, now);
      assert id !in init;
      CascadeKeeps(t1, id, "lost_device", true, now);
      ForwardTransitive(t, t1, CascadeAll(t, ids, now));
    }
  }

  lemma ReplaceCore(t: Tables, subject: string, lost: string, replacement: string, now: int)
    requires Core(t) && lost in t.devices && t.devices[lost].subject == subject && replacement !in t.devices
    ensures var devices :=
      t.devices[lost := t.devices[lost].(state := DeviceReplaced, replacement := Some(replacement))][
                                     replacement := Device(subject, DeviceActive, None, now)];
      Core(t.(devices := devices)) && Forward(t, t.(devices := devices))
  {
    hide TokensFit, PairsFit, EventsFit;
    Resting(t);
  }

  lemma ReplaceKeeps(t: Tables, subject: string, lost: string, replacement: string, listing: seq<string>, now: int)
    requires Inv(t) && Listing(t.sessions, listing)
    ensures var t' := ReplaceDevice(t, subject, lost, replacement, listing, now).tables; Inv(t') && Forward(t, t')
  {
    hide Core, Forward, Name, CascadeAll, Select, DevicesLive;
    Resting(t);
    if ReplaceDevice(t, subject, lost, replacement, listing, now).Done? {
      var devices := t.devices[lost := t.devices[lost].(state := DeviceReplaced, replacement := Some(replacement))][
                               replacement := Device(subject, DeviceActive, None, now)];
      var t1, ids := t.(devices := devices), Select(t.sessions, subject, lost, listing);
      SelectMeans(t.sessions, subject, lost, listing);
      ReplaceCore(t, subject, lost, replacement, now);
      assert forall i :: 0 <= i < |ids| ==> Selected(t.sessions, subject, lost, ids[i]);
      assert t1.sessions == t.sessions;
      CascadeAllKeeps(t1, ids, now);
      var t' := CascadeAll(t1, ids, now);
      ForwardTransitive(t, t1, t');
      ReplacedLive(t, t', subject, lost, replacement, ids, now);
    }
  }

  lemma ReplacedLive(t: Tables, t': Tables, subject: string, lost: string, replacement: string, ids: seq<string>,
                     now: int)
    requires Core(t) && DevicesLive(t.sessions, t.devices) && lost in t.devices && t.devices[lost].subject == subject
    requires replacement !in t.devices
    requires t'.devices
      == t.devices[lost := t.devices[lost].(state := DeviceReplaced, replacement := Some(replacement))][
                                     replacement := Device(subject, DeviceActive, None, now)]
    requires t'.sessions.Keys == t.sessions.Keys
      && forall id :: id in ids ==> id in t'.sessions && t'.sessions[id].state.Revoked?
    requires forall id :: Selected(t.sessions, subject, lost, id) ==> id in ids
    requires forall id :: id in t.sessions && id !in ids ==> t'.sessions[id] == t.sessions[id]
    ensures DevicesLive(t'.sessions, t'.devices)
  {
    hide TokensFit, PairsFit, EventsFit;
    forall k | k in t'.sessions && t'.sessions[k].state.Active? && t'.sessions[k].device in t'.devices
      ensures t'.devices[t'.sessions[k].device].state.DeviceActive?
    {
      assert k !in ids && t'.sessions[k] == t.sessions[k];
      assert SessionFit(t.sessions[k], t.devices, t.subjects) && !Selected(t.sessions, subject, lost, k);
    }
  }

  lemma {:induction false} CountSame(a: seq<Revocation>, b: seq<Revocation>, id: string)
    requires |a| == |b| && forall i :: 0 <= i < |a| ==> a[i].session == b[i].session
    ensures Count(a, id) == Count(b, id)
  {
    if a != [] { CountSame(a[..|a| - 1], b[..|b| - 1], id); }
  }

  lemma AcknowledgeKeeps(t: Tables, sequence: int)
    requires Inv(t)
    ensures var t' := Acknowledge(t, sequence).tables; Inv(t') && Forward(t, t')
  {
    hide TokensFit, PairsFit, SessionsFit, DevicesLive, Count;
    Resting(t);
    var t' := Acknowledge(t, sequence).tables;
    forall id
      ensures Count(t'.revocations, id) == Count(t.revocations, id)
    {
      CountSame(t'.revocations, t.revocations, id);
    }
  }

  lemma NextKeeps(c: Config, t: Tables, step: Step)
    requires Inv(t)
    ensures Inv(Next(c, t, step)) && Forward(t, Next(c, t, step))
  {
    hide Inv, Forward, Register, OpenSession, BindPair, IssueAccess, RevokeSession, ReplaceDevice, Acknowledge;
    Resting(t);
    match step
    case DoRegister(subject, device, now) => RegisterKeeps(c, t, subject, device, now);
    case DoOpen(subject, device, expires, id, now) => OpenKeeps(c, t, subject, device, expires, id, now);
    case DoBind(id, identity, expires, now) => BindKeeps(t, id, identity, expires, now);
    case DoIssue(q, token, now) => IssueKeeps(t, q, token, now);
    case DoRevoke(id, reason, now) => RevokeKeeps(t, id, reason, now);
    case DoReplace(subject, lost, replacement, listing, now) =>
      if Listing(t.sessions, listing) { ReplaceKeeps(t, subject, lost, replacement, listing, now); }
    case DoAcknowledge(sequence) => AcknowledgeKeeps(t, sequence);
  }

  lemma {:induction false} RunKeeps(c: Config, t: Tables, steps: seq<Step>)
    requires Inv(t)
    ensures Inv(Run(c, t, steps)) && Forward(t, Run(c, t, steps))
    decreases |steps|
  {
    hide Inv, Next, Forward;
    Resting(t);
    if steps != [] {
      var t1 := Next(c, t, steps[0]);
      NextKeeps(c, t, steps[0]);
      RunKeeps(c, t1, steps[1..]);
      ForwardTransitive(t, t1, Run(c, t1, steps[1..]));
    }
  }

  ghost predicate Reachable(c: Config, t: Tables) {
    exists steps :: t == Run(c, EMPTY, steps)
  }

  lemma ReachableFits(c: Config, t: Tables)
    requires Reachable(c, t)
    ensures Inv(t)
  {
    hide Run;
    var steps :| t == Run(c, EMPTY, steps);
    RunKeeps(c, EMPTY, steps);
  }

  // ----- theorems -----

  /** Authority hangs together, and the state expired never gets into the database: the writes of it are rolled back. */
  lemma AuthorityHangsTogether(c: Config, t: Tables)
    requires Reachable(c, t)
    ensures forall k, l | k in t.tokens && l in t.tokens && Rivals(t.tokens[k], t.tokens[l]) :: k == l
    ensures forall k :: k in t.tokens ==>
      t.tokens[k].session in t.sessions && t.tokens[k].expires <= t.sessions[t.tokens[k].session].expires
    ensures forall k :: k in t.pairs ==> k in t.sessions && t.pairs[k].expires <= t.sessions[k].expires
    ensures forall k :: k in t.tokens && t.tokens[k].state.Active? ==> LiveSession(t, t.tokens[k].session)
    ensures forall k :: k in t.pairs && t.pairs[k].state.Active? ==> LiveSession(t, k)
    ensures forall k :: k in t.sessions ==> !t.sessions[k].state.Expired?
    ensures forall k :: k in t.tokens ==> !t.tokens[k].state.Expired?
    ensures forall k :: k in t.pairs ==> !t.pairs[k].state.Expired?
  {
    hide Reachable, EventsFit;
    ReachableFits(c, t);
  }

  /** An active session, on an active device of its active subject. */
  predicate LiveSession(t: Tables, id: string) {
    && id in t.sessions && t.sessions[id].state.Active? && t.sessions[id].device in t.devices
    && t.devices[t.sessions[id].device].state.DeviceActive?
    && t.devices[t.sessions[id].device].subject == t.sessions[id].subject
    && t.sessions[id].subject in t.subjects && t.subjects[t.sessions[id].subject].SubjectActive?
  }

  /** Every revoked session was announced exactly once, and nothing else was. */
  lemma RevokedOnce(c: Config, t: Tables, id: string)
    requires Reachable(c, t)
    ensures Count(t.revocations, id) == if id in t.sessions && t.sessions[id].state.Revoked? then 1 else 0
  {
    hide Reachable, TokensFit, PairsFit, SessionsFit, DevicesLive;
    ReachableFits(c, t);
  }

  /**
   * In a reachable database a bearer is admitted exactly by its own row: the token is active, unexpired and covers the
   * request.
   */
  lemma AccessIsOneRow(c: Config, t: Tables, token: string, audience: string, scope: string, now: int)
    requires Reachable(c, t) && Bearer(token) && Name(audience) && scope != "" && Timestamp(now)
    ensures VerifyFault(t, token, audience, scope, now).None? <==>
      token in t.tokens && t.tokens[token].state.Active? && now < t.tokens[token].expires
        && t.tokens[token].audience == audience
      && scope in t.tokens[token].scopes
  {
    hide Reachable, Inv, Bearer, Name;
    ReachableFits(c, t);
    AuthorityHangsTogether(c, t);
  }

  /** So is a pair. */
  lemma PairIsOneRow(c: Config, t: Tables, subject: string, device: string, id: string, now: int)
    requires Reachable(c, t) && Name(subject) && Name(device) && Name(id) && Timestamp(now)
    ensures PairFault(t, subject, device, id, now).None? <==>
      id in t.pairs && t.pairs[id].state.Active? && now < t.pairs[id].expires && t.pairs[id].subject == subject
        && t.pairs[id].device == device
  {
    hide Reachable, Name, SessionsFit, TokensFit, EventsFit, DevicesLive;
    ReachableFits(c, t);
    AuthorityHangsTogether(c, t);
    if id in t.pairs { assert PairFit(id, t.pairs[id], t.sessions); }
  }

  /** Issuing a token ends the one before it for the same session and audience, at once and for good. */
  lemma PredecessorEnds(c: Config, t: Tables, q: Access, token: string, former: string, at: int, steps: seq<Step>,
                        scope: string, now: int)
    requires Reachable(c, t) && IssueAccess(t, q, token, at).Done?
    requires former in t.tokens && t.tokens[former].session == q.session && t.tokens[former].audience == q.audience
    ensures VerifyFault(Run(c, IssueAccess(t, q, token, at).tables, steps), former, q.audience, scope, now).Some?
  {
    hide Reachable, Inv, Run, Bearer, Name, LiveFault, GoodScopes, Hex;
    ReachableFits(c, t);
    var t1 := IssueAccess(t, q, token, at).tables;
    IssueKeeps(t, q, token, at);
    RunKeeps(c, t1, steps);
    assert former in t1.tokens && !t1.tokens[former].state.Active?;
    assert Later(t1.tokens[former].state, Run(c, t1, steps).tokens[former].state);
  }

  /** A revoked session, and so every session of a replaced device, never admits a bearer or resolves a pair again. */
  lemma RevokedForGood(c: Config, t: Tables, id: string, steps: seq<Step>, token: string, audience: string,
                       scope: string, subject: string, device: string, now: int)
    requires Reachable(c, t) && id in t.sessions && t.sessions[id].state.Revoked?
    ensures var t' := Run(c, t, steps);
      && (token in t'.tokens && t'.tokens[token].session == id ==> VerifyFault(t', token, audience, scope, now).Some?)
      && PairFault(t', subject, device, id, now).Some?
  {
    hide Reachable, Inv, Run, Bearer, Name;
    ReachableFits(c, t);
    RunKeeps(c, t, steps);
  }

  /** Replacing a lost device leaves none of its sessions active, and the new device ready for its subject. */
  lemma ReplacementCascades(c: Config, t: Tables, subject: string, lost: string, replacement: string,
                            listing: seq<string>, now: int)
    requires Reachable(c, t) && Listing(t.sessions, listing)
    requires ReplaceDevice(t, subject, lost, replacement, listing, now).Done?
    ensures var t' := ReplaceDevice(t, subject, lost, replacement, listing, now).tables;
      && (forall k :: k in t'.sessions && t'.sessions[k].device == lost ==> t'.sessions[k].state.Revoked?)
      && replacement in t'.devices && t'.devices[replacement] == Device(subject, DeviceActive, None, now)
  {
    hide Reachable, TokensFit, PairsFit, EventsFit, Name, Select, CascadeAll, Forward;
    ReachableFits(c, t);
    ReplaceKeeps(t, subject, lost, replacement, listing, now);
    ReplaceDevices(t, subject, lost, replacement, listing, now);
    var t' := ReplaceDevice(t, subject, lost, replacement, listing, now).tables;
    forall k | k in t'.sessions && t'.sessions[k].device == lost ensures t'.sessions[k].state.Revoked? {
      assert SessionFit(t'.sessions[k], t'.devices, t'.subjects);
    }
  }

  lemma ReplaceDevices(t: Tables, subject: string, lost: string, replacement: string, listing: seq<string>, now: int)
    requires Inv(t) && ReplaceDevice(t, subject, lost, replacement, listing, now).Done? && Listing(t.sessions, listing)
    ensures var t' := ReplaceDevice(t, subject, lost, replacement, listing, now).tables;
      && replacement in t'.devices && t'.devices[replacement] == Device(subject, DeviceActive, None, now)
      && lost in t'.devices && t'.devices[lost].state.DeviceReplaced?
  {
    hide Core, Name, Select, CascadeAll, Forward, DevicesLive;
    var devices := t.devices[lost := t.devices[lost].(state := DeviceReplaced, replacement := Some(replacement))][
                             replacement := Device(subject, DeviceActive, None, now)];
    var ids := Select(t.sessions, subject, lost, listing);
    SelectMeans(t.sessions, subject, lost, listing);
    ReplaceCore(t, subject, lost, replacement, now);
    assert forall i :: 0 <= i < |ids| ==> Selected(t.sessions, subject, lost, ids[i]);
    var t1 := t.(devices := devices);
    assert t1.sessions == t.sessions;
    CascadeAllKeeps(t1, ids, now);
  }
}
