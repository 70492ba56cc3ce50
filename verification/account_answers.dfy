/**
 * What the account runtime answers, said of the rows and the clock alone: who may open a session, bind a pair or be
 * issued a token, what a bearer must hold, what a revocation reaches; and where every row of a run comes from.
 */
module AccountAnswers {
  import opened Base
  import opened JsonBounds
  import opened AccountTables
  import opened AccountTheorems

  // ----- admission -----

  /** The session, its device and its subject are active, and it has time left. */
  ghost predicate Live(t: Tables, id: string, now: int) {
    && id in t.sessions && t.sessions[id].state == Active && now < t.sessions[id].expires
    && t.sessions[id].device in t.devices && t.devices[t.sessions[id].device].state == DeviceActive
    && t.sessions[id].subject in t.subjects && t.subjects[t.sessions[id].subject] == SubjectActive
  }

  lemma LiveIff(t: Tables, id: string, now: int)
    ensures LiveFault(t, id, now).None? <==> Live(t, id, now)
  {
  }

  /** One to 32 printable scopes of at most 128 characters, none twice. */
  ghost predicate Scopes(scopes: seq<string>) {
    && 1 <= |scopes| <= 32 && (forall s :: s in scopes ==> 1 <= |s| <= 128 && Printable(s))
    && (forall i, j :: 0 <= i < j < |scopes| ==> scopes[i] != scopes[j])
  }

  lemma ScopesIff(scopes: seq<string>)
    ensures GoodScopes(scopes) <==> Scopes(scopes)
  {
    hide Printable;
  }

  /** A subject is registered with a device exactly when neither is spent nor someone else's, and there is room. */
  lemma RegisterDecides(c: Config, t: Tables, subject: string, device: string, now: int)
    ensures var x := Register(c, t, subject, device, now);
      && (x.Done? <==>
            && Label(subject, 256) && Label(device, 256) && 0 <= now <= 253402300799
            && (if subject in t.subjects then t.subjects[subject] == SubjectActive else |t.subjects| < c.maxSubjects)
            && (device in t.devices ==>
              t.devices[device].subject == subject && t.devices[device].state == DeviceActive))
      && x.tables == if x.Done? then
           Tables(t.subjects[subject := SubjectActive],
                  t.devices[device := if device in t.devices then t.devices[device]
                                      else Device(subject, DeviceActive, None, now)],
                  t.sessions, t.tokens, t.pairs, t.revocations)
         else t
  {
    hide Label;
  }

  /** A session is opened exactly for an active subject on an active device of its own, in the future and once. */
  lemma OpenDecides(c: Config, t: Tables, subject: string, device: string, expires: int, id: string, now: int)
    ensures var x := OpenSession(c, t, subject, device, expires, id, now);
      && (x.Done? <==>
            && Label(subject, 256) && Label(device, 256) && Label(id, 256) && 0 <= now < expires <= 253402300799
            && subject in t.subjects && t.subjects[subject] == SubjectActive
            && device in t.devices && t.devices[device].subject == subject && t.devices[device].state == DeviceActive
            && |t.sessions| < c.maxSessions && id !in t.sessions)
      && x.tables == if x.Done? then
           Tables(t.subjects, t.devices, t.sessions[id := Session(subject, device, Active, expires, 1, now)], t.tokens,
                  t.pairs, t.revocations)
         else t
  {
    hide Label;
  }

  /** A pair is bound exactly to a live session that it does not outlive; it is the session's one pair, counted on. */
  lemma BindDecides(t: Tables, id: string, identity: string, expires: int, now: int)
    ensures var x := BindPair(t, id, identity, expires, now);
      && (x.Done? <==>
            && Label(id, 256) && Label(identity, 256) && 0 <= now < expires <= 253402300799 && Live(t, id, now)
            && expires <= t.sessions[id].expires)
      && x.tables == if x.Done? then
           Tables(t.subjects, t.devices, t.sessions, t.tokens,
                  t.pairs[id := Pair(t.sessions[id].subject, t.sessions[id].device, identity, Active, expires,
                                     if id in t.pairs then t.pairs[id].generation + 1 else 1)],
                  t.revocations)
         else t
  {
    hide Label;
  }

  /** The tokens after another of the session and audience was issued: that one, and those before it rotated. */
  ghost predicate Rotated(tokens: map<string, Token>, q: Access, token: string, now: int, tokens': map<string, Token>) {
    && tokens'.Keys == tokens.Keys + {token}
    && tokens'[token] == Token(q.session, q.audience, (set s | s in q.scopes), q.policy, q.present, q.biometric,
                               q.expires, Active, now)
    && (forall k :: k in tokens && k != token ==>
          tokens'[k] == if tokens[k].session == q.session && tokens[k].audience == q.audience
                           && tokens[k].state == Active
                        then tokens[k].(state := State.Rotated) else tokens[k])
  }

  /** A token is issued exactly on a live session that it does not outlive, with all that was asked for it. */
  lemma IssueDecides(t: Tables, q: Access, token: string, now: int)
    ensures var x := IssueAccess(t, q, token, now);
      && (x.Done? <==>
            && Label(q.session, 256) && Label(q.audience, 256) && Scopes(q.scopes) && Hex(q.policy)
            && 0 <= now < q.expires <= 253402300799 && Live(t, q.session, now)
            && q.expires <= t.sessions[q.session].expires && token !in t.tokens)
      && (x.Done? ==>
            && Rotated(t.tokens, q, token, now, x.tables.tokens)
            && x.tables == Tables(t.subjects, t.devices, t.sessions, x.tables.tokens, t.pairs, t.revocations))
      && (x.Raised? ==> x.tables == t)
  {
    hide Label, Hex, GoodScopes, Scopes, LiveFault, Live;
    ScopesIff(q.scopes);
    LiveIff(t, q.session, now);
    assert (set i | 0 <= i < |q.scopes| :: q.scopes[i]) == set s | s in q.scopes by {
      assert forall s :: s in q.scopes ==> exists i :: 0 <= i < |q.scopes| && q.scopes[i] == s;
    }
  }

  /** A bearer is admitted exactly by an active, unexpired token for the audience and scope, on a live session. */
  lemma VerifyDecides(t: Tables, token: string, audience: string, scope: string, now: int)
    ensures VerifyFault(t, token, audience, scope, now).None? <==>
      && 16 <= Utf8Length(token) <= 8192 && Printable(token) && Label(audience, 256) && scope != ""
      && 0 <= now <= 253402300799 && token in t.tokens
      && (var x := t.tokens[token];
          && x.state == Active && now < x.expires && x.audience == audience && scope in x.scopes
          && Live(t, x.session, now) && x.expires <= t.sessions[x.session].expires)
  {
    hide Label, Printable, Utf8Length;
  }

  /** A pair resolves exactly for the subject and device it was bound for, active and unexpired, on a live session. */
  lemma PairDecides(t: Tables, subject: string, device: string, id: string, now: int)
    ensures PairFault(t, subject, device, id, now).None? <==>
      && Label(subject, 256) && Label(device, 256) && Label(id, 256) && 0 <= now <= 253402300799
      && Live(t, id, now) && t.sessions[id].subject == subject && t.sessions[id].device == device && id in t.pairs
      && (var p := t.pairs[id];
          p.state == Active && now < p.expires && p.subject == subject && p.device == device)
  {
    hide Label;
  }

  // ----- revocation -----

  /** A session's revocation ends it, its active and rotated tokens and its pair, with one event; once only. */
  lemma RevokeDecides(t: Tables, id: string, reason: string, now: int)
    ensures var x := RevokeSession(t, id, reason, now);
      && (x.Done? <==> Label(id, 256) && Label(reason, 256) && 0 <= now <= 253402300799 && id in t.sessions)
      && (x.Raised? || t.sessions[id].state == State.Revoked ==> x.tables == t)
      && (x.Done? && t.sessions[id].state != State.Revoked ==>
            var t', s := x.tables, t.sessions[id];
            && t'.subjects == t.subjects && t'.devices == t.devices
            && t'.sessions == t.sessions[id := Session(s.subject, s.device, State.Revoked, s.expires, s.generation + 1,
                                                       s.created)]
            && t'.tokens.Keys == t.tokens.Keys && t'.pairs.Keys == t.pairs.Keys
            && (forall k :: k in t.tokens ==>
                  t'.tokens[k] == if t.tokens[k].session == id
                                     && (t.tokens[k].state == Active || t.tokens[k].state == State.Rotated)
                                  then t.tokens[k].(state := State.Revoked) else t.tokens[k])
            && (forall k :: k in t.pairs ==>
                  t'.pairs[k] == if k == id
                                 then t.pairs[k].(state := State.Revoked, generation := t.pairs[k].generation + 1)
                                 else t.pairs[k])
            && t'.revocations == t.revocations + [Revocation(s.subject, id, s.device, reason, now, false)])
  {
    hide Label;
  }

  /** Which sessions go with a device: those of the subject on it that are active. */
  ghost predicate Goes(t: Tables, subject: string, lost: string, id: string) {
    && id in t.sessions && t.sessions[id].subject == subject && t.sessions[id].device == lost
    && t.sessions[id].state == Active
  }

  /** The rows once these sessions are gone: they, every token of theirs and their pairs are revoked, and no others. */
  ghost predicate Gone(t: Tables, ids: set<string>, t': Tables) {
    && t'.sessions.Keys == t.sessions.Keys && t'.tokens.Keys == t.tokens.Keys && t'.pairs.Keys == t.pairs.Keys
    && (forall k :: k in t.sessions ==>
          t'.sessions[k] == if k in ids
                            then t.sessions[k].(state := State.Revoked, generation := t.sessions[k].generation + 1)
                            else t.sessions[k])
    && (forall k :: k in t.tokens ==>
          t'.tokens[k] == if t.tokens[k].session in ids then t.tokens[k].(state := State.Revoked) else t.tokens[k])
    && (forall k :: k in t.pairs ==>
          t'.pairs[k] == if k in ids then t.pairs[k].(state := State.Revoked, generation := t.pairs[k].generation + 1)
                         else t.pairs[k])
  }

  /** The event that announces a session lost with its device. */
  function Loss(subject: string, lost: string, id: string, now: int): Revocation {
    Revocation(subject, id, lost, "lost_device", now, false)
  }

  /** The events after these sessions were lost: one for each of them, in their order. */
  ghost predicate Announced(t: Tables, subject: string, lost: string, ids: seq<string>, now: int, t': Tables) {
    && |t'.revocations| == |t.revocations| + |ids|
    && (forall i :: 0 <= i < |t.revocations| ==> t'.revocations[i] == t.revocations[i])
    && (forall i :: 0 <= i < |ids| ==> t'.revocations[|t.revocations| + i] == Loss(subject, lost, ids[i], now))
  }

  lemma NothingGone(t: Tables, subject: string, lost: string, now: int)
    ensures Gone(t, {}, t) && Announced(t, subject, lost, [], now, t)
  {
  }

  lemma {:induction false} CascadeAllMeans(t: Tables, subject: string, lost: string, ids: seq<string>, now: int)
    requires forall i :: 0 <= i < |ids| ==> ids[i] in t.sessions && Goes(t, subject, lost, ids[i])
    requires forall i, j :: 0 <= i < j < |ids| ==> ids[i] != ids[j]
    ensures var t' := CascadeAll(t, ids, now);
      && Gone(t, (set id | id in ids), t') && Announced(t, subject, lost, ids, now, t')
      && t'.subjects == t.subjects && t'.devices == t.devices
  {
    hide Cascade, Gone, Announced;
    if ids == [] {
      NothingGone(t, subject, lost, now);
      assert (set id: string | id in ids) == {};
    } else {
      var init, id := ids[..|ids| - 1], ids[|ids| - 1];
      assert ids == init + [id] && id !in init;
      CascadeAllMeans(t, subject, lost, init, now);
      var t1 := CascadeAll(t, init, now);
      assert (set k | k in ids) == (set k | k in init) + {id};
      CascadeGone(t, t1, (set k | k in init), id, now);
      assert Goes(t, subject, lost, id);
      GoesOn(t, t1, (set k | k in init), subject, lost, id);
      CascadeAnnounced(t, t1, subject, lost, init, id, now);
      assert CascadeAll(t, ids, now) == Cascade(t1, id, "lost_device", true, now);
    }
  }

  lemma GoesOn(t: Tables, t1: Tables, ids: set<string>, subject: string, lost: string, id: string)
    requires Goes(t, subject, lost, id) && Gone(t, ids, t1) && id !in ids
    ensures Goes(t1, subject, lost, id)
  {
  }

  lemma CascadeGone(t: Tables, t1: Tables, ids: set<string>, id: string, now: int)
    requires Gone(t, ids, t1) && id in t.sessions && id !in ids
    ensures var t' := Cascade(t1, id, "lost_device", true, now);
      Gone(t, ids + {id}, t') && t'.subjects == t1.subjects && t'.devices == t1.devices
  {
  }

  lemma CascadeAnnounced(t: Tables, t1: Tables, subject: string, lost: string, ids: seq<string>, id: string, now: int)
    requires Announced(t, subject, lost, ids, now, t1) && id in t1.sessions
    requires t1.sessions[id].subject == subject && t1.sessions[id].device == lost
    ensures Announced(t, subject, lost, ids + [id], now, Cascade(t1, id, "lost_device", true, now))
  {
  }

  /** The listing names exactly the sessions that go, each once. */
  ghost predicate Lists(t: Tables, subject: string, lost: string, ids: seq<string>) {
    && (forall i, j :: 0 <= i < j < |ids| ==> ids[i] != ids[j])
    && (forall id :: id in ids <==> Goes(t, subject, lost, id))
  }

  /**
   * A lost device is replaced exactly by one not seen before, for the subject it is active for. The two devices then
   * name each other's fate, every session that goes is revoked with all its tokens and its pair, one event for each.
   */
  lemma ReplaceDecides(t: Tables, subject: string, lost: string, replacement: string, listing: seq<string>, now: int)
    requires Listing(t.sessions, listing)
    ensures var x := ReplaceDevice(t, subject, lost, replacement, listing, now);
      && (x.Done? <==>
            && Label(subject, 256) && Label(lost, 256) && Label(replacement, 256) && 0 <= now <= 253402300799
            && lost in t.devices && t.devices[lost].subject == subject && t.devices[lost].state == DeviceActive
            && replacement !in t.devices)
      && (x.Done? ==>
            && x.tables.subjects == t.subjects
            && x.tables.devices == t.devices[lost := Device(subject, DeviceReplaced, Some(replacement),
                                                            t.devices[lost].registered)]
                                            [replacement := Device(subject, DeviceActive, None, now)]
            && exists ids :: Lists(t, subject, lost, ids) && Gone(t, (set id | id in ids), x.tables)
                             && Announced(t, subject, lost, ids, now, x.tables))
      && (x.Raised? ==> x.tables == t)
  {
    hide Label, Gone, Announced, CascadeAll, Select;
    var x := ReplaceDevice(t, subject, lost, replacement, listing, now);
    SelectMeans(t.sessions, subject, lost, listing);
    if x.Done? {
      var ids := Select(t.sessions, subject, lost, listing);
      var devices := t.devices[lost := t.devices[lost].(state := DeviceReplaced, replacement := Some(replacement))]
                              [replacement := Device(subject, DeviceActive, None, now)];
      var t1 := t.(devices := devices);
      assert forall i :: 0 <= i < |ids| ==> Selected(t.sessions, subject, lost, ids[i]);
      CascadeAllMeans(t1, subject, lost, ids, now);
      Unmoved(t, t1, subject, lost, ids, now, CascadeAll(t1, ids, now));
      assert Lists(t, subject, lost, ids);
      assert x.tables == CascadeAll(t1, ids, now);
    }
  }

  lemma Unmoved(t: Tables, t1: Tables, subject: string, lost: string, ids: seq<string>, now: int, t': Tables)
    requires t1 == t.(devices := t1.devices)
    requires Gone(t1, (set id | id in ids), t') && Announced(t1, subject, lost, ids, now, t')
    ensures Gone(t, (set id | id in ids), t') && Announced(t, subject, lost, ids, now, t')
  {
  }

  /** An event is acknowledged exactly once. */
  lemma AcknowledgeDecides(t: Tables, sequence: int)
    ensures var x := Acknowledge(t, sequence);
      if 1 <= sequence <= |t.revocations| && !t.revocations[sequence - 1].acknowledged
      then x == Done(Tables(t.subjects, t.devices, t.sessions, t.tokens, t.pairs, t.revocations[sequence - 1 :=
                       t.revocations[sequence - 1].(acknowledged := true)]))
      else x.Raised? && x.tables == t
  {
  }

  // ----- where rows come from -----

  lemma {:induction false} RunLast(c: Config, t: Tables, steps: seq<Step>)
    requires steps != []
    ensures Run(c, t, steps) == Next(c, Run(c, t, steps[..|steps| - 1]), steps[|steps| - 1])
    decreases |steps|
  {
    hide Next;
    if |steps| > 1 {
      RunLast(c, Next(c, t, steps[0]), steps[1..]);
      assert steps[1..][..|steps| - 2] == steps[..|steps| - 1][1..];
    }
  }

  /** This step, taken in t, opened the session: on an active device of its active subject. */
  ghost predicate OpenedBy(t: Tables, step: Step, k: string, s: Session) {
    && step.DoOpen? && step.id == k && 0 <= step.now < step.expires
    && s == Session(step.subject, step.device, s.state, step.expires, s.generation, step.now)
    && s.subject in t.subjects && t.subjects[s.subject] == SubjectActive
    && s.device in t.devices && t.devices[s.device].subject == s.subject && t.devices[s.device].state == DeviceActive
  }

  /** The same row but for its state, and how often that moved. */
  predicate SameSession(s: Session, s': Session) {
    s' == s.(state := s'.state, generation := s'.generation)
  }

  lemma SessionComes(c: Config, t: Tables, step: Step, k: string)
    requires k in Next(c, t, step).sessions
    ensures var s := Next(c, t, step).sessions[k];
      OpenedBy(t, step, k, s) || (k in t.sessions && SameSession(t.sessions[k], s))
  {
    hide Register, OpenSession, BindPair, IssueAccess, RevokeSession, ReplaceDevice, Acknowledge, Label, Scopes, Hex,
      Live, Lists, Announced, Rotated;
    match step
    case DoRegister(subject, device, now) => RegisterDecides(c, t, subject, device, now);
    case DoOpen(subject, device, expires, id, now) => OpenDecides(c, t, subject, device, expires, id, now);
    case DoBind(id, identity, expires, now) => BindDecides(t, id, identity, expires, now);
    case DoIssue(q, token, now) => IssueDecides(t, q, token, now);
    case DoRevoke(id, reason, now) => RevokeDecides(t, id, reason, now);
    case DoReplace(subject, lost, replacement, listing, now) =>
      if Listing(t.sessions, listing) { ReplaceDecides(t, subject, lost, replacement, listing, now); }
    case DoAcknowledge(sequence) => AcknowledgeDecides(t, sequence);
  }

  /** Over every run each session was opened by a subject then active on a device of its own then active. */
  lemma {:induction false} SessionStory(c: Config, steps: seq<Step>, k: string)
    requires k in Run(c, EMPTY, steps).sessions
    ensures var s := Run(c, EMPTY, steps).sessions[k];
      exists i :: 0 <= i < |steps| && OpenedBy(Run(c, EMPTY, steps[..i]), steps[i], k, s)
    decreases |steps|
  {
    hide Next, OpenedBy, SameSession;
    if steps == [] {
      assert false;
    } else {
      var n := |steps| - 1;
      var t := Run(c, EMPTY, steps[..n]);
      RunLast(c, EMPTY, steps);
      SessionComes(c, t, steps[n], k);
      var s := Run(c, EMPTY, steps).sessions[k];
      if !OpenedBy(t, steps[n], k, s) {
        SessionStory(c, steps[..n], k);
        var i :| 0 <= i < n && OpenedBy(Run(c, EMPTY, steps[..n][..i]), steps[..n][i], k, t.sessions[k]);
        assert steps[..n][..i] == steps[..i];
        SameOpening(Run(c, EMPTY, steps[..i]), steps[i], k, t.sessions[k], s);
      }
    }
  }

  lemma SameOpening(t: Tables, step: Step, k: string, s: Session, s': Session)
    requires OpenedBy(t, step, k, s) && SameSession(s, s')
    ensures OpenedBy(t, step, k, s')
  {
  }

  /** This step, taken in t, issued the token with all that was asked for it, on a session that was live. */
  ghost predicate IssuedBy(t: Tables, step: Step, k: string, x: Token) {
    && step.DoIssue? && step.token == k && Live(t, step.q.session, step.now)
    && step.now < step.q.expires <= t.sessions[step.q.session].expires
    && x == Token(step.q.session, step.q.audience, (set s | s in step.q.scopes), step.q.policy, step.q.present,
                  step.q.biometric, step.q.expires, x.state, step.now)
  }

  lemma TokenComes(c: Config, t: Tables, step: Step, k: string)
    requires k in Next(c, t, step).tokens
    ensures var x := Next(c, t, step).tokens[k];
      IssuedBy(t, step, k, x) || (k in t.tokens && x == t.tokens[k].(state := x.state))
  {
    hide Register, OpenSession, BindPair, IssueAccess, RevokeSession, ReplaceDevice, Acknowledge, Label, Scopes, Hex,
      Live, Lists, Announced;
    match step
    case DoRegister(subject, device, now) => RegisterDecides(c, t, subject, device, now);
    case DoOpen(subject, device, expires, id, now) => OpenDecides(c, t, subject, device, expires, id, now);
    case DoBind(id, identity, expires, now) => BindDecides(t, id, identity, expires, now);
    case DoIssue(q, token, now) => IssueDecides(t, q, token, now);
    case DoRevoke(id, reason, now) => RevokeDecides(t, id, reason, now);
    case DoReplace(subject, lost, replacement, listing, now) =>
      if Listing(t.sessions, listing) { ReplaceDecides(t, subject, lost, replacement, listing, now); }
    case DoAcknowledge(sequence) => AcknowledgeDecides(t, sequence);
  }

  /**
   * Over every run each token was issued on a session live at that moment, within it, and has exactly the audience,
   * scopes, policy, presence and expiry asked for then.
   */
  lemma {:induction false} TokenStory(c: Config, steps: seq<Step>, k: string)
    requires k in Run(c, EMPTY, steps).tokens
    ensures var x := Run(c, EMPTY, steps).tokens[k];
      exists i :: 0 <= i < |steps| && IssuedBy(Run(c, EMPTY, steps[..i]), steps[i], k, x)
    decreases |steps|
  {
    hide Next, IssuedBy;
    if steps == [] {
      assert false;
    } else {
      var n := |steps| - 1;
      var t := Run(c, EMPTY, steps[..n]);
      RunLast(c, EMPTY, steps);
      TokenComes(c, t, steps[n], k);
      var x := Run(c, EMPTY, steps).tokens[k];
      if !IssuedBy(t, steps[n], k, x) {
        TokenStory(c, steps[..n], k);
        var i :| 0 <= i < n && IssuedBy(Run(c, EMPTY, steps[..n][..i]), steps[..n][i], k, t.tokens[k]);
        assert steps[..n][..i] == steps[..i];
        SameIssue(Run(c, EMPTY, steps[..i]), steps[i], k, t.tokens[k], x);
      }
    }
  }

  lemma SameIssue(t: Tables, step: Step, k: string, x: Token, x': Token)
    requires IssuedBy(t, step, k, x) && x' == x.(state := x'.state)
    ensures IssuedBy(t, step, k, x')
  {
    hide Live;
  }

  /**
   * So whatever verify_access tells of an admitted bearer was said when its token was issued and its session opened:
   * the audience and scope asked about were asked for then, and neither has run out.
   */
  lemma AccessStory(c: Config, steps: seq<Step>, token: string, audience: string, scope: string, now: int)
    requires VerifyFault(Run(c, EMPTY, steps), token, audience, scope, now).None?
    ensures exists i, j :: Accessed(c, steps, token, audience, scope, now, i, j)
  {
    hide Run, VerifyFault, IssuedBy, OpenedBy;
    var t := Run(c, EMPTY, steps);
    VerifyDecides(t, token, audience, scope, now);
    var x := t.tokens[token];
    LiveKnown(t, x.session, now);
    TokenStory(c, steps, token);
    SessionStory(c, steps, x.session);
    var i :| 0 <= i < |steps| && IssuedBy(Run(c, EMPTY, steps[..i]), steps[i], token, x);
    var j :| 0 <= j < |steps| && OpenedBy(Run(c, EMPTY, steps[..j]), steps[j], x.session, t.sessions[x.session]);
    IssuedAs(Run(c, EMPTY, steps[..i]), steps[i], token, x);
    assert Accessed(c, steps, token, audience, scope, now, i, j);
  }

  /** Step i issued the token, and step j opened its session, as the answer tells. */
  ghost predicate Accessed(c: Config, steps: seq<Step>, token: string, audience: string, scope: string, now: int,
                           i: nat, j: nat) {
    var t := Run(c, EMPTY, steps);
    && i < |steps| && j < |steps| && steps[i].DoIssue? && token in t.tokens && t.tokens[token].session in t.sessions
    && IssuedBy(Run(c, EMPTY, steps[..i]), steps[i], token, t.tokens[token])
    && OpenedBy(Run(c, EMPTY, steps[..j]), steps[j], t.tokens[token].session, t.sessions[t.tokens[token].session])
    && steps[i].q.audience == audience && scope in steps[i].q.scopes && now < steps[i].q.expires
  }

  lemma IssuedAs(t: Tables, step: Step, token: string, x: Token)
    requires IssuedBy(t, step, token, x)
    ensures step.DoIssue? && x.audience == step.q.audience && x.expires == step.q.expires
    ensures forall s :: s in x.scopes <==> s in step.q.scopes
  {
    hide Live;
  }

  /** This step, taken in t, bound the pair to the session, which was live, for its subject and device. */
  ghost predicate BoundBy(t: Tables, step: Step, k: string, p: Pair) {
    && step.DoBind? && step.id == k && Live(t, k, step.now) && step.now < step.expires <= t.sessions[k].expires
    && p == Pair(t.sessions[k].subject, t.sessions[k].device, step.identity, p.state, step.expires, p.generation)
  }

  lemma PairComes(c: Config, t: Tables, step: Step, k: string)
    requires k in Next(c, t, step).pairs
    ensures var p := Next(c, t, step).pairs[k];
      || BoundBy(t, step, k, p)
      || (k in t.pairs && p == t.pairs[k].(state := p.state, generation := p.generation))
  {
    hide Register, OpenSession, BindPair, IssueAccess, RevokeSession, ReplaceDevice, Acknowledge, Label, Scopes, Hex,
      Live, Lists, Announced, Rotated;
    match step
    case DoRegister(subject, device, now) => RegisterDecides(c, t, subject, device, now);
    case DoOpen(subject, device, expires, id, now) => OpenDecides(c, t, subject, device, expires, id, now);
    case DoBind(id, identity, expires, now) => BindDecides(t, id, identity, expires, now);
    case DoIssue(q, token, now) => IssueDecides(t, q, token, now);
    case DoRevoke(id, reason, now) => RevokeDecides(t, id, reason, now);
    case DoReplace(subject, lost, replacement, listing, now) =>
      if Listing(t.sessions, listing) { ReplaceDecides(t, subject, lost, replacement, listing, now); }
    case DoAcknowledge(sequence) => AcknowledgeDecides(t, sequence);
  }

  /** Over every run each pair is the one that was bound to its session last, for the session's subject and device. */
  lemma {:induction false} PairStory(c: Config, steps: seq<Step>, k: string)
    requires k in Run(c, EMPTY, steps).pairs
    ensures var p := Run(c, EMPTY, steps).pairs[k];
      exists i :: 0 <= i < |steps| && BoundBy(Run(c, EMPTY, steps[..i]), steps[i], k, p)
    decreases |steps|
  {
    hide Next, BoundBy;
    if steps == [] {
      assert false;
    } else {
      var n := |steps| - 1;
      var t := Run(c, EMPTY, steps[..n]);
      RunLast(c, EMPTY, steps);
      PairComes(c, t, steps[n], k);
      var p := Run(c, EMPTY, steps).pairs[k];
      if !BoundBy(t, steps[n], k, p) {
        PairStory(c, steps[..n], k);
        var i :| 0 <= i < n && BoundBy(Run(c, EMPTY, steps[..n][..i]), steps[..n][i], k, t.pairs[k]);
        assert steps[..n][..i] == steps[..i];
        SameBinding(Run(c, EMPTY, steps[..i]), steps[i], k, t.pairs[k], p);
      }
    }
  }

  lemma SameBinding(t: Tables, step: Step, k: string, p: Pair, p': Pair)
    requires BoundBy(t, step, k, p) && p' == p.(state := p'.state, generation := p'.generation)
    ensures BoundBy(t, step, k, p')
  {
    hide Live;
  }

  /** This step, taken in t, announced the event: of a session it revoked, for the reason it gave. */
  ghost predicate AnnouncedBy(t: Tables, step: Step, e: Revocation) {
    && e.session in t.sessions && t.sessions[e.session].state != State.Revoked
    && e.subject == t.sessions[e.session].subject && e.device == t.sessions[e.session].device
    && (|| (step.DoRevoke? && step.id == e.session && step.reason == e.reason && step.now == e.at)
        || (step.DoReplace? && step.subject == e.subject && step.lost == e.device && e.reason == "lost_device"
            && step.now == e.at && t.sessions[e.session].state == Active))
  }

  lemma LossComes(t: Tables, step: Step, i: nat)
    requires step.DoReplace? && Listing(t.sessions, step.listing)
    requires i < |ReplaceDevice(t, step.subject, step.lost, step.replacement, step.listing,
                                step.now).tables.revocations|
    ensures var x := ReplaceDevice(t, step.subject, step.lost, step.replacement, step.listing, step.now);
      AnnouncedBy(t, step, x.tables.revocations[i])
        || (i < |t.revocations| && x.tables.revocations[i] == t.revocations[i])
  {
    hide ReplaceDevice, Gone, Label;
    ReplaceDecides(t, step.subject, step.lost, step.replacement, step.listing, step.now);
    var x := ReplaceDevice(t, step.subject, step.lost, step.replacement, step.listing, step.now);
    if x.Done? && i >= |t.revocations| {
      var ids :| Lists(t, step.subject, step.lost, ids)
                 && Announced(t, step.subject, step.lost, ids, step.now, x.tables);
      assert Announced(t, step.subject, step.lost, ids, step.now, x.tables);
      var id := ids[i - |t.revocations|];
      assert x.tables.revocations[|t.revocations| + (i - |t.revocations|)]
        == Loss(step.subject, step.lost, id, step.now);
      assert id in ids && Goes(t, step.subject, step.lost, id);
    }
  }

  lemma RevocationComes(t: Tables, step: Step, i: nat)
    requires step.DoRevoke? && i < |RevokeSession(t, step.id, step.reason, step.now).tables.revocations|
    ensures var e := RevokeSession(t, step.id, step.reason, step.now).tables.revocations[i];
      AnnouncedBy(t, step, e) || (i < |t.revocations| && e == t.revocations[i])
  {
    hide RevokeSession, Label;
    RevokeDecides(t, step.id, step.reason, step.now);
  }

  lemma EventComes(c: Config, t: Tables, step: Step, i: nat)
    requires i < |Next(c, t, step).revocations|
    ensures var e := Next(c, t, step).revocations[i];
      AnnouncedBy(t, step, e) || (i < |t.revocations| && e == t.revocations[i].(acknowledged := e.acknowledged))
  {
    hide Register, OpenSession, BindPair, IssueAccess, RevokeSession, ReplaceDevice, Acknowledge, Label, Scopes, Hex,
      Live, Gone, Rotated, Lists, Announced;
    match step
    case DoRegister(subject, device, now) => RegisterDecides(c, t, subject, device, now);
    case DoOpen(subject, device, expires, id, now) => OpenDecides(c, t, subject, device, expires, id, now);
    case DoBind(id, identity, expires, now) => BindDecides(t, id, identity, expires, now);
    case DoIssue(q, token, now) => IssueDecides(t, q, token, now);
    case DoRevoke(id, reason, now) => RevocationComes(t, step, i);
    case DoReplace(subject, lost, replacement, listing, now) =>
      if Listing(t.sessions, listing) { LossComes(t, step, i); }
    case DoAcknowledge(sequence) => AcknowledgeDecides(t, sequence);
  }

  /** Over every run each event announces a session that was not revoked before, with its subject, device and reason. */
  lemma {:induction false} EventStory(c: Config, steps: seq<Step>, i: nat)
    requires i < |Run(c, EMPTY, steps).revocations|
    ensures var e := Run(c, EMPTY, steps).revocations[i];
      exists j :: 0 <= j < |steps| && AnnouncedBy(Run(c, EMPTY, steps[..j]), steps[j], e)
    decreases |steps|
  {
    hide Next, AnnouncedBy;
    if steps == [] {
      assert false;
    } else {
      var n := |steps| - 1;
      var t := Run(c, EMPTY, steps[..n]);
      RunLast(c, EMPTY, steps);
      EventComes(c, t, steps[n], i);
      var e := Run(c, EMPTY, steps).revocations[i];
      if !AnnouncedBy(t, steps[n], e) {
        EventStory(c, steps[..n], i);
        var j :| 0 <= j < n && AnnouncedBy(Run(c, EMPTY, steps[..n][..j]), steps[..n][j], t.revocations[i]);
        assert steps[..n][..j] == steps[..j];
        SameEvent(Run(c, EMPTY, steps[..j]), steps[j], t.revocations[i], e);
      }
    }
  }

  lemma SameEvent(t: Tables, step: Step, e: Revocation, e': Revocation)
    requires AnnouncedBy(t, step, e) && e' == e.(acknowledged := e'.acknowledged)
    ensures AnnouncedBy(t, step, e')
  {
  }

  // ----- refusals -----

  /** What is wrong with a session that is not live. */
  ghost predicate SessionSays(t: Tables, id: string, now: int, code: Code) {
    match code
    case SessionUnknown =>
      id in t.sessions ==> t.sessions[id].device !in t.devices || t.sessions[id].subject !in t.subjects
    case SessionExpired => id in t.sessions && t.sessions[id].expires <= now
    case SessionRevoked =>
      && id in t.sessions && t.sessions[id].device in t.devices && t.sessions[id].subject in t.subjects
      && (t.sessions[id].state != Active || t.devices[t.sessions[id].device].state != DeviceActive
          || t.subjects[t.sessions[id].subject] != SubjectActive)
    case _ => false
  }

  lemma SessionIsReal(t: Tables, id: string, now: int)
    ensures LiveFault(t, id, now).Some? ==> SessionSays(t, id, now, LiveFault(t, id, now).value)
  {
  }

  /** An error of the registration and of the opening says what is so: of the names, of the rows or of the clock. */
  lemma OpenRefusals(c: Config, t: Tables, subject: string, device: string, expires: int, id: string, now: int)
    ensures var x := Register(c, t, subject, device, now);
      x.Raised? ==> match x.code
        case BindingInvalid => !Label(subject, 256) || !Label(device, 256)
        case ClockInvalid => !Timestamp(now)
        case SubjectCapacity => subject !in t.subjects && |t.subjects| >= c.maxSubjects
        case SubjectIsRevoked => subject in t.subjects && t.subjects[subject] == SubjectRevoked
        case DeviceConflict =>
          device in t.devices && (t.devices[device].subject != subject || t.devices[device].state != DeviceActive)
        case _ => false
    ensures var x := OpenSession(c, t, subject, device, expires, id, now);
      x.Raised? ==> match x.code
        case BindingInvalid => !Label(subject, 256) || !Label(device, 256) || !Label(id, 256)
        case ClockInvalid => !Timestamp(now)
        case ExpiryInvalid => expires <= now || 253402300799 < expires
        case SubjectUnavailable => subject in t.subjects ==> t.subjects[subject] != SubjectActive
        case DeviceUnavailable =>
          device in t.devices ==> t.devices[device].subject != subject || t.devices[device].state != DeviceActive
        case SessionCapacity => |t.sessions| >= c.maxSessions
        case SessionConflict => id in t.sessions
        case _ => false
  {
    hide Label;
  }

  /** So does one of a binding and of an issue. */
  lemma IssueRefusals(t: Tables, q: Access, token: string, id: string, identity: string, expires: int, now: int)
    ensures var x := BindPair(t, id, identity, expires, now);
      x.Raised? ==> SessionSays(t, id, now, x.code) || match x.code
        case BindingInvalid => !Label(id, 256) || !Label(identity, 256)
        case ClockInvalid => !Timestamp(now)
        case ExpiryInvalid =>
          expires <= now || 253402300799 < expires || (id in t.sessions && t.sessions[id].expires < expires)
        case _ => false
    ensures var x := IssueAccess(t, q, token, now);
      x.Raised? ==> SessionSays(t, q.session, now, x.code) || match x.code
        case BindingInvalid => !Label(q.session, 256) || !Label(q.audience, 256)
        case ScopeInvalid => !Scopes(q.scopes)
        case PolicyHashInvalid => !Hex(q.policy)
        case ClockInvalid => !Timestamp(now)
        case ExpiryInvalid =>
          || q.expires <= now || 253402300799 < q.expires
          || (q.session in t.sessions && t.sessions[q.session].expires < q.expires)
        case IntegrityError => token in t.tokens
        case _ => false
  {
    hide Label, Hex, Scopes, GoodScopes, LiveFault, Live, SessionSays, Rotate;
    ScopesIff(q.scopes);
    LiveIff(t, id, now);
    LiveIff(t, q.session, now);
    SessionIsReal(t, id, now);
    SessionIsReal(t, q.session, now);
    LiveKnown(t, id, now);
    LiveKnown(t, q.session, now);
  }

  lemma LiveKnown(t: Tables, id: string, now: int)
    ensures Live(t, id, now) ==> id in t.sessions
  {
  }

  /** So does one of a check: it denies what the caller asks, or says what is wrong with its session. */
  lemma CheckRefusals(t: Tables, token: string, audience: string, scope: string, subject: string, device: string,
                      id: string, now: int)
    ensures var fault := VerifyFault(t, token, audience, scope, now);
      fault.Some? ==> match fault.value
        case ClockInvalid => !Timestamp(now)
        case AccessDenied =>
          || !(16 <= Utf8Length(token) <= 8192) || !Printable(token) || !Label(audience, 256) || scope == ""
          || token !in t.tokens
          || (var x := t.tokens[token];
              x.state != Active || x.expires <= now || x.audience != audience || scope !in x.scopes
              || x.session !in t.sessions || t.sessions[x.session].expires < x.expires)
        case code => token in t.tokens && SessionSays(t, t.tokens[token].session, now, code)
    ensures var fault := PairFault(t, subject, device, id, now);
      fault.Some? ==> SessionSays(t, id, now, fault.value) || match fault.value
        case ClockInvalid => !Timestamp(now)
        case PairDenied =>
          || !Label(subject, 256) || !Label(device, 256) || !Label(id, 256) || id !in t.pairs || id !in t.sessions
          || (var p, s := t.pairs[id], t.sessions[id];
              p.state != Active || p.expires <= now || p.subject != subject || p.device != device
              || s.subject != subject || s.device != device)
        case _ => false
  {
    hide Label, Printable, Utf8Length, LiveFault, Live, SessionSays;
    if token in t.tokens {
      SessionIsReal(t, t.tokens[token].session, now);
      SessionCodes(t, t.tokens[token].session, now);
      LiveIff(t, t.tokens[token].session, now);
      LiveKnown(t, t.tokens[token].session, now);
    }
    SessionIsReal(t, id, now);
    LiveIff(t, id, now);
    LiveKnown(t, id, now);
  }

  lemma SessionCodes(t: Tables, id: string, now: int)
    ensures var fault := LiveFault(t, id, now);
      fault.Some? ==> fault.value in {SessionUnknown, SessionExpired, SessionRevoked}
  {
  }

  /** And one of a revocation and of a replacement. */
  lemma RevokeRefusals(t: Tables, id: string, reason: string, subject: string, lost: string, replacement: string,
                       listing: seq<string>, now: int)
    ensures var x := RevokeSession(t, id, reason, now);
      x.Raised? ==> match x.code
        case BindingInvalid => !Label(id, 256)
        case ReasonInvalid => !Label(reason, 256)
        case ClockInvalid => !Timestamp(now)
        case SessionUnknown => id !in t.sessions
        case _ => false
    ensures var x := ReplaceDevice(t, subject, lost, replacement, listing, now);
      x.Raised? ==> match x.code
        case BindingInvalid => !Label(subject, 256) || !Label(lost, 256) || !Label(replacement, 256)
        case ReplacementInvalid => lost == replacement
        case ClockInvalid => !Timestamp(now)
        case DeviceUnavailable =>
          lost in t.devices ==> t.devices[lost].subject != subject || t.devices[lost].state != DeviceActive
        case DeviceConflict => replacement in t.devices
        case _ => false
  {
    hide Label, Cascade, CascadeAll, Select;
  }
}
