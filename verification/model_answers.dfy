/**
 * What the model gateway answers, said of the request, the rows and the clock alone: who may reserve an attempt and for
 * how long, which result is committed, and what a denial changes.
 */
module ModelAnswers {
  import opened Base
  import opened JsonBounds
  import opened ModelRegistry
  import opened ModelInvariant
  import opened ModelRuns
  import opened ModelTheorems

  // ----- reserving an attempt -----

  /** The request is well formed and the provider still the configured one. */
  ghost predicate Acceptable(policy: Policy, ask: Ask, bound: bool) {
    && Label(ask.subject, 128) && Label(ask.session, 128) && Label(ask.key, 128)
    && 0.0 < ask.timeout <= 60.0 && 0 <= ask.expires <= 253402300799
    && (exists i :: 0 <= i < |ask.question| && !WhiteSpace(ask.question[i])) && |ask.question| <= policy.questionChars
    && ContextFault(ask.context, ask.encoded) == None && bound
  }

  /** The subject's request, or its session, or everything is denied. */
  ghost predicate Barred(r: Registry, key: Key, session: string) {
    r.suspended || key in r.cancellations || Session(key.subject, session) in r.sessions
  }

  /** Both clock readings of a transaction lie between the last one and the expiry, and its caller still waits. */
  ghost predicate OnTime(r: Registry, expires: int, t: Reading) {
    0 <= t.now && r.last <= t.now <= t.final < expires && t.final <= 253402300799 && !t.late
  }

  /** What a request is recognized by. */
  function Material(policy: Policy, ask: Ask): Fingerprint {
    Fingerprint(ask.question, match ask.encoded case Some(text) => text case None => "", ask.subject, ask.session,
                policy.provider, ask.expires)
  }

  ghost predicate SameDay(now: int, day: int) {
    86400 * day <= now < 86400 * (day + 1)
  }

  /** A known request may be tried again: it is the same, still open, its last claim has ended and budget is left. */
  ghost predicate Retriable(policy: Policy, row: Row, ask: Ask, now: int) {
    && row.fingerprint == Material(policy, ask) && (row.state == Prepared || row.state == Indeterminate)
    && row.until <= now && row.readbacks < policy.readbacks
  }

  /** There is room for one more request, and for one more of its subject today. */
  ghost predicate Room(policy: Policy, rows: map<Key, Row>, subject: string, now: int) {
    && |rows| < policy.entries
    && forall day :: SameDay(now, day) ==>
      |set k | k in rows && k.subject == subject && rows[k].day == day| < policy.daily
  }

  /**
   * A claim taken now ends with the authority, or, in exact time, between one and two seconds after the caller's
   * timeout.
   */
  ghost predicate ClaimEnds(ask: Ask, now: int, until: int) {
    && until <= ask.expires && until as real < now as real + ask.timeout + 2.0
    && (until == ask.expires || now as real + ask.timeout + 1.0 <= until as real)
  }

  lemma DayOf(now: int, day: int)
    requires 0 <= now
    ensures SameDay(now, day) <==> day == now / 86400
  {
  }

  lemma RoomIff(policy: Policy, rows: map<Key, Row>, subject: string, now: int)
    requires 0 <= now
    ensures Room(policy, rows, subject, now) <==>
      |rows| < policy.entries && |OfDay(rows, subject, now / 86400)| < policy.daily
  {
    DayOf(now, now / 86400);
    forall day ensures SameDay(now, day) <==> day == now / 86400 { DayOf(now, day); }
    hide SameDay;
    assert OfDay(rows, subject, now / 86400) == set k | k in rows && k.subject == subject && rows[k].day == now / 86400;
  }

  lemma AcceptableIff(policy: Policy, ask: Ask, bound: bool)
    ensures AskFault(policy, ask, bound) == None <==> Acceptable(policy, ask, bound)
  {
    hide ContextFault, Label, WhiteSpace;
  }

  /** What a reservation leaves: a first dispatch, or one more unit of a known request's budget, under the new claim. */
  ghost predicate Claims(policy: Policy, r: Registry, ask: Ask, claim: string, t: Reading, r': Registry) {
    var key := Key(ask.subject, ask.key);
    && key in r'.rows && ClaimEnds(ask, t.now, r'.rows[key].until)
    && (if key in r.rows then
          && r'.rows == r.rows[key := r.rows[key].(state := Indeterminate, claim := claim, until := r'.rows[key].until,
                                                   readbacks := r.rows[key].readbacks + 1)]
          && r'.events
            == r.events + [Event(ReadbackReserved, ForRequest(RequestKey(key, Material(policy, ask))), t.now)]
        else
          && SameDay(t.now, r'.rows[key].day)
          && r'.rows == r.rows[key := Row(Material(policy, ask), ask.session, r'.rows[key].day, Prepared, ask.expires,
                                          claim, r'.rows[key].until, 0, None)]
          && r'.events
            == r.events + [Event(DispatchReserved, ForRequest(RequestKey(key, Material(policy, ask))), t.now)])
    && r' == r.(rows := r'.rows, events := r'.events, last := t.final)
  }

  lemma CeilingOf(x: real)
    ensures Ceiling(x) as real - 1.0 < x <= Ceiling(x) as real
  {
  }

  /**
   * An attempt is reserved exactly for an acceptable request that nothing bars, within its authority of at most five
   * minutes, that is new and has room or is known and may be tried again; and then its claim is all that changes.
   */
  lemma ExecuteDecides(policy: Policy, r: Registry, ask: Ask, bound: bool, claim: string, t: Reading)
    ensures var x, key := Reserve(policy, r, ask, bound, claim, t), Key(ask.subject, ask.key);
      && (x.Done? <==>
            && Acceptable(policy, ask, bound) && !Barred(r, key, ask.session) && OnTime(r, ask.expires, t)
            && ask.expires <= t.now + 300
            && if key in r.rows then Retriable(policy, r.rows[key], ask, t.now)
               else Room(policy, r.rows, ask.subject, t.now))
      && (x.Done? ==> Claims(policy, r, ask, claim, t, x.registry))
      && (x.Raised? ==> x.registry == r)
  {
    hide AskFault, Acceptable, OfDay, Room;
    AcceptableIff(policy, ask, bound);
    if 0 <= t.now {
      RoomIff(policy, r.rows, ask.subject, t.now);
      DayOf(t.now, t.now / 86400);
      CeilingOf(ask.timeout);
    }
    hide Ceiling, SameDay;
  }

  // ----- provider calls, results and denials -----

  /** The row is open and this is its claim. */
  ghost predicate Holds(r: Registry, request: RequestKey, claim: string) {
    && request.key in r.rows && r.rows[request.key].fingerprint == request.fingerprint
    && r.rows[request.key].claim == claim
    && (r.rows[request.key].state == Prepared || r.rows[request.key].state == Indeterminate)
  }

  /** The provider may be called exactly for the attempt that holds the open row, unbarred and in time. */
  lemma AuthorizeDecides(r: Registry, request: RequestKey, claim: string, bound: bool, t: Reading)
    ensures var x := ModelRegistry.Authorize(r, request, claim, bound, t);
      if && bound && Holds(r, request, claim) && !Barred(r, request.key, request.fingerprint.session)
         && OnTime(r, request.fingerprint.expires, t)
      then x == Done(r.(last := t.final)) else x.Raised? && x.registry == r
  {
  }

  /** The provider's answer is bound to this request and well formed. */
  ghost predicate Bound(request: RequestKey, result: ProviderResult) {
    && result.ProviderResult? && result.requestKey == request
    && (exists i :: 0 <= i < |result.answer| && !WhiteSpace(result.answer[i]))
    && |result.answer| <= 65536 && Utf8Length(result.answer) <= 65536
    && Label(result.request, 128) && Label(result.receipt, 128)
  }

  /**
   * A result is committed exactly for the attempt that holds the open row, if it is bound to the request and comes
   * under full authority; the row is closed with that answer, and one event tells of it.
   */
  lemma CommitDecides(r: Registry, request: RequestKey, claim: string, result: ProviderResult, bound: bool, t: Reading)
    ensures var x := Commit(r, request, claim, result, bound, t);
      && (x.Done? <==>
            && Bound(request, result) && bound && Holds(r, request, claim)
            && !Barred(r, request.key, r.rows[request.key].session) && OnTime(r, r.rows[request.key].expires, t))
      && (x.Done? ==>
            var answer := Answer(result.answer, result.request, result.receipt);
            x.registry == r.(last := t.final,
              rows := r.rows[request.key :=
                r.rows[request.key].(state := Committed, until := 0, answer := Some(answer))],
              events := r.events + [Event(AnswerCommitted, ForRequest(request), t.now)]))
      && (x.Raised? ==> x.registry == r)
  {
    hide Label, Utf8Length, WhiteSpace;
  }

  /** An attempt that failed leaves the row it holds uncertain, and lets go of it unless it timed out. */
  lemma UncertainDecides(r: Registry, request: RequestKey, claim: string, release: bool)
    ensures var r' := Uncertain(r, request, claim, release);
      if Holds(r, request, claim) then
        r' == r.(rows := r.rows[request.key := r.rows[request.key].(state := Indeterminate,
                   until := if release then 0 else r.rows[request.key].until)])
      else r' == r
  {
  }

  /** The denial names this request. */
  ghost predicate Targets(target: Target, key: Key, session: string) {
    match target
    case OneSession(s) => s.subject == key.subject && s.id == session
    case OneRequest(k) => k.subject == key.subject && k.key == key.key
  }

  /** Exactly the open requests the denial names are cancelled. */
  ghost predicate CancelsExactly(target: Target, rows: map<Key, Row>, rows': map<Key, Row>) {
    && rows'.Keys == rows.Keys
    && (forall k :: k in rows ==>
          rows'[k] == if && Targets(target, k, rows[k].session)
                         && (rows[k].state == Prepared || rows[k].state == Indeterminate)
                      then rows[k].(state := Cancelled, until := 0) else rows[k])
  }

  /**
   * A denial that is new closes the open requests it names and no other, and leaves its own tombstone; where there is
   * no room for one it suspends the registry, once. One that is known changes nothing.
   */
  lemma DenyDecides(policy: Policy, r: Registry, target: Target)
    ensures var x := ModelRegistry.Deny(policy, r, target); var r' := x.registry;
      var known := match target case OneSession(s) => s in r.sessions case OneRequest(k) => k in r.cancellations;
      var named := match target case OneSession(s) => Label(s.subject, 128) && Label(s.id, 128)
                                case OneRequest(k) => Label(k.subject, 128) && Label(k.key, 128);
      && (x.Done? <==> named)
      && if !named || known then r' == r
         else
           && CancelsExactly(target, r.rows, r'.rows)
           && if |r.sessions| + |r.cancellations| < policy.entries then
                match target
                case OneSession(s) =>
                  r' == r.(rows := r'.rows, sessions := r.sessions + {s},
                           events := r.events + [Event(SessionRevoked, ForSession(s), r.last)])
                case OneRequest(k) =>
                  r' == r.(rows := r'.rows, cancellations := r.cancellations + {k},
                           events := r.events + [Event(RequestCancelled, ForKey(k), r.last)])
              else
                r' == r.(rows := r'.rows, suspended := true,
                         events := if r.suspended then r.events
                                   else r.events + [Event(RegistrySuspended, ForNone, r.last)])
  {
    hide Label, CancelRows, CancelsExactly;
    CancelRowsExactly(target, r.rows);
  }

  lemma CancelRowsExactly(target: Target, rows: map<Key, Row>)
    ensures CancelsExactly(target, rows, CancelRows(rows, target))
  {
  }

  // ----- how long a claim holds -----

  lemma {:induction false} RunLast(s: System, steps: seq<Step>)
    requires steps != []
    ensures Run(s, steps) == Next(Run(s, steps[..|steps| - 1]), steps[|steps| - 1])
    decreases |steps|
  {
    hide Next;
    if |steps| > 1 {
      RunLast(Next(s, steps[0]), steps[1..]);
      assert steps[1..][..|steps| - 2] == steps[..|steps| - 1][1..];
    }
  }

  /** The request still has this claim till then, or the clock has passed its end, or the request is closed. */
  ghost predicate Held(r: Registry, key: Key, claim: string, until: int) {
    key in r.rows && (r.rows[key].state == Committed || r.rows[key].state == Cancelled || until <= r.last
                      || (r.rows[key].claim == claim && r.rows[key].until == until))
  }

  lemma HeldByOthers(s: System, ask: Ask, bound: bool, other: string, t: Reading, key: Key, claim: string, until: int)
    requires Held(s.registry, key, claim, until)
    ensures Held(Next(s, Execute(ask, bound, other, t)).registry, key, claim, until)
  {
    hide Reserve, Acceptable, Room, ClaimEnds, Material, SameDay;
    ExecuteDecides(s.policy, s.registry, ask, bound, other, t);
  }

  /** A step that neither releases the claim nor is a denial moves its end to no other instant. */
  lemma HeldStep(s: System, step: Step, key: Key, claim: string, until: int)
    requires Held(s.registry, key, claim, until) && step != Release(claim)
    ensures Held(Next(s, step).registry, key, claim, until)
  {
    hide Reserve, ModelRegistry.Authorize, Commit, Uncertain, ModelRegistry.Deny, Held, Barred, Bound, OnTime, Targets;
    var r := s.registry;
    HeldSame(r, key, claim, until);
    match step
    case Execute(ask, bound, other, t) => HeldByOthers(s, ask, bound, other, t, key, claim, until);
    case Authorize(other, bound, t, punctual) =>
      if other in s.attempts { HeldAuthorize(r, s.attempts[other].request, other, bound, t, key, claim, until); }
    case Recheck(other, bound, t) =>
      if other in s.attempts { HeldAuthorize(r, s.attempts[other].request, other, bound, t, key, claim, until); }
    case Conclude(other, patient, bound, t) =>
      if other in s.attempts && Read(s.attempts[other].worker, patient).Some? {
        HeldCommit(r, s.attempts[other].request, other, Read(s.attempts[other].worker, patient).value, bound, t, key,
                   claim, until);
      }
    case Release(other) =>
      if other in s.attempts && s.attempts[other].caller.Failing? {
        HeldUncertain(r, s.attempts[other].request, other, s.attempts[other].caller.release, key, claim, until);
      }
    case Deny(target) => HeldDeny(s.policy, r, target, key, claim, until);
    case _ =>
  }

  lemma HeldSame(r: Registry, key: Key, claim: string, until: int)
    ensures Held(r, key, claim, until) ==> key in r.rows
  {
  }

  lemma HeldAuthorize(r: Registry, request: RequestKey, other: string, bound: bool, t: Reading, key: Key, claim: string,
                      until: int)
    requires Held(r, key, claim, until)
    ensures Held(ModelRegistry.Authorize(r, request, other, bound, t).registry, key, claim, until)
  {
    AuthorizeDecides(r, request, other, bound, t);
    hide ModelRegistry.Authorize;
  }

  lemma HeldCommit(r: Registry, request: RequestKey, other: string, result: ProviderResult, bound: bool, t: Reading,
                   key: Key, claim: string, until: int)
    requires Held(r, key, claim, until)
    ensures Held(Commit(r, request, other, result, bound, t).registry, key, claim, until)
  {
    CommitDecides(r, request, other, result, bound, t);
    hide Commit, Bound;
  }

  lemma HeldUncertain(r: Registry, request: RequestKey, other: string, release: bool, key: Key, claim: string,
                      until: int)
    requires Held(r, key, claim, until) && other != claim
    ensures Held(Uncertain(r, request, other, release), key, claim, until)
  {
    UncertainDecides(r, request, other, release);
    hide Uncertain;
  }

  lemma HeldDeny(policy: Policy, r: Registry, target: Target, key: Key, claim: string, until: int)
    requires Held(r, key, claim, until)
    ensures Held(ModelRegistry.Deny(policy, r, target).registry, key, claim, until)
  {
    DenyDecides(policy, r, target);
    hide ModelRegistry.Deny, Label, Targets;
  }

  lemma {:induction false} HeldRun(s: System, steps: seq<Step>, key: Key, claim: string, until: int)
    requires Held(s.registry, key, claim, until) && forall i :: 0 <= i < |steps| ==> steps[i] != Release(claim)
    ensures Held(Run(s, steps).registry, key, claim, until)
    decreases |steps|
  {
    hide Next, Held;
    if steps != [] {
      HeldStep(s, steps[0], key, claim, until);
      HeldRun(Next(s, steps[0]), steps[1..], key, claim, until);
    }
  }

  /**
   * Over every run after a reservation in which its caller does not give the claim up: until the authority ends or the
   * caller's timeout and one second more have passed, no one else reserves an attempt at the request. One who asks the
   * same while it is open, with everything else in order, is told that it is in progress.
   */
  lemma ClaimHolds(s: System, ask: Ask, bound: bool, claim: string, t: Reading, steps: seq<Step>, again: Ask,
                   rebound: bool, other: string, u: Reading)
    requires claim !in s.attempts && Reserve(s.policy, s.registry, ask, bound, claim, t).Done?
    requires forall i :: 0 <= i < |steps| ==> steps[i] != Release(claim)
    requires again.subject == ask.subject && again.key == ask.key
    requires u.now < ask.expires && u.now as real < t.now as real + ask.timeout + 1.0
    ensures var s' := Run(Next(s, Execute(ask, bound, claim, t)), steps);
      var key, x := Key(ask.subject, ask.key), Reserve(s'.policy, s'.registry, again, rebound, other, u);
      && key in s'.registry.rows && x.Raised?
      && (InOrder(s'.policy, s'.registry, again, rebound, u.now) ==> x.code == RequestInProgress)
  {
    hide Reserve, Acceptable, Room, Run, Barred, InOrder;
    var key := Key(ask.subject, ask.key);
    ExecuteDecides(s.policy, s.registry, ask, bound, claim, t);
    var s1 := Next(s, Execute(ask, bound, claim, t));
    var until := s1.registry.rows[key].until;
    assert Held(s1.registry, key, claim, until);
    HeldRun(s1, steps, key, claim, until);
    var s' := Run(s1, steps);
    ExecuteDecides(s'.policy, s'.registry, again, rebound, other, u);
    if InOrder(s'.policy, s'.registry, again, rebound, u.now) {
      OrderedIsOpen(s'.policy, s'.registry, again, rebound, u.now);
      InProgress(s'.policy, s'.registry, again, rebound, other, u);
    }
  }

  /** Nothing but a claim that still runs may stand in the way of trying this request again. */
  ghost predicate InOrder(policy: Policy, r: Registry, ask: Ask, bound: bool, now: int) {
    var key := Key(ask.subject, ask.key);
    && Acceptable(policy, ask, bound) && !Barred(r, key, ask.session)
    && 0 <= now <= 253402300799 && r.last <= now < ask.expires <= now + 300
    && key in r.rows && r.rows[key].fingerprint == Material(policy, ask)
    && (r.rows[key].state == Prepared || r.rows[key].state == Indeterminate)
  }

  lemma OrderedIsOpen(policy: Policy, r: Registry, ask: Ask, bound: bool, now: int)
    requires InOrder(policy, r, ask, bound, now)
    ensures var key := Key(ask.subject, ask.key);
      key in r.rows && r.last <= now && r.rows[key].state != Committed && r.rows[key].state != Cancelled
  {
  }

  lemma InProgress(policy: Policy, r: Registry, ask: Ask, bound: bool, claim: string, t: Reading)
    requires InOrder(policy, r, ask, bound, t.now) && t.now < r.rows[Key(ask.subject, ask.key)].until
    ensures Reserve(policy, r, ask, bound, claim, t) == Raised(r, RequestInProgress)
  {
    hide AskFault, Acceptable;
    AcceptableIff(policy, ask, bound);
  }

  // ----- where rows and answers come from -----

  /** This step, taken in s, first reserved the request of this row. */
  ghost predicate AskedBy(s: System, step: Step, key: Key, row: Row) {
    && step.Execute? && key == Key(step.ask.subject, step.ask.key) && key !in s.registry.rows
    && Acceptable(s.policy, step.ask, step.bound) && !Barred(s.registry, key, step.ask.session)
    && OnTime(s.registry, step.ask.expires, step.t) && step.ask.expires <= step.t.now + 300
    && Room(s.policy, s.registry.rows, step.ask.subject, step.t.now)
    && row.fingerprint == Material(s.policy, step.ask) && row.session == step.ask.session
    && row.expires == step.ask.expires && SameDay(step.t.now, row.day)
  }

  lemma RowAppears(s: System, step: Step, key: Key)
    requires key in Next(s, step).registry.rows && key !in s.registry.rows
    ensures AskedBy(s, step, key, Next(s, step).registry.rows[key])
  {
    hide Reserve, Commit, Uncertain, ModelRegistry.Authorize, ModelRegistry.Deny, Acceptable, Barred, Bound, Room,
      ClaimEnds, Material, Targets, SameDay;
    match step
    case Execute(ask, bound, claim, t) => ExecuteDecides(s.policy, s.registry, ask, bound, claim, t);
    case Authorize(claim, bound, t, punctual) =>
      if claim in s.attempts { AuthorizeDecides(s.registry, s.attempts[claim].request, claim, bound, t); }
    case Recheck(claim, bound, t) =>
      if claim in s.attempts { AuthorizeDecides(s.registry, s.attempts[claim].request, claim, bound, t); }
    case Conclude(claim, patient, bound, t) =>
      if claim in s.attempts && Read(s.attempts[claim].worker, patient).Some? {
        CommitDecides(s.registry, s.attempts[claim].request, claim, Read(s.attempts[claim].worker, patient).value,
                      bound, t);
      }
    case Release(claim) =>
      if claim in s.attempts && s.attempts[claim].caller.Failing? {
        UncertainDecides(s.registry, s.attempts[claim].request, claim, s.attempts[claim].caller.release);
      }
    case Deny(target) => DenyKeepsKeys(s.policy, s.registry, target);
    case _ =>
  }

  lemma DenyKeepsKeys(policy: Policy, r: Registry, target: Target)
    ensures ModelRegistry.Deny(policy, r, target).registry.rows.Keys == r.rows.Keys
  {
    DenyDecides(policy, r, target);
    hide ModelRegistry.Deny, Label, Targets;
  }

  /** Over every run each request was first reserved by one execute, acceptable, unbarred, in time and within quota. */
  lemma {:induction false} RowStory(policy: Policy, now: int, steps: seq<Step>, key: Key)
    requires key in Run(Start(policy, now), steps).registry.rows
    ensures var rows := Run(Start(policy, now), steps).registry.rows;
      exists i :: 0 <= i < |steps| && AskedBy(Run(Start(policy, now), steps[..i]), steps[i], key, rows[key])
    decreases |steps|
  {
    hide Next, AskedBy, Inv, HistoryForward, Forward;
    var start := Start(policy, now);
    if steps == [] {
      assert false;
    } else {
      var n := |steps| - 1;
      var s := Run(start, steps[..n]);
      RunLast(start, steps);
      if key in s.registry.rows {
        RowStory(policy, now, steps[..n], key);
        StartFits(policy, now);
        RunKeeps(start, steps[..n]);
        NextForward(s, steps[n]);
        SameIdentity(s.registry, Next(s, steps[n]).registry, key);
        var i :| 0 <= i < n && AskedBy(Run(start, steps[..n][..i]), steps[..n][i], key, s.registry.rows[key]);
        assert steps[..n][..i] == steps[..i];
        SameAsk(Run(start, steps[..i]), steps[i], key, s.registry.rows[key], Next(s, steps[n]).registry.rows[key]);
      } else {
        RowAppears(s, steps[n], key);
      }
    }
  }

  ghost predicate SameRow(row: Row, row': Row) {
    row'.fingerprint == row.fingerprint && row'.session == row.session && row'.day == row.day
      && row'.expires == row.expires
  }

  lemma SameIdentity(r: Registry, r': Registry, key: Key)
    requires Forward(r, r') && key in r.rows
    ensures key in r'.rows && SameRow(r.rows[key], r'.rows[key])
  {
  }

  lemma SameAsk(s: System, step: Step, key: Key, row: Row, row': Row)
    requires AskedBy(s, step, key, row) && SameRow(row, row')
    ensures AskedBy(s, step, key, row')
  {
  }

  /** This step, taken in s, committed what the attempt's own worker had answered, under full authority. */
  ghost predicate CommittedBy(s: System, step: Step, c: Commitment) {
    && step.Conclude? && step.claim == c.claim && c.claim in s.attempts && s.attempts[c.claim].request == c.request
    && s.attempts[c.claim].worker.Ended? && s.attempts[c.claim].worker.answered
    && s.attempts[c.claim].worker.result.Some? && step.bound
    && var result := s.attempts[c.claim].worker.result.value;
       && Bound(c.request, result) && c.answer == Answer(result.answer, result.request, result.receipt)
       && Holds(s.registry, c.request, c.claim)
       && !Barred(s.registry, c.request.key, s.registry.rows[c.request.key].session)
       && OnTime(s.registry, s.registry.rows[c.request.key].expires, step.t)
  }

  lemma CommitAppears(s: System, step: Step)
    ensures var s' := Next(s, step);
      || s'.commits == s.commits
      || (|s'.commits| == |s.commits| + 1 && s'.commits[..|s.commits|] == s.commits
          && CommittedBy(s, step, s'.commits[|s.commits|]))
  {
    hide Reserve, Commit, Uncertain, ModelRegistry.Authorize, ModelRegistry.Deny, Barred, Bound, OnTime, Holds;
    if step.Conclude? && step.claim in s.attempts && Read(s.attempts[step.claim].worker, step.patient).Some? {
      var request := s.attempts[step.claim].request;
      CommitDecides(s.registry, request, step.claim, Read(s.attempts[step.claim].worker, step.patient).value,
                    step.bound, step.t);
      HoldsRow(s.registry, request, step.claim);
    }
  }

  lemma HoldsRow(r: Registry, request: RequestKey, claim: string)
    ensures Holds(r, request, claim) ==> request.key in r.rows
  {
  }

  /** Over every run each committed answer is the one its own worker brought, bound to the request and in time. */
  lemma {:induction false} CommitStory(policy: Policy, now: int, steps: seq<Step>, i: nat)
    requires i < |Run(Start(policy, now), steps).commits|
    ensures var commits := Run(Start(policy, now), steps).commits;
      exists j :: 0 <= j < |steps| && CommittedBy(Run(Start(policy, now), steps[..j]), steps[j], commits[i])
    decreases |steps|
  {
    hide Next, CommittedBy;
    var start := Start(policy, now);
    if steps == [] {
      assert false;
    } else {
      var n := |steps| - 1;
      var s := Run(start, steps[..n]);
      RunLast(start, steps);
      CommitAppears(s, steps[n]);
      if i < |s.commits| {
        CommitStory(policy, now, steps[..n], i);
        var j :| 0 <= j < n && CommittedBy(Run(start, steps[..n][..j]), steps[..n][j], s.commits[i]);
        assert steps[..n][..j] == steps[..j];
        assert Next(s, steps[n]).commits[i] == s.commits[i] by {
          assert Next(s, steps[n]).commits[..|s.commits|] == s.commits;
        }
      }
    }
  }

  // ----- refusals -----

  /** What the clock of a transaction under an authority is refused for. */
  ghost predicate ClockSays(r: Registry, expires: int, t: Reading, code: Code) {
    match code
    case ClockInvalid => !Timestamp(t.now) || !Timestamp(t.final)
    case ClockRollback => t.now < r.last || t.final < t.now
    case AuthorityExpired => t.now >= expires || t.final >= expires
    case DeadlineExpired => t.late
    case _ => false
  }

  /** An error of execute says what is so: of the request, of the rows or of the clock. */
  lemma ExecuteRefusals(policy: Policy, r: Registry, ask: Ask, bound: bool, claim: string, t: Reading)
    ensures var x, key := Reserve(policy, r, ask, bound, claim, t), Key(ask.subject, ask.key);
      x.Raised? ==> ClockSays(r, ask.expires, t, x.code) || match x.code
        case BindingInvalid => !Label(ask.subject, 128) || !Label(ask.session, 128) || !Label(ask.key, 128)
        case DeadlineInvalid => ask.timeout <= 0.0 || 60.0 < ask.timeout || !Timestamp(ask.expires)
        case QuestionInvalid =>
          |ask.question| > policy.questionChars || forall c :: c in ask.question ==> WhiteSpace(c)
        case BadContext(fault) => ContextFault(ask.context, ask.encoded) == Some(fault)
        case ProviderMismatch => !bound
        case DeliveryRevoked =>
          Barred(r, key, ask.session) || (key in r.rows && r.rows[key].state == Cancelled)
        case LifetimeInvalid => ask.expires > t.now + 300
        case IdempotencyConflict => key in r.rows && r.rows[key].fingerprint != Material(policy, ask)
        case DuplicateCommitted => key in r.rows && r.rows[key].state == Committed
        case RequestInProgress => key in r.rows && t.now < r.rows[key].until
        case ReadbackExhausted => key in r.rows && r.rows[key].readbacks >= policy.readbacks
        case CapacityExhausted => key !in r.rows && |r.rows| >= policy.entries
        case QuotaExhausted => key !in r.rows && !Room(policy, r.rows, ask.subject, t.now)
        case _ => false
  {
    hide Label, WhiteSpace, ContextFault, OfDay, Room, Reserved;
    if 0 <= t.now { RoomIff(policy, r.rows, ask.subject, t.now); }
    if Blank(ask.question) {
      forall c | c in ask.question ensures WhiteSpace(c) {
        var i :| 0 <= i < |ask.question| && ask.question[i] == c;
      }
    }
  }

  /** So does one of an authorization. */
  lemma AuthorizeRefusals(r: Registry, request: RequestKey, claim: string, bound: bool, t: Reading)
    ensures var x := ModelRegistry.Authorize(r, request, claim, bound, t);
      x.Raised? ==> ClockSays(r, request.fingerprint.expires, t, x.code) || match x.code
        case ProviderMismatch => !bound
        case DeliveryRevoked => Barred(r, request.key, request.fingerprint.session)
        case AttemptFenced => !Holds(r, request, claim)
        case _ => false
  {
  }

  /** So does one of a commit. */
  lemma CommitRefusals(r: Registry, request: RequestKey, claim: string, result: ProviderResult, bound: bool, t: Reading)
    ensures var x := Commit(r, request, claim, result, bound, t);
      x.Raised? ==> match x.code
        case ResultUnbound => result == Malformed || result.requestKey != request
        case ResponseInvalid =>
          result.ProviderResult? && (|result.answer| > 65536 || Utf8Length(result.answer) > 65536
                                     || forall c :: c in result.answer ==> WhiteSpace(c))
        case BindingInvalid => result.ProviderResult? && (!Label(result.request, 128) || !Label(result.receipt, 128))
        case AttemptFenced => !Holds(r, request, claim)
        case ProviderMismatch => !bound
        case DeliveryRevoked => request.key in r.rows && Barred(r, request.key, r.rows[request.key].session)
        case code => request.key in r.rows && ClockSays(r, r.rows[request.key].expires, t, code)
  {
    hide Label, WhiteSpace, Utf8Length;
    if result.ProviderResult? && Blank(result.answer) {
      forall c | c in result.answer ensures WhiteSpace(c) {
        var i :| 0 <= i < |result.answer| && result.answer[i] == c;
      }
    }
  }
}
