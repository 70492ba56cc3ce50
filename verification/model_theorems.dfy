/** What every run of the model gateway promises its callers. */
module ModelTheorems {
  import opened Base
  import opened ModelRegistry
  import opened ModelInvariant
  import opened ModelRuns

  /** The systems some run reaches from an empty registry. */
  ghost predicate Reachable(s: System) {
    exists now, steps :: s == Run(Start(s.policy, now), steps)
  }

  lemma ReachableFits(s: System)
    requires Reachable(s)
    ensures Inv(s)
  {
    hide Inv, Run;
    var now, steps :| s == Run(Start(s.policy, now), steps);
    StartFits(s.policy, now);
    RunKeeps(Start(s.policy, now), steps);
  }

  // ----- runs only move forward -----

  ghost predicate HistoryForward(s: System, s': System) {
    && s'.policy == s.policy
    && |s.asked| <= |s'.asked| && s'.asked[..|s.asked|] == s.asked
    && |s.commits| <= |s'.commits| && s'.commits[..|s.commits|] == s.commits
    && (forall c :: c in s.attempts ==> c in s'.attempts && s'.attempts[c].request == s.attempts[c].request
                                          && s'.attempts[c].ordinal == s.attempts[c].ordinal)
  }

  lemma NextForward(s: System, step: Step)
    requires Inv(s)
    ensures Forward(s.registry, Next(s, step).registry)
  {
    hide Forward, Fit, AttemptsFit, AskedFit, CommitsFit, Reserve, ModelRegistry.Authorize, Commit,
      ModelRegistry.Deny, Uncertain, ShutOut;
    Resting(s.registry);
    match step
    case Execute(ask, bound, claim, t) => ReserveForward(s.policy, s.registry, ask, bound, claim, t);
    case Authorize(claim, bound, t, punctual) => if claim in s.attempts {
      AuthorizeKeeps(s.policy, s.registry, s.attempts[claim].request, claim, bound, t,
        ModelRegistry.Authorize(s.registry, s.attempts[claim].request, claim, bound, t));
    }
    case Recheck(claim, bound, t) => if claim in s.attempts {
      AuthorizeKeeps(s.policy, s.registry, s.attempts[claim].request, claim, bound, t,
        ModelRegistry.Authorize(s.registry, s.attempts[claim].request, claim, bound, t));
    }
    case Conclude(claim, patient, bound, t) => if claim in s.attempts && Read(s.attempts[claim].worker, patient).Some? {
      var result := Read(s.attempts[claim].worker, patient).value;
      CommitKeeps(s.policy, s.registry, s.attempts[claim].request, claim, result, bound, t,
        Commit(s.registry, s.attempts[claim].request, claim, result, bound, t));
    }
    case Release(claim) => if claim in s.attempts && s.attempts[claim].caller.Failing? {
      var a := s.attempts[claim];
      UncertainKeeps(s.policy, s.registry, a.request, claim, a.caller.release,
                     Uncertain(s.registry, a.request, claim, a.caller.release));
    }
    case Deny(target) => DenyKeeps(s.policy, s.registry, target, ModelRegistry.Deny(s.policy, s.registry, target));
    case _ =>
  }

  lemma ReserveForward(policy: Policy, r: Registry, ask: Ask, bound: bool, claim: string, t: Reading)
    requires Fit(policy, r)
    ensures Forward(r, Reserve(policy, r, ask, bound, claim, t).registry)
  {
    hide Fit, Forward, Reserve, Reserved, AskFault, ReserveFault;
    var x := Reserve(policy, r, ask, bound, claim, t);
    ReserveMeans(policy, r, ask, bound, claim, t, x);
    Resting(r);
    if x.Done? { ReserveKeeps(policy, r, ask, claim, t, x.registry); }
  }

  lemma HistoryMoves(s: System, step: Step)
    ensures HistoryForward(s, Next(s, step))
  {
    hide Reserve, ModelRegistry.Authorize, Commit, ModelRegistry.Deny, Uncertain;
  }

  lemma {:induction false} RunForward(s: System, steps: seq<Step>)
    requires Inv(s)
    ensures Forward(s.registry, Run(s, steps).registry) && HistoryForward(s, Run(s, steps))
    decreases |steps|
  {
    hide Inv, Next, Forward;
    Resting(s.registry);
    if steps != [] {
      var s' := Next(s, steps[0]);
      NextKeeps(s, steps[0]);
      NextForward(s, steps[0]);
      HistoryMoves(s, steps[0]);
      RunForward(s', steps[1..]);
      ForwardTransitive(s.registry, s'.registry, Run(s', steps[1..]).registry);
    }
  }

  // ----- fenced commits -----

  /**
   * At most one attempt at a request ever commits; it holds the claim in the row, and its answer is the row's for good.
   */
  lemma AtMostOneCommits(s: System, i: nat, steps: seq<Step>)
    requires Reachable(s) && i < |s.commits|
    ensures var c, s' := s.commits[i], Run(s, steps);
      && (forall j :: 0 <= j < |s'.commits| && s'.commits[j].request.key == c.request.key ==> j == i)
      && c.request.key in s'.registry.rows && s'.registry.rows[c.request.key].state.Committed?
      && s'.registry.rows[c.request.key].claim == c.claim && s'.registry.rows[c.request.key].answer == Some(c.answer)
  {
    hide Fit, AttemptsFit, AskedFit, Run, Forward, Reachable;
    ReachableFits(s);
    RunKeeps(s, steps);
    RunForward(s, steps);
    var s' := Run(s, steps);
    assert s'.commits[i] == s.commits[i] by { assert s'.commits[..|s.commits|][i] == s.commits[i]; }
    assert CommitsFit(s'.commits, s'.registry.rows);
  }

  /** Once another attempt has taken the claim over, an attempt never commits. */
  lemma SupersededNeverCommits(s: System, claim: string, steps: seq<Step>)
    requires Reachable(s) && claim in s.attempts && s.attempts[claim].request.key in s.registry.rows
    requires s.registry.rows[s.attempts[claim].request.key].claim != claim
    ensures forall j :: 0 <= j < |Run(s, steps).commits| ==> Run(s, steps).commits[j].claim != claim
  {
    hide Run, Reachable;
    ReachableFits(s);
    RunKeeps(s, steps);
    RunForward(s, steps);
    var s', key := Run(s, steps), s.attempts[claim].request.key;
    BehindForever(s.attempts, s.registry.rows, s'.registry.rows, claim);
    forall j | 0 <= j < |s'.commits| ensures s'.commits[j].claim != claim {
      HolderIsLatest(s', j);
    }
  }

  lemma BehindForever(attempts: map<string, Attempt>, rows: map<Key, Row>, rows': map<Key, Row>, claim: string)
    requires AttemptsFit(attempts, rows) && RowsForward(rows, rows') && claim in attempts
    requires rows[attempts[claim].request.key].claim != claim
    ensures attempts[claim].request.key in rows'
    ensures attempts[claim].ordinal < rows'[attempts[claim].request.key].readbacks
  {
    var key := attempts[claim].request.key;
    assert key in rows && RowForward(rows[key], rows'[key]);
    if attempts[claim].ordinal == rows[key].readbacks {
      assert SameTurn(attempts[claim], attempts[rows[key].claim]);
    }
  }

  lemma HolderIsLatest(s: System, j: nat)
    requires Inv(s) && j < |s.commits|
    ensures s.commits[j].claim in s.attempts && s.commits[j].request.key in s.registry.rows
    ensures var a := s.attempts[s.commits[j].claim];
      a.request.key == s.commits[j].request.key && a.ordinal == s.registry.rows[a.request.key].readbacks
  {
    hide Fit, AskedFit;
  }

  /**
   * A live claim is only taken over once the clock has reached its end; a caller that gave up may release it earlier.
   */
  lemma ClaimsAreExclusive(s: System, step: Step, key: Key)
    requires Reachable(s) && key in s.registry.rows && key in Next(s, step).registry.rows
    requires Next(s, step).registry.rows[key].claim != s.registry.rows[key].claim
    ensures step.Execute? && KeyOf(step.ask) == key && s.registry.rows[key].until <= step.t.now
    ensures !Closed(s.registry.rows[key])
    ensures Next(s, step).registry.rows[key].readbacks == s.registry.rows[key].readbacks + 1
  {
    hide Reachable, Reserve, ModelRegistry.Authorize, Commit, ModelRegistry.Deny, Uncertain, AskFault, ReserveFault,
      Reserved, RowForward, AttemptsFit, AskedFit, CommitsFit, QuotasHold, LogOrdered, TombstonesFit, LogAccounts,
      RowFit, IsDenied, ResultFault;
    ReachableFits(s);
    match step
    case Execute(ask, bound, claim, t) =>
      ReserveMeans(s.policy, s.registry, ask, bound, claim, t, Reserve(s.policy, s.registry, ask, bound, claim, t));
      if Reserve(s.policy, s.registry, ask, bound, claim, t).Done? {
        ReservedRow(s.policy, s.registry, ask, claim, t.now, Reserved(s.policy, s.registry, ask, claim, t.now));
      }
    case Authorize(claim, bound, t, _) => if claim in s.attempts {
      AuthorizeMeans(s.registry, s.attempts[claim].request, claim, bound, t,
        ModelRegistry.Authorize(s.registry, s.attempts[claim].request, claim, bound, t));
    }
    case Recheck(claim, bound, t) => if claim in s.attempts {
      AuthorizeMeans(s.registry, s.attempts[claim].request, claim, bound, t,
        ModelRegistry.Authorize(s.registry, s.attempts[claim].request, claim, bound, t));
    }
    case Conclude(claim, patient, bound, t) => if claim in s.attempts && Read(s.attempts[claim].worker, patient).Some? {
      var result := Read(s.attempts[claim].worker, patient).value;
      CommitRow(s.policy, s.registry, s.attempts[claim].request, claim, result, bound, t,
        Commit(s.registry, s.attempts[claim].request, claim, result, bound, t));
    }
    case Release(claim) => if claim in s.attempts && s.attempts[claim].caller.Failing? {
      UncertainSame(s.registry, s.attempts[claim].request, claim, s.attempts[claim].caller.release);
    }
    case Deny(target) => DenySame(s.policy, s.registry, target);
    case _ =>
  }

  // ----- provider calls -----

  function TurnsAsked(asked: seq<Asked>, key: Key): set<nat> {
    set i | 0 <= i < |asked| && asked[i].request.key == key :: asked[i].ordinal
  }

  /** The provider calls made for one request: generate at most once, each unit of the readback budget at most once. */
  lemma CallsBounded(s: System, key: Key)
    requires Reachable(s)
    ensures forall i, j :: 0 <= i < j < |s.asked| && s.asked[i].request.key == key && s.asked[j].request.key == key ==>
      s.asked[i].ordinal != s.asked[j].ordinal
    ensures forall n :: n in TurnsAsked(s.asked, key) ==> n <= s.policy.readbacks
    ensures |TurnsAsked(s.asked, key)| <= 1 + s.policy.readbacks
  {
    hide Reachable, QuotasHold, LogOrdered, TombstonesFit, LogAccounts, CommitsFit;
    ReachableFits(s);
    forall i, j | 0 <= i < j < |s.asked| && s.asked[i].request.key == key && s.asked[j].request.key == key
      ensures s.asked[i].ordinal != s.asked[j].ordinal
    {
      if s.asked[i].ordinal == s.asked[j].ordinal {
        OneTurn(s.attempts, s.registry.rows, s.asked[i].claim, s.asked[j].claim);
      }
    }
    var turns := TurnsAsked(s.asked, key);
    forall n | n in turns ensures n <= s.policy.readbacks {
      var i :| 0 <= i < |s.asked| && s.asked[i].request.key == key && s.asked[i].ordinal == n;
      AskedPaid(s, i);
    }
    assert turns <= UpTo(s.policy.readbacks);
    SubsetSize(turns, UpTo(s.policy.readbacks));
  }

  lemma OneTurn(attempts: map<string, Attempt>, rows: map<Key, Row>, c: string, d: string)
    requires AttemptsFit(attempts, rows) && c in attempts && d in attempts && SameTurn(attempts[c], attempts[d])
    ensures c == d
  {
  }

  lemma AskedPaid(s: System, i: nat)
    requires Inv(s) && i < |s.asked|
    ensures s.asked[i].ordinal <= s.policy.readbacks
  {
    hide QuotasHold, LogOrdered, TombstonesFit, LogAccounts, CommitsFit;
    var a := s.attempts[s.asked[i].claim];
    assert RowFit(s.policy, a.request.key, s.registry.rows[a.request.key]);
  }

  function UpTo(n: nat): (r: set<nat>)
    ensures |r| == n + 1 && forall i: nat :: i in r <==> i <= n
  {
    if n == 0 then {0} else UpTo(n - 1) + {n}
  }

  /** The one step that calls a provider. */
  lemma AskedStep(s: System, step: Step)
    requires |Next(s, step).asked| > |s.asked|
    ensures step.Authorize? && step.claim in s.attempts
    ensures var a := s.attempts[step.claim];
      && Next(s, step).asked == s.asked + [Asked(step.claim, a.request, a.ordinal, s.registry, step.t)]
      && Current(s.registry, a.request, step.claim)
      && !IsDenied(s.registry, a.request.key, a.request.fingerprint.session)
      && s.registry.last <= step.t.now <= step.t.final < a.request.fingerprint.expires && !step.t.late
  {
    hide Inv, Reserve, ModelRegistry.Authorize, Commit, ModelRegistry.Deny, Uncertain, Current, IsDenied;
    if step.Authorize? && step.claim in s.attempts {
      var a := s.attempts[step.claim];
      AuthorizeMeans(s.registry, a.request, step.claim, step.bound, step.t,
        ModelRegistry.Authorize(s.registry, a.request, step.claim, step.bound, step.t));
    }
  }

  /** Every provider call ever made followed an authorization that saw the current claim, no denial and time left. */
  lemma AskedUnderAuthority(s: System, i: nat)
    requires Reachable(s) && i < |s.asked|
    ensures UnderAuthority(s.asked[i])
  {
    hide Reachable, Fit, AttemptsFit, CommitsFit, UnderAuthority;
    ReachableFits(s);
  }

  // ----- quotas and the log -----

  /** The daily and the total quota hold, and the log is ordered in time and accounts for every row. */
  lemma QuotasAndLog(s: System, subject: string, day: int)
    requires Reachable(s)
    ensures |s.registry.rows| <= s.policy.entries
    ensures |set k | k in s.registry.rows && k.subject == subject && s.registry.rows[k].day == day| <= s.policy.daily
    ensures forall i, j :: 0 <= i < j < |s.registry.events| ==>
      s.registry.events[i].at <= s.registry.events[j].at <= s.registry.last
    ensures forall k :: k in s.registry.rows ==>
      Count(s.registry.events, ReadbackReserved, ForRequest(RequestKey(k, s.registry.rows[k].fingerprint)))
        == s.registry.rows[k].readbacks
      && Count(s.registry.events, AnswerCommitted, ForRequest(RequestKey(k, s.registry.rows[k].fingerprint)))
         == (if s.registry.rows[k].state.Committed? then 1 else 0)
    ensures |s.registry.sessions| + |s.registry.cancellations| <= s.policy.entries
  {
    hide Reachable, AttemptsFit, AskedFit, CommitsFit, Count;
    ReachableFits(s);
    assert |OfDay(s.registry.rows, subject, day)| <= s.policy.daily;
    forall k | k in s.registry.rows
      ensures RowLogged(s.registry.events, RequestKey(k, s.registry.rows[k].fingerprint), s.registry.rows)
    {}
  }

  // ----- denial or total stop -----

  /** Nothing a denial names was admitted, changed, asked for or committed between these systems. */
  ghost predicate NothingMatching(s: System, s': System, target: Target) {
    && (forall k :: k in s'.registry.rows && Matches(target, k, s'.registry.rows[k].session) ==>
          k in s.registry.rows && s'.registry.rows[k] == s.registry.rows[k])
    && (forall i :: |s.asked| <= i < |s'.asked| ==>
      !Matches(target, s'.asked[i].request.key, s'.asked[i].request.fingerprint.session))
    && (forall i :: |s.commits| <= i < |s'.commits| ==>
      !Matches(target, s'.commits[i].request.key, s'.commits[i].request.fingerprint.session))
  }

  lemma ShutOutDenies(r: Registry, target: Target, key: Key, session: string)
    requires ShutOut(r, target) && Matches(target, key, session)
    ensures IsDenied(r, key, session)
  {
  }

  lemma ShutOutStep(s: System, step: Step, target: Target)
    requires Inv(s) && ShutOut(s.registry, target)
    ensures ShutOut(Next(s, step).registry, target) && NothingMatching(s, Next(s, step), target)
  {
    hide Fit, AttemptsFit, AskedFit, CommitsFit, Next, Matches, RowForward, ShutOut;
    var s' := Next(s, step);
    NextForward(s, step);
    NextKeeps(s, step);
    NoNewRow(s, step, target);
    RowsStill(s.registry, s'.registry, target);
    HistoryMoves(s, step);
    if |s'.asked| > |s.asked| {
      AskedStep(s, step);
      AskedElsewhere(s, step, target);
    }
    NoCommit(s, step, target);
  }

  lemma RowsStill(r: Registry, r': Registry, target: Target)
    requires ShutOut(r, target) && Forward(r, r')
    requires forall k :: k in r'.rows && k !in r.rows ==> !Matches(target, k, r'.rows[k].session)
    ensures ShutOut(r', target)
    ensures forall k :: k in r'.rows && Matches(target, k, r'.rows[k].session) ==>
      k in r.rows && r'.rows[k] == r.rows[k]
  {
    forall k | k in r'.rows && Matches(target, k, r'.rows[k].session) ensures k in r.rows && r'.rows[k] == r.rows[k] {
      assert RowForward(r.rows[k], r'.rows[k]);
    }
  }

  lemma NoNewRow(s: System, step: Step, target: Target)
    requires Inv(s) && ShutOut(s.registry, target)
    ensures var r' := Next(s, step).registry;
      forall k :: k in r'.rows && k !in s.registry.rows ==> !Matches(target, k, r'.rows[k].session)
  {
    hide Reserve, ModelRegistry.Authorize, Commit, ModelRegistry.Deny, Uncertain, AskFault, ReserveFault, Reserved,
      RowForward, RowFit, IsDenied, AttemptsFit, AskedFit, CommitsFit, QuotasHold, LogOrdered, TombstonesFit,
      LogAccounts, Matches, ShutOut, SameCommitted, ResultFault;
    match step
    case Execute(ask, bound, claim, t) =>
      ReserveMeans(s.policy, s.registry, ask, bound, claim, t, Reserve(s.policy, s.registry, ask, bound, claim, t));
      if Reserve(s.policy, s.registry, ask, bound, claim, t).Done? {
        ReservedRow(s.policy, s.registry, ask, claim, t.now, Reserved(s.policy, s.registry, ask, claim, t.now));
        if Matches(target, KeyOf(ask), ask.session) { ShutOutDenies(s.registry, target, KeyOf(ask), ask.session); }
      }
    case Authorize(claim, bound, t, _) => if claim in s.attempts {
      AuthorizeMeans(s.registry, s.attempts[claim].request, claim, bound, t,
        ModelRegistry.Authorize(s.registry, s.attempts[claim].request, claim, bound, t));
    }
    case Recheck(claim, bound, t) => if claim in s.attempts {
      AuthorizeMeans(s.registry, s.attempts[claim].request, claim, bound, t,
        ModelRegistry.Authorize(s.registry, s.attempts[claim].request, claim, bound, t));
    }
    case Conclude(claim, patient, bound, t) => if claim in s.attempts && Read(s.attempts[claim].worker, patient).Some? {
      var result := Read(s.attempts[claim].worker, patient).value;
      CommitRow(s.policy, s.registry, s.attempts[claim].request, claim, result, bound, t,
        Commit(s.registry, s.attempts[claim].request, claim, result, bound, t));
      hide Current;
    }
    case Release(claim) => if claim in s.attempts && s.attempts[claim].caller.Failing? {
      UncertainSame(s.registry, s.attempts[claim].request, claim, s.attempts[claim].caller.release);
    }
    case Deny(t) => DenySame(s.policy, s.registry, t);
    case _ =>
  }

  lemma AskedElsewhere(s: System, step: Step, target: Target)
    requires ShutOut(s.registry, target) && step.Authorize? && step.claim in s.attempts
    requires var a := s.attempts[step.claim]; !IsDenied(s.registry, a.request.key, a.request.fingerprint.session)
    ensures var a := s.attempts[step.claim]; !Matches(target, a.request.key, a.request.fingerprint.session)
  {
    hide ShutOut, IsDenied, Matches;
    var a := s.attempts[step.claim];
    if Matches(target, a.request.key, a.request.fingerprint.session) {
      ShutOutDenies(s.registry, target, a.request.key, a.request.fingerprint.session);
    }
  }

  lemma NoCommit(s: System, step: Step, target: Target)
    requires Inv(s) && ShutOut(s.registry, target)
    ensures var s' := Next(s, step); forall i :: |s.commits| <= i < |s'.commits| ==>
      !Matches(target, s'.commits[i].request.key, s'.commits[i].request.fingerprint.session)
  {
    hide Reserve, ModelRegistry.Authorize, Commit, ModelRegistry.Deny, Uncertain, RowForward, IsDenied, ResultFault,
      AttemptsFit, AskedFit, CommitsFit, QuotasHold, LogOrdered, TombstonesFit, LogAccounts, Matches, ShutOut;
    if step.Conclude? && step.claim in s.attempts && Read(s.attempts[step.claim].worker, step.patient).Some? {
      var a, result := s.attempts[step.claim], Read(s.attempts[step.claim].worker, step.patient).value;
      CommitRow(s.policy, s.registry, a.request, step.claim, result, step.bound, step.t,
        Commit(s.registry, a.request, step.claim, result, step.bound, step.t));
      if Commit(s.registry, a.request, step.claim, result, step.bound, step.t).Done? {
        assert RowFit(s.policy, a.request.key, s.registry.rows[a.request.key]);
        if Matches(target, a.request.key, a.request.fingerprint.session) {
          ShutOutDenies(s.registry, target, a.request.key, a.request.fingerprint.session);
        }
      }
    }
  }

  lemma {:induction false} ShutOutStays(s: System, target: Target, steps: seq<Step>)
    requires Inv(s) && ShutOut(s.registry, target)
    ensures ShutOut(Run(s, steps).registry, target) && NothingMatching(s, Run(s, steps), target)
    decreases |steps|
  {
    hide Inv, Next, ShutOut, Matches, Forward;
    if steps != [] {
      var s1 := Next(s, steps[0]);
      ShutOutStep(s, steps[0], target);
      NextKeeps(s, steps[0]);
      ShutOutStays(s1, target, steps[1..]);
      HistoryMoves(s, steps[0]);
      RunForward(s1, steps[1..]);
      Stitch(s, s1, Run(s1, steps[1..]), target);
    }
  }

  lemma Stitch(a: System, b: System, c: System, target: Target)
    requires NothingMatching(a, b, target) && NothingMatching(b, c, target) && HistoryForward(a, b)
    requires HistoryForward(b, c)
    ensures NothingMatching(a, c, target)
  {
    hide Matches;
    forall i | |a.asked| <= i < |c.asked|
      ensures !Matches(target, c.asked[i].request.key, c.asked[i].request.fingerprint.session)
    {
      if i < |b.asked| { assert c.asked[i] == b.asked[i] by { assert c.asked[..|b.asked|][i] == b.asked[i]; } }
    }
    forall i | |a.commits| <= i < |c.commits|
      ensures !Matches(target, c.commits[i].request.key, c.commits[i].request.fingerprint.session)
    {
      if i < |b.commits| {
        assert c.commits[i] == b.commits[i] by { assert c.commits[..|b.commits|][i] == b.commits[i]; }
      }
    }
  }

  /**
   * After cancel or revoke_session with well-formed names, whatever room the registry had: in every later system the
   * exact tombstone is there or the registry is suspended, and no request it names is admitted, asked for or committed
   * again.
   */
  lemma DenialOrTotalStop(s: System, target: Target, steps: seq<Step>)
    requires Reachable(s) && ValidTarget(target)
    ensures var denied := Next(s, Deny(target)); var s' := Run(denied, steps);
      && (Tombstoned(s'.registry, target) || s'.registry.suspended)
      && (forall k :: k in s'.registry.rows && Matches(target, k, s'.registry.rows[k].session) ==>
        Closed(s'.registry.rows[k]))
      && NothingMatching(denied, s', target)
  {
    hide Reachable, Inv, Run, ModelRegistry.Deny, Matches, Fit, Forward, NothingMatching;
    ReachableFits(s);
    InvFit(s);
    DenyKeeps(s.policy, s.registry, target, ModelRegistry.Deny(s.policy, s.registry, target));
    NextKeeps(s, Deny(target));
    ShutOutStays(Next(s, Deny(target)), target, steps);
  }

  lemma InvFit(s: System)
    requires Inv(s)
    ensures Fit(s.policy, s.registry)
  {
    hide Fit, AttemptsFit, AskedFit, CommitsFit;
  }

  /** A closed request never changes again: its answer is fixed, a cancelled one never gets any. */
  lemma ClosedIsFinal(s: System, key: Key, steps: seq<Step>)
    requires Reachable(s) && key in s.registry.rows && Closed(s.registry.rows[key])
    ensures var rows' := Run(s, steps).registry.rows; key in rows' && rows'[key] == s.registry.rows[key]
  {
    hide Reachable, Inv, Run;
    ReachableFits(s);
    RunForward(s, steps);
    assert RowForward(s.registry.rows[key], Run(s, steps).registry.rows[key]);
  }
}
