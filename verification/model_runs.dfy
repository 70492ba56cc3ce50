/**
 * Whole runs of the model gateway: callers, provider workers that may outlive them, readbacks, denials and crashes in
 * any order, and what holds after every one.
 */
module ModelRuns {
  import opened Base
  import opened ModelRegistry
  import opened ModelInvariant

  /** The worker of one attempt: Asking has called the provider, Ended has its answer or failed. */
  datatype Worker = Idle | Asking | Ended(answered: bool, result: Option<ProviderResult>) | Never

  /** The caller of one attempt: Failing still has to mark it uncertain. */
  datatype Caller = Waiting | Failing(release: bool) | Gone

  /** ordinal is 0 for the dispatch, otherwise which unit of the readback budget paid for the attempt. */
  datatype Attempt = Attempt(request: RequestKey, ordinal: nat, worker: Worker, caller: Caller)

  /**
   * A provider call that was made, generate for ordinal 0 and reconcile otherwise, and the authorization before it:
   * what it saw, and its clock readings.
   */
  datatype Asked = Asked(claim: string, request: RequestKey, ordinal: nat, seen: Registry, t: Reading)

  datatype Commitment = Commitment(claim: string, request: RequestKey, answer: Answer)

  datatype System = System(policy: Policy, registry: Registry, attempts: map<string, Attempt>, asked: seq<Asked>,
                           commits: seq<Commitment>)

  datatype Step =
    | Execute(ask: Ask, bound: bool, claim: string, t: Reading)
    | NeverStarts(claim: string)
    | Authorize(claim: string, bound: bool, t: Reading, punctual: bool)
    | Recheck(claim: string, bound: bool, t: Reading)
    | Answered(claim: string, result: Option<ProviderResult>)
    | Threw(claim: string)
    | Conclude(claim: string, patient: bool, bound: bool, t: Reading)
    | Release(claim: string)
    | Deny(target: Target)
    | Crash

  function Start(policy: Policy, now: int): System {
    System(policy, Registry(map[], {}, {}, now, false, []), map[], [], [])
  }

  function WithWorker(s: System, claim: string, worker: Worker): System
    requires claim in s.attempts
  {
    s.(attempts := s.attempts[claim := s.attempts[claim].(worker := worker)])
  }

  function WithCaller(s: System, claim: string, caller: Caller): System
    requires claim in s.attempts
  {
    s.(attempts := s.attempts[claim := s.attempts[claim].(caller := caller)])
  }

  /** The attempt a successful reservation makes. */
  function Admitted(policy: Policy, r: Registry, ask: Ask): Attempt {
    var key := KeyOf(ask);
    Attempt(RequestKey(key, FingerprintOf(policy, ask)), if key in r.rows then r.rows[key].readbacks + 1 else 0, Idle,
            Waiting)
  }

  /** The result a patient caller reads from a worker that answered. */
  function Read(worker: Worker, patient: bool): Option<ProviderResult> {
    if patient && worker.Ended? && worker.answered then worker.result else None
  }

  function Next(s: System, step: Step): System {
    match step
    case Execute(ask, bound, claim, t) =>
      if claim in s.attempts then s else
      var x := Reserve(s.policy, s.registry, ask, bound, claim, t);
      if x.Raised? then s
      else s.(registry := x.registry, attempts := s.attempts[claim := Admitted(s.policy, s.registry, ask)])
    case NeverStarts(claim) =>
      if claim in s.attempts && s.attempts[claim].worker.Idle? then WithWorker(s, claim, Never) else s
    case Authorize(claim, bound, t, punctual) =>
      if claim !in s.attempts || !s.attempts[claim].worker.Idle? then s else
      var a := s.attempts[claim];
      var x := ModelRegistry.Authorize(s.registry, a.request, claim, bound, t);
      if x.Raised? || !punctual then WithWorker(s, claim, Ended(false, None)).(registry := x.registry)
      else WithWorker(s, claim, Asking).(registry := x.registry,
                                         asked := s.asked + [Asked(claim, a.request, a.ordinal, s.registry, t)])
    case Recheck(claim, bound, t) =>
      if claim !in s.attempts || !s.attempts[claim].worker.Asking? || s.attempts[claim].ordinal != 0 then s else
      s.(registry := ModelRegistry.Authorize(s.registry, s.attempts[claim].request, claim, bound, t).registry)
    case Answered(claim, result) =>
      if claim in s.attempts && s.attempts[claim].worker.Asking? then WithWorker(s, claim, Ended(true, result)) else s
    case Threw(claim) =>
      if claim in s.attempts && (s.attempts[claim].worker.Idle? || s.attempts[claim].worker.Asking?)
      then WithWorker(s, claim, Ended(false, None)) else s
    case Conclude(claim, patient, bound, t) =>
      if claim !in s.attempts || !s.attempts[claim].caller.Waiting? then s else
      var a := s.attempts[claim];
      var result := Read(a.worker, patient);
      if result.None? then WithCaller(s, claim, Failing(patient && (a.worker.Ended? || a.worker.Never?))) else
      var x := Commit(s.registry, a.request, claim, result.value, bound, t);
      if x.Raised? then WithCaller(s, claim, Failing(true))
      else WithCaller(s, claim, Gone).(registry := x.registry,
        commits := s.commits
          + [Commitment(claim, a.request, Answer(result.value.answer, result.value.request, result.value.receipt))])
    case Release(claim) =>
      if claim !in s.attempts || !s.attempts[claim].caller.Failing? then s else
      var a := s.attempts[claim];
      WithCaller(s, claim, Gone).(registry := Uncertain(s.registry, a.request, claim, a.caller.release))
    case Deny(target) => s.(registry := ModelRegistry.Deny(s.policy, s.registry, target).registry)
    case Crash =>
      s.(attempts := map c | c in s.attempts :: s.attempts[c].(caller := Gone,
           worker := if s.attempts[c].worker.Idle? || s.attempts[c].worker.Asking? then Ended(false, None)
             else s.attempts[c].worker))
  }

  function Run(s: System, steps: seq<Step>): System
    decreases |steps|
  {
    if steps == [] then s else Run(Next(s, steps[0]), steps[1..])
  }

  // ----- the invariant -----

  predicate SameTurn(a: Attempt, b: Attempt) {
    a.request.key == b.request.key && a.ordinal == b.ordinal
  }

  ghost predicate AttemptsFit(attempts: map<string, Attempt>, rows: map<Key, Row>) {
    && (forall c :: c in attempts ==>
          && attempts[c].request.key in rows
          && rows[attempts[c].request.key].fingerprint == attempts[c].request.fingerprint
          && attempts[c].ordinal <= rows[attempts[c].request.key].readbacks)
    && (forall c, d | c in attempts && d in attempts && SameTurn(attempts[c], attempts[d]) :: c == d)
    && (forall k :: k in rows ==>
          && rows[k].claim in attempts && attempts[rows[k].claim].request.key == k
          && attempts[rows[k].claim].ordinal == rows[k].readbacks)
  }

  ghost predicate AskedFit(asked: seq<Asked>, attempts: map<string, Attempt>) {
    && (forall i :: 0 <= i < |asked| ==>
          && asked[i].claim in attempts && attempts[asked[i].claim].request == asked[i].request
          && attempts[asked[i].claim].ordinal == asked[i].ordinal
          && !attempts[asked[i].claim].worker.Idle? && !attempts[asked[i].claim].worker.Never?
          && UnderAuthority(asked[i]))
    && (forall i, j :: 0 <= i < j < |asked| ==> asked[i].claim != asked[j].claim)
  }

  /** The authorization saw the current claim, no denial and an authority that had not expired. */
  predicate UnderAuthority(a: Asked) {
    && a.request.key in a.seen.rows && a.seen.rows[a.request.key].fingerprint == a.request.fingerprint
    && a.seen.rows[a.request.key].claim == a.claim
    && (a.seen.rows[a.request.key].state.Prepared? || a.seen.rows[a.request.key].state.Indeterminate?)
    && !a.seen.suspended && a.request.key !in a.seen.cancellations
    && Session(a.request.key.subject, a.request.fingerprint.session) !in a.seen.sessions
    && a.seen.last <= a.t.now <= a.t.final < a.request.fingerprint.expires && !a.t.late
  }

  ghost predicate CommitsFit(commits: seq<Commitment>, rows: map<Key, Row>) {
    && (forall i :: 0 <= i < |commits| ==>
          && commits[i].request.key in rows
          && rows[commits[i].request.key].fingerprint == commits[i].request.fingerprint
          && rows[commits[i].request.key].state.Committed? && rows[commits[i].request.key].claim == commits[i].claim
          && rows[commits[i].request.key].answer == Some(commits[i].answer))
    && (forall i, j :: 0 <= i < j < |commits| ==> commits[i].request.key != commits[j].request.key)
    && (forall k :: k in rows && rows[k].state.Committed? ==>
      exists i :: 0 <= i < |commits| && commits[i].request.key == k)
  }

  ghost predicate Inv(s: System) {
    && Fit(s.policy, s.registry)
    && AttemptsFit(s.attempts, s.registry.rows)
    && AskedFit(s.asked, s.attempts)
    && CommitsFit(s.commits, s.registry.rows)
  }

  // ----- kinds of steps -----

  /** Attempts that kept their request and ordinal, and whose workers only moved on. */
  ghost predicate AttemptsMove(attempts: map<string, Attempt>, attempts': map<string, Attempt>) {
    && attempts'.Keys == attempts.Keys
    && (forall c :: c in attempts ==>
          && attempts'[c].request == attempts[c].request && attempts'[c].ordinal == attempts[c].ordinal
          && (!attempts[c].worker.Idle? && !attempts[c].worker.Never? ==>
            !attempts'[c].worker.Idle? && !attempts'[c].worker.Never?))
  }

  /** Rows that kept what attempts refer to. */
  ghost predicate SameClaims(rows: map<Key, Row>, rows': map<Key, Row>) {
    && rows'.Keys == rows.Keys
    && (forall k :: k in rows ==>
          && rows'[k].fingerprint == rows[k].fingerprint && rows'[k].claim == rows[k].claim
          && rows'[k].readbacks == rows[k].readbacks)
  }

  lemma AttemptsMoved(attempts: map<string, Attempt>, attempts': map<string, Attempt>, rows: map<Key, Row>,
                      rows': map<Key, Row>)
    requires AttemptsFit(attempts, rows) && AttemptsMove(attempts, attempts') && SameClaims(rows, rows')
    ensures AttemptsFit(attempts', rows')
  {
    forall c, d | c in attempts' && d in attempts' && SameTurn(attempts'[c], attempts'[d]) ensures c == d {
      assert SameTurn(attempts[c], attempts[d]);
    }
    hide SameTurn;
  }

  lemma AskedMoved(asked: seq<Asked>, attempts: map<string, Attempt>, attempts': map<string, Attempt>)
    requires AskedFit(asked, attempts) && AttemptsMove(attempts, attempts')
    ensures AskedFit(asked, attempts')
  {
  }

  /** Rows whose committed ones did not change and that gained no committed one. */
  ghost predicate SameCommitted(rows: map<Key, Row>, rows': map<Key, Row>) {
    && (forall k :: k in rows && rows[k].state.Committed? ==> k in rows' && rows'[k] == rows[k])
    && (forall k :: k in rows' && rows'[k].state.Committed? ==> k in rows && rows[k].state.Committed?)
  }

  lemma CommitsSame(commits: seq<Commitment>, rows: map<Key, Row>, rows': map<Key, Row>)
    requires CommitsFit(commits, rows) && SameCommitted(rows, rows')
    ensures CommitsFit(commits, rows')
  {
  }

  /** A step that reserves nothing and commits nothing. */
  lemma QuietStep(s: System, s': System)
    requires Inv(s) && s'.policy == s.policy && Fit(s.policy, s'.registry)
    requires AttemptsMove(s.attempts, s'.attempts) && s'.asked == s.asked && s'.commits == s.commits
    requires SameClaims(s.registry.rows, s'.registry.rows) && SameCommitted(s.registry.rows, s'.registry.rows)
    ensures Inv(s')
  {
    hide Fit, AttemptsFit, AskedFit, CommitsFit, AttemptsMove, SameClaims, SameCommitted;
    AttemptsMoved(s.attempts, s'.attempts, s.registry.rows, s'.registry.rows);
    AskedMoved(s.asked, s.attempts, s'.attempts);
    CommitsSame(s.commits, s.registry.rows, s'.registry.rows);
  }

  lemma WorkerMoves(s: System, claim: string, worker: Worker)
    requires claim in s.attempts && !worker.Idle? && (worker.Never? ==> s.attempts[claim].worker.Idle?)
    ensures AttemptsMove(s.attempts, WithWorker(s, claim, worker).attempts)
  {
  }

  lemma CallerMoves(s: System, claim: string, caller: Caller)
    requires claim in s.attempts
    ensures AttemptsMove(s.attempts, WithCaller(s, claim, caller).attempts)
  {
  }

  lemma SameRows(rows: map<Key, Row>)
    ensures SameClaims(rows, rows) && SameCommitted(rows, rows)
  {
  }

  // ----- each step -----

  /** What an authorization leaves: nothing but a later clock, and only under full authority and the current claim. */
  lemma AuthorizeMeans(r: Registry, request: RequestKey, claim: string, bound: bool, t: Reading, x: Tx)
    requires x == ModelRegistry.Authorize(r, request, claim, bound, t)
    ensures x.registry == r || (r.last <= t.final && x.registry == r.(last := t.final))
    ensures x.Done? ==>
      && Current(r, request, claim) && !IsDenied(r, request.key, request.fingerprint.session)
      && r.last <= t.now <= t.final < request.fingerprint.expires && !t.late
  {
  }

  lemma AuthorizeKeeps(policy: Policy, r: Registry, request: RequestKey, claim: string, bound: bool, t: Reading, x: Tx)
    requires Fit(policy, r) && x == ModelRegistry.Authorize(r, request, claim, bound, t)
    ensures Fit(policy, x.registry) && Forward(r, x.registry) && x.registry.rows == r.rows
  {
    hide Fit, ModelRegistry.Authorize, Forward;
    AuthorizeMeans(r, request, claim, bound, t, x);
    Resting(r);
    if x.registry != r { TouchKeeps(policy, r, t.final); }
  }

  lemma AuthorizeStep(s: System, claim: string, bound: bool, t: Reading, punctual: bool)
    requires Inv(s)
    ensures Inv(Next(s, Authorize(claim, bound, t, punctual)))
  {
    hide Fit, ModelRegistry.Authorize, CommitsFit, AttemptsFit, AskedFit, AttemptsMove;
    if claim in s.attempts && s.attempts[claim].worker.Idle? {
      var a := s.attempts[claim];
      var x := ModelRegistry.Authorize(s.registry, a.request, claim, bound, t);
      AuthorizeKeeps(s.policy, s.registry, a.request, claim, bound, t, x);
      SameRows(s.registry.rows);
      if x.Raised? || !punctual {
        WorkerMoves(s, claim, Ended(false, None));
        QuietStep(s, Next(s, Authorize(claim, bound, t, punctual)));
      } else {
        WorkerMoves(s, claim, Asking);
        AttemptsMoved(s.attempts, WithWorker(s, claim, Asking).attempts, s.registry.rows, s.registry.rows);
        AuthorizeMeans(s.registry, a.request, claim, bound, t, x);
        AskedGrows(s.asked, s.attempts, claim, s.registry, t);
      }
    }
  }

  lemma AskedGrows(asked: seq<Asked>, attempts: map<string, Attempt>, claim: string, seen: Registry, t: Reading)
    requires AskedFit(asked, attempts) && claim in attempts && attempts[claim].worker.Idle?
    requires UnderAuthority(Asked(claim, attempts[claim].request, attempts[claim].ordinal, seen, t))
    ensures AskedFit(asked + [Asked(claim, attempts[claim].request, attempts[claim].ordinal, seen, t)],
                     attempts[claim := attempts[claim].(worker := Asking)])
  {
    hide UnderAuthority;
  }

  lemma RecheckStep(s: System, claim: string, bound: bool, t: Reading)
    requires Inv(s)
    ensures Inv(Next(s, Recheck(claim, bound, t)))
  {
    hide Fit, ModelRegistry.Authorize, CommitsFit, AttemptsFit, AskedFit;
    var s' := Next(s, Recheck(claim, bound, t));
    if s' != s {
      AuthorizeKeeps(s.policy, s.registry, s.attempts[claim].request, claim, bound, t,
        ModelRegistry.Authorize(s.registry, s.attempts[claim].request, claim, bound, t));
      SameRows(s.registry.rows);
      QuietStep(s, s');
    }
  }

  lemma WorkerStep(s: System, claim: string, worker: Worker)
    requires Inv(s) && claim in s.attempts && !worker.Idle? && (worker.Never? ==> s.attempts[claim].worker.Idle?)
    ensures Inv(WithWorker(s, claim, worker))
  {
    hide Fit, CommitsFit, AttemptsFit, AskedFit, AttemptsMove;
    WorkerMoves(s, claim, worker);
    SameRows(s.registry.rows);
    QuietStep(s, WithWorker(s, claim, worker));
  }

  lemma ReleaseStep(s: System, claim: string)
    requires Inv(s)
    ensures Inv(Next(s, Release(claim)))
  {
    hide Fit, CommitsFit, AttemptsFit, AskedFit, AttemptsMove, Uncertain, Forward;
    if claim in s.attempts && s.attempts[claim].caller.Failing? {
      var a := s.attempts[claim];
      var r' := Uncertain(s.registry, a.request, claim, a.caller.release);
      CallerMoves(s, claim, Gone);
      UncertainKeeps(s.policy, s.registry, a.request, claim, a.caller.release, r');
      UncertainSame(s.registry, a.request, claim, a.caller.release);
      QuietStep(s, Next(s, Release(claim)));
    }
  }

  lemma UncertainSame(r: Registry, request: RequestKey, claim: string, release: bool)
    ensures var r' := Uncertain(r, request, claim, release);
      SameClaims(r.rows, r'.rows) && SameCommitted(r.rows, r'.rows)
  {
  }

  lemma DenyStep(s: System, target: Target)
    requires Inv(s)
    ensures Inv(Next(s, Deny(target)))
  {
    hide Fit, CommitsFit, AttemptsFit, AskedFit, ModelRegistry.Deny, Forward, ShutOut;
    DenyKeeps(s.policy, s.registry, target, ModelRegistry.Deny(s.policy, s.registry, target));
    DenySame(s.policy, s.registry, target);
    QuietStep(s, Next(s, Deny(target)));
  }

  lemma DenySame(policy: Policy, r: Registry, target: Target)
    ensures var r' := ModelRegistry.Deny(policy, r, target).registry;
      SameClaims(r.rows, r'.rows) && SameCommitted(r.rows, r'.rows)
  {
    hide ValidTarget, CancelRows;
    SameRows(r.rows);
    CancelSame(r.rows, target);
  }

  lemma CancelSame(rows: map<Key, Row>, target: Target)
    ensures SameClaims(rows, CancelRows(rows, target)) && SameCommitted(rows, CancelRows(rows, target))
  {
    hide Matches;
  }

  lemma CrashStep(s: System)
    requires Inv(s)
    ensures Inv(Next(s, Crash))
  {
    hide Fit, CommitsFit, AttemptsFit, AskedFit;
    SameRows(s.registry.rows);
    QuietStep(s, Next(s, Crash));
  }

  // ----- reserving -----

  lemma ReserveMeans(policy: Policy, r: Registry, ask: Ask, bound: bool, claim: string, t: Reading, x: Tx)
    requires x == Reserve(policy, r, ask, bound, claim, t)
    ensures x.Raised? ==> x.registry == r
    ensures x.Done? ==>
      && MayReserve(policy, r, ask, t) && AskFault(policy, ask, bound).None? && t.final < ask.expires && !t.late
      && x.registry == Reserved(policy, r, ask, claim, t.now).(last := t.final)
  {
    hide AskFault, ReserveFault, Reserved;
  }

  lemma ReserveStep(s: System, ask: Ask, bound: bool, claim: string, t: Reading)
    requires Inv(s)
    ensures Inv(Next(s, Execute(ask, bound, claim, t)))
  {
    hide Fit, CommitsFit, AttemptsFit, AskedFit, Reserve, Reserved, ReserveFault, AskFault, RowForward, Forward,
      MayReserve, RowFit, IsDenied;
    if claim !in s.attempts {
      var x, key := Reserve(s.policy, s.registry, ask, bound, claim, t), KeyOf(ask);
      ReserveMeans(s.policy, s.registry, ask, bound, claim, t, x);
      if x.Done? {
        FitParts(s.policy, s.registry);
        MayReserveParts(s.policy, s.registry, ask, t);
        ReserveKeeps(s.policy, s.registry, ask, claim, t, x.registry);
        ReservedRow(s.policy, s.registry, ask, claim, t.now, Reserved(s.policy, s.registry, ask, claim, t.now));
        var row := x.registry.rows[key];
        AttemptsGrow(s.attempts, s.registry.rows, key, row, Admitted(s.policy, s.registry, ask));
        AskedWider(s.asked, s.attempts, claim, Admitted(s.policy, s.registry, ask));
        CommitsReserve(s.commits, s.registry.rows, key, row);
      }
    }
  }

  lemma MayReserveParts(policy: Policy, r: Registry, ask: Ask, t: Reading)
    requires MayReserve(policy, r, ask, t)
    ensures ReserveFault(policy, r, ask, t.now).None?
  {
  }

  lemma FitParts(policy: Policy, r: Registry)
    requires Fit(policy, r)
    ensures RowsFit(policy, r.rows) && QuotasHold(policy, r.rows) && LogOrdered(r.events, r.last) && LogAccounts(r)
    ensures TombstonesFit(policy, r.rows, r.sessions, r.cancellations)
  {
    hide RowsFit, QuotasHold, LogOrdered, LogAccounts, TombstonesFit;
  }

  lemma AttemptsGrow(attempts: map<string, Attempt>, rows: map<Key, Row>, key: Key, row: Row, a: Attempt)
    requires AttemptsFit(attempts, rows) && row.claim !in attempts
    requires a.request == RequestKey(key, row.fingerprint) && a.ordinal == row.readbacks
    requires key in rows ==> row.fingerprint == rows[key].fingerprint && row.readbacks == rows[key].readbacks + 1
    ensures AttemptsFit(attempts[row.claim := a], rows[key := row])
  {
  }

  lemma AskedWider(asked: seq<Asked>, attempts: map<string, Attempt>, claim: string, a: Attempt)
    requires AskedFit(asked, attempts) && claim !in attempts
    ensures AskedFit(asked, attempts[claim := a])
  {
  }

  lemma CommitsReserve(commits: seq<Commitment>, rows: map<Key, Row>, key: Key, row: Row)
    requires CommitsFit(commits, rows) && !row.state.Committed? && (key in rows ==> !rows[key].state.Committed?)
    ensures CommitsFit(commits, rows[key := row])
  {
    CommitsSame(commits, rows, rows[key := row]);
  }

  // ----- concluding -----

  lemma ConcludeStep(s: System, claim: string, patient: bool, bound: bool, t: Reading)
    requires Inv(s)
    ensures Inv(Next(s, Conclude(claim, patient, bound, t)))
  {
    hide Fit, CommitsFit, AttemptsFit, AskedFit, Commit, Forward, AttemptsMove, SameClaims, SameCommitted,
      ResultFault, IsDenied;
    if claim in s.attempts && s.attempts[claim].caller.Waiting? {
      var a := s.attempts[claim];
      var result := Read(a.worker, patient);
      var s' := Next(s, Conclude(claim, patient, bound, t));
      SameRows(s.registry.rows);
      CallerMoves(s, claim, s'.attempts[claim].caller);
      if result.None? || Commit(s.registry, a.request, claim, result.value, bound, t).Raised? {
        QuietStep(s, s');
      } else {
        var x := Commit(s.registry, a.request, claim, result.value, bound, t);
        CommitKeeps(s.policy, s.registry, a.request, claim, result.value, bound, t, x);
        CommitRow(s.policy, s.registry, a.request, claim, result.value, bound, t, x);
        CommitClaims(s.registry.rows, a.request.key, x.registry.rows[a.request.key]);
        AttemptsMoved(s.attempts, s'.attempts, s.registry.rows, x.registry.rows);
        AskedMoved(s.asked, s.attempts, s'.attempts);
        CommitsGrow(s.commits, s.registry.rows, a.request, claim, x.registry.rows[a.request.key]);
      }
    }
  }

  lemma CommitClaims(rows: map<Key, Row>, key: Key, row: Row)
    requires key in rows && row.fingerprint == rows[key].fingerprint && row.claim == rows[key].claim
    requires row.readbacks == rows[key].readbacks
    ensures SameClaims(rows, rows[key := row])
  {
  }

  lemma CommitsGrow(commits: seq<Commitment>, rows: map<Key, Row>, request: RequestKey, claim: string, row: Row)
    requires CommitsFit(commits, rows) && request.key in rows && !rows[request.key].state.Committed?
    requires row.state.Committed? && row.claim == claim && row.fingerprint == request.fingerprint && row.answer.Some?
    ensures CommitsFit(commits + [Commitment(claim, request, row.answer.value)], rows[request.key := row])
  {
    var commits', rows' := commits + [Commitment(claim, request, row.answer.value)], rows[request.key := row];
    forall k | k in rows' && rows'[k].state.Committed?
      ensures exists i :: 0 <= i < |commits'| && commits'[i].request.key == k
    {
      if k == request.key {
        assert commits'[|commits|].request.key == k;
      } else {
        var i :| 0 <= i < |commits| && commits[i].request.key == k;
        assert commits'[i].request.key == k;
      }
    }
  }

  // ----- every step, every run -----

  lemma NextKeeps(s: System, step: Step)
    requires Inv(s)
    ensures Inv(Next(s, step))
  {
    hide Inv, Reserve, ModelRegistry.Authorize, Commit, ModelRegistry.Deny, Uncertain;
    match step
    case Execute(ask, bound, claim, t) => ReserveStep(s, ask, bound, claim, t);
    case NeverStarts(claim) => if claim in s.attempts && s.attempts[claim].worker.Idle? { WorkerStep(s, claim, Never); }
    case Authorize(claim, bound, t, punctual) => AuthorizeStep(s, claim, bound, t, punctual);
    case Recheck(claim, bound, t) => RecheckStep(s, claim, bound, t);
    case Answered(claim, result) => if claim in s.attempts && s.attempts[claim].worker.Asking? {
      WorkerStep(s, claim, Ended(true, result));
    }
    case Threw(claim) => if claim in s.attempts { WorkerStep(s, claim, Ended(false, None)); }
    case Conclude(claim, patient, bound, t) => ConcludeStep(s, claim, patient, bound, t);
    case Release(claim) => ReleaseStep(s, claim);
    case Deny(target) => DenyStep(s, target);
    case Crash => CrashStep(s);
  }

  lemma {:induction false} RunKeeps(s: System, steps: seq<Step>)
    requires Inv(s)
    ensures Inv(Run(s, steps))
    decreases |steps|
  {
    hide Inv, Next;
    if steps != [] {
      NextKeeps(s, steps[0]);
      RunKeeps(Next(s, steps[0]), steps[1..]);
    }
  }

  lemma StartFits(policy: Policy, now: int)
    ensures Inv(Start(policy, now))
  {
    forall subject, day ensures OfDay(map[], subject, day) == {} {}
  }
}
