/**
 * Whole runs of the realtime store: any interleaving of callers, their bounded workers, recoverers and
 * crashes. A transaction is one step. A worker's provider call is a step of its own, made at most once and
 * possibly long after its caller gave up.
 */
module RealtimeRuns {
  import opened Base
  import opened RealtimeTables
  import opened RealtimeInvariant
  import opened RealtimeProgress
  import opened RealtimeTransactions

  /** A provider call, named by what paid for it: the attempt row, or one unit of a persistent counter. */
  datatype Token =
    | ActivateCall(session: string)
    | LookupCall(session: string, ordinal: int)
    | RevokeCall(session: string, remote: string, ordinal: int)

  datatype Worker = Idle | Invoked | Dead

  /** One bounded call: what its closure captured, how far its worker is and whether its caller still waits. */
  datatype Call = Call(attempt: string, earliest: int, worker: Worker, waiting: bool)

  /**
   * calls and trace cover every instance ever opened on the tables: trace lists the provider calls made.
   * source and acknowledged are history: the call that reported each claimed remote session, and the remote
   * sessions whose revoke returned None.
   */
  datatype System = System(tables: Tables, calls: map<Token, Call>, trace: seq<Token>,
                           source: map<string, Token>, acknowledged: set<string>)

  datatype Step =
    | Issue(digest: string, subject: string, id: string, ttl: int, capacity: int, r: Readings)
    | Activate(digest: string, subject: string, id: string, attempt: string, r: Readings)
    | Reconcile(id: string, r: Readings)
    | Invoke(token: Token, r: Readings)
    | Fail(token: Token)
    | Timeout(token: Token, now: int)
    | Result(token: Token, activation: Activation, r: Readings)
    | Malformed(token: Token, now: int)
    | Interrupted(id: string, generation: int, adapter: bool)
    | Deny(id: string)
    | Drain(job: JobId)
    | Drained(token: Token, isNone: bool, adapter: bool)
    | Crash

  function Start(lookupLimit: int, revokeLimit: int): System {
    System(EmptyTables(lookupLimit, revokeLimit), map[], [], map[], {})
  }

  predicate Awaited(sys: System, token: Token) {
    token in sys.calls && sys.calls[token].waiting
  }

  /** Whether the worker's last check before the provider passes. */
  predicate MayInvoke(t: Tables, token: Token, call: Call, r: Readings) {
    match token
    case ActivateCall(id) => MayDispatch(t, id, call.attempt, call.earliest, r) && !r.laterLate
    case LookupCall(_, _) => r.adapter && !r.laterLate
    case RevokeCall(id, remote, _) => r.adapter && !r.laterLate && JobBound(t, Known(remote), id, remote)
  }

  function Released(sys: System, token: Token): System
    requires token in sys.calls
  {
    sys.(calls := sys.calls[token := sys.calls[token].(waiting := false)])
  }

  /** A session-level call: its answer, its failure or its timeout ends with one transaction on the session. */
  predicate SessionCall(token: Token) {
    token.ActivateCall? || token.LookupCall?
  }

  /** One step; a step that is not enabled leaves the system as it is. */
  function Next(sys: System, step: Step): System {
    var t := sys.tables;
    match step
    case Issue(digest, subject, id, ttl, capacity, r) =>
      sys.(tables := IssueTicket(t, digest, subject, id, ttl, capacity, r).tables)
    case Activate(digest, subject, id, attempt, r) =>
      var x := BeginActivate(t, digest, subject, id, attempt, r);
      if x.Raised? then sys else
      sys.(tables := x.tables, calls := sys.calls[ActivateCall(id) := Call(attempt, r.now, Idle, true)])
    case Reconcile(id, r) =>
      var x := BeginReconcile(t, id, r);
      if x.Raised? || AnswersAtOnce(t, id) then sys.(tables := x.tables) else
      var earliest := if t.sessions[id].state.Revoked? || !Timestamp(r.now) then 0 else r.now;
      sys.(tables := x.tables,
           calls := sys.calls[LookupCall(id, t.lookups[id]) := Call(x.tables.attempts[id].id, earliest, Idle, true)])
    case Invoke(token, r) =>
      if token in sys.calls && sys.calls[token].worker.Idle? && MayInvoke(t, token, sys.calls[token], r)
      then sys.(calls := sys.calls[token := sys.calls[token].(worker := Invoked)], trace := sys.trace + [token])
      else sys
    case Fail(token) =>
      if token in sys.calls && sys.calls[token].worker.Idle?
      then sys.(calls := sys.calls[token := sys.calls[token].(worker := Dead)])
      else sys
    case Timeout(token, now) =>
      if !Awaited(sys, token) then sys
      else if SessionCall(token) then
        Released(sys, token).(tables := GiveUp(t, token.session, sys.calls[token].attempt, now).tables)
      else Released(sys, token)
    case Result(token, activation, r) =>
      if !Awaited(sys, token) || !sys.calls[token].worker.Invoked? || !SessionCall(token)
        || !ValidActivation(activation)
      then sys else
      var x := CommitActivation(t, token.session, sys.calls[token].attempt, activation, sys.calls[token].earliest, r);
      Released(sys, token).(tables := x.tables,
        source := if Claimed(x.tables, token.session, activation.remote)
          && !Claimed(t, token.session, activation.remote)
                  then sys.source[activation.remote := token] else sys.source)
    case Malformed(token, now) =>
      if !Awaited(sys, token) || !sys.calls[token].worker.Invoked? || !SessionCall(token) then sys else
      Released(sys, token).(tables := GiveUp(t, token.session, sys.calls[token].attempt, now).tables)
    case Interrupted(id, generation, adapter) =>
      sys.(tables := RealtimeTables.Interrupt(t, id, generation, adapter).tables)
    case Deny(id) => sys.(tables := RealtimeTables.Revoke(t, id).tables)
    case Drain(job) =>
      var x := BeginDrain(t, job);
      if !DrainDispatches(t, job) then sys.(tables := x.tables) else
      var token := RevokeCall(t.outbox[job].session, t.outbox[job].remote.value, t.revokes[job]);
      sys.(tables := x.tables, calls := sys.calls[token := Call("", 0, Idle, true)])
    case Drained(token, isNone, adapter) =>
      if !Awaited(sys, token) || !sys.calls[token].worker.Invoked? || !token.RevokeCall? then sys
      else if !isNone then Released(sys, token)
      else
        var x := FinishDrain(t, Known(token.remote), token.session, token.remote, adapter);
        Released(sys, token).(tables := x.tables, acknowledged := sys.acknowledged + {token.remote})
    case Crash =>
      sys.(calls := map k | k in sys.calls ::
             sys.calls[k].(waiting := false, worker := if sys.calls[k].worker.Idle? then Dead else sys.calls[k].worker))
  }

  function Run(sys: System, steps: seq<Step>): System
    decreases |steps|
  {
    if steps == [] then sys else Run(Next(sys, steps[0]), steps[1..])
  }

  // ----- the invariant of runs -----

  /** Every call was paid for before it could be made. */
  ghost predicate Paid(t: Tables, token: Token) {
    match token
    case ActivateCall(id) => id in t.attempts
    case LookupCall(id, k) => id in t.lookups && 0 <= k < t.lookups[id] && id in t.attempts
    case RevokeCall(id, remote, k) =>
      KnownJobOf(t.outbox, id, remote) && Known(remote) in t.revokes && 0 <= k < t.revokes[Known(remote)]
  }

  ghost predicate AllPaid(t: Tables, calls: map<Token, Call>) {
    forall k :: k in calls ==> Paid(t, k) && (SessionCall(k) ==> t.attempts[k.session].id == calls[k].attempt)
  }

  ghost predicate Distinct(trace: seq<Token>) {
    forall i, j :: 0 <= i < j < |trace| ==> trace[i] != trace[j]
  }

  /** The trace holds each call whose worker invoked the provider, once. */
  ghost predicate TraceFit(trace: seq<Token>, calls: map<Token, Call>) {
    && Distinct(trace)
    && (forall k :: k in trace <==> k in calls && calls[k].worker.Invoked?)
  }

  /** Every claim was reported by its own settled call of its own session. */
  ghost predicate Sourced(t: Tables, calls: map<Token, Call>, source: map<string, Token>) {
    && (forall s, r :: Claimed(t, s, r) ==>
          r in source && SessionCall(source[r]) && source[r].session == s)
    && (forall r :: r in source ==> source[r] in calls && calls[source[r]].worker.Invoked? && !calls[source[r]].waiting)
    && (forall r, q :: r in source && q in source && source[r] == source[q] ==> r == q)
  }

  /** A completed known job was acknowledged by the provider. */
  ghost predicate CompletionsFit(outbox: map<JobId, Job>, acknowledged: set<string>) {
    forall r :: Known(r) in outbox && !outbox[Known(r)].pending ==> r in acknowledged
  }

  ghost predicate SystemInv(sys: System) {
    && Inv(sys.tables)
    && AllPaid(sys.tables, sys.calls)
    && TraceFit(sys.trace, sys.calls)
    && Sourced(sys.tables, sys.calls, sys.source)
    && CompletionsFit(sys.tables.outbox, sys.acknowledged)
  }

  // ----- step by step -----

  /** Paid calls stay paid, claims keep their sources, completions their acknowledgements. */
  lemma MoveTables(sys: System, t': Tables, id: string)
    requires SystemInv(sys) && Sound(sys.tables, t', id, [])
    ensures SystemInv(sys.(tables := t'))
  {
    hide Inv, TraceFit, ClaimsOnly;
    PaidForward(sys.tables, t', sys.calls);
    SourcesForward(sys.tables, t', id, sys.calls, sys.source);
    CompletionsForward(sys.tables, t', id, sys.acknowledged);
    hide Forward, AllPaid, Sourced, CompletionsFit;
  }

  lemma PaidForward(t: Tables, t': Tables, calls: map<Token, Call>)
    requires AllPaid(t, calls) && Forward(t, t')
    ensures AllPaid(t', calls)
  {
    hide TicketsForward, SessionsForward;
    forall k | k in calls ensures Paid(t', k) && (SessionCall(k) ==> t'.attempts[k.session].id == calls[k].attempt) {
      assert Paid(t, k);
    }
  }

  lemma SourcesForward(t: Tables, t': Tables, id: string, calls: map<Token, Call>, source: map<string, Token>)
    requires Sourced(t, calls, source) && ClaimsOnly(t, t', id, [])
    ensures Sourced(t', calls, source)
  {
    hide Claimed, Completed;
  }

  lemma CompletionsForward(t: Tables, t': Tables, id: string, acknowledged: set<string>)
    requires CompletionsFit(t.outbox, acknowledged) && ClaimsOnly(t, t', id, [])
    ensures CompletionsFit(t'.outbox, acknowledged)
  {
    hide Claimed;
    forall r | Known(r) in t'.outbox && !t'.outbox[Known(r)].pending ensures r in acknowledged {
      assert Completed(t'.outbox, r);
    }
  }

  /** A newly reserved call starts idle and awaited. */
  lemma OpenCall(sys: System, token: Token, call: Call)
    requires SystemInv(sys) && token !in sys.calls && call.worker.Idle? && Paid(sys.tables, token)
    requires SessionCall(token) ==> sys.tables.attempts[token.session].id == call.attempt
    ensures SystemInv(sys.(calls := sys.calls[token := call]))
  {
    hide Inv, CompletionsFit, Claimed;
  }

  /** A call may lose its waiting caller, and an idle worker may die. */
  lemma CloseCalls(sys: System, calls: map<Token, Call>)
    requires SystemInv(sys) && calls.Keys == sys.calls.Keys
    requires forall k | k in calls ::
      && calls[k].attempt == sys.calls[k].attempt && (calls[k].waiting ==> sys.calls[k].waiting)
      && (calls[k].worker.Invoked? <==> sys.calls[k].worker.Invoked?)
    ensures SystemInv(sys.(calls := calls))
  {
    hide Inv, CompletionsFit, Claimed, Paid;
  }

  lemma InvokeOnce(sys: System, token: Token)
    requires SystemInv(sys) && token in sys.calls && sys.calls[token].worker.Idle?
    ensures SystemInv(sys.(calls := sys.calls[token := sys.calls[token].(worker := Invoked)],
                           trace := sys.trace + [token]))
  {
    hide Inv, CompletionsFit, Claimed, Paid;
    TraceGrows(sys.trace, sys.calls, token);
    hide TraceFit;
  }

  lemma TraceGrows(trace: seq<Token>, calls: map<Token, Call>, token: Token)
    requires TraceFit(trace, calls) && token in calls && calls[token].worker.Idle?
    ensures TraceFit(trace + [token], calls[token := calls[token].(worker := Invoked)])
  {
  }

  lemma ClaimedOnce(t: Tables, s1: string, s2: string, r: string)
    requires Inv(t) && Claimed(t, s1, r) && Claimed(t, s2, r)
    ensures s1 == s2
  {
    hide CustodyExcept, JobSessionsFit, RevokesFit, LookupsFit, AttemptsPaid, TicketsSingle, TicketsFit, AttemptsFit,
      SessionsFit, JobsFit;
  }

  /** A result claims at most the one remote session it reports, and is spent by that. */
  lemma ResultSourced(t: Tables, t': Tables, token: Token, calls: map<Token, Call>, source: map<string, Token>,
                      remote: string)
    requires Sourced(t, calls, source) && Inv(t') && token in calls && SessionCall(token)
    requires calls[token].waiting && calls[token].worker.Invoked? && ClaimsOnly(t, t', token.session, [remote])
    ensures Sourced(t', calls[token := calls[token].(waiting := false)],
                    if Claimed(t', token.session, remote) && !Claimed(t, token.session, remote)
                    then source[remote := token] else source)
  {
    hide Inv, Claimed, Completed;
    var calls' := calls[token := calls[token].(waiting := false)];
    if Claimed(t', token.session, remote) && !Claimed(t, token.session, remote) {
      forall s | Claimed(t', s, remote) ensures s == token.session { ClaimedOnce(t', s, token.session, remote); }
      assert forall r :: r in source ==> source[r] != token;
    }
  }

  lemma ResultKeeps(sys: System, token: Token, activation: Activation, r: Readings)
    requires SystemInv(sys)
    ensures SystemInv(Next(sys, Result(token, activation, r)))
  {
    hide SystemInv, Inv, Forward, ClaimsOnly, ValidActivation, CommitActivation, Claimed, Sourced;
    if Awaited(sys, token) && sys.calls[token].worker.Invoked? && SessionCall(token) && ValidActivation(activation) {
      ResultStep(sys, token, activation, r);
    }
  }

  lemma ResultStep(sys: System, token: Token, activation: Activation, r: Readings)
    requires SystemInv(sys) && Awaited(sys, token) && sys.calls[token].worker.Invoked?
    requires SessionCall(token) && ValidActivation(activation)
    ensures SystemInv(Next(sys, Result(token, activation, r)))
  {
    hide Inv, Forward, ClaimsOnly, ValidActivation, CommitActivation, Claimed, Sourced, CompletionsFit, TraceFit;
    var call := sys.calls[token];
    var x := CommitActivation(sys.tables, token.session, call.attempt, activation, call.earliest, r);
    assert Paid(sys.tables, token);
    CommitActivationKeeps(sys.tables, token.session, call.attempt, activation, call.earliest, r, x);
    PaidForward(sys.tables, x.tables, sys.calls);
    ResultSourced(sys.tables, x.tables, token, sys.calls, sys.source, activation.remote);
    CompletionsAfter(sys.tables, x.tables, token.session, activation.remote, sys.acknowledged);
    hide AllPaid;
    ReleaseKeeps(sys.tables, x.tables, sys, token);
  }

  lemma CompletionsAfter(t: Tables, t': Tables, id: string, remote: string, acknowledged: set<string>)
    requires CompletionsFit(t.outbox, acknowledged) && ClaimsOnly(t, t', id, [remote])
    ensures CompletionsFit(t'.outbox, acknowledged)
  {
    hide Claimed;
    forall r | Known(r) in t'.outbox && !t'.outbox[Known(r)].pending ensures r in acknowledged {
      assert Completed(t'.outbox, r);
    }
  }

  lemma ReleaseKeeps(t: Tables, t': Tables, sys: System, token: Token)
    requires token in sys.calls && AllPaid(t', sys.calls) && TraceFit(sys.trace, sys.calls)
    ensures AllPaid(t', Released(sys, token).calls) && TraceFit(sys.trace, Released(sys, token).calls)
  {
    hide Paid;
  }

  lemma ActivateKeeps(sys: System, digest: string, subject: string, id: string, attempt: string, r: Readings)
    requires SystemInv(sys)
    ensures SystemInv(Next(sys, Activate(digest, subject, id, attempt, r)))
  {
    hide Inv, Sound, BeginActivate, TraceFit, Sourced, CompletionsFit;
    var x := BeginActivate(sys.tables, digest, subject, id, attempt, r);
    BeginActivateKeeps(sys.tables, digest, subject, id, attempt, r, x);
    if x.Committed? {
      assert ActivateCall(id) !in sys.calls;
      MoveTables(sys, x.tables, id);
      hide SystemInv, AllPaid;
      OpenCall(sys.(tables := x.tables), ActivateCall(id), Call(attempt, r.now, Idle, true));
    }
  }

  lemma ReconcileKeeps(sys: System, id: string, r: Readings)
    requires SystemInv(sys)
    ensures SystemInv(Next(sys, Reconcile(id, r)))
  {
    hide Inv, Sound, BeginReconcile, TraceFit, Sourced, CompletionsFit;
    var x := BeginReconcile(sys.tables, id, r);
    BeginReconcileKeeps(sys.tables, id, r, x);
    MoveTables(sys, x.tables, id);
    if x.Committed? && !AnswersAtOnce(sys.tables, id) {
      var token := LookupCall(id, sys.tables.lookups[id]);
      assert token !in sys.calls;
      CountersNotNegative(sys.tables, id);
      hide SystemInv, AllPaid;
      CommittedSession(sys.tables, id, r);
      var earliest := if sys.tables.sessions[id].state.Revoked? || !Timestamp(r.now) then 0 else r.now;
      OpenCall(sys.(tables := x.tables), token, Call(x.tables.attempts[id].id, earliest, Idle, true));
    }
  }

  lemma CommittedSession(t: Tables, id: string, r: Readings)
    requires BeginReconcile(t, id, r).Committed?
    ensures id in t.sessions
  {
    hide ExpirePending;
  }

  lemma CountersNotNegative(t: Tables, id: string)
    requires Inv(t) && id in t.lookups
    ensures 0 <= t.lookups[id]
  {
    hide CustodyExcept, ExclusiveOwners, JobSessionsFit, RevokesFit, AttemptsPaid, TicketsSingle, TicketsFit,
      AttemptsFit, SessionsFit, JobsFit;
  }

  lemma DrainKeeps(sys: System, job: JobId)
    requires SystemInv(sys)
    ensures SystemInv(Next(sys, Drain(job)))
  {
    hide Inv, Sound, BeginDrain, TraceFit, Sourced, CompletionsFit, OwnedElsewhere;
    var t := sys.tables;
    var x := BeginDrain(t, job);
    BeginDrainKeeps(t, job, x);
    MoveTables(sys, x.tables, "");
    if DrainDispatches(t, job) {
      var row := t.outbox[job];
      RevokeFit(t, job);
      var token := RevokeCall(row.session, row.remote.value, t.revokes[job]);
      assert token !in sys.calls;
      hide SystemInv, AllPaid;
      OpenCall(sys.(tables := x.tables), token, Call("", 0, Idle, true));
    }
  }

  lemma DrainedKeeps(sys: System, token: Token, isNone: bool, adapter: bool)
    requires SystemInv(sys)
    ensures SystemInv(Next(sys, Drained(token, isNone, adapter)))
  {
    hide Inv, Forward, FinishDrain, Claimed, Completed, TraceFit;
    if Awaited(sys, token) && sys.calls[token].worker.Invoked? && token.RevokeCall? {
      CloseCalls(sys, Released(sys, token).calls);
      if isNone {
        var x := FinishDrain(sys.tables, Known(token.remote), token.session, token.remote, adapter);
        FinishDrainKeeps(sys.tables, Known(token.remote), token.session, token.remote, adapter, x);
        PaidForward(sys.tables, x.tables, sys.calls);
        ReleaseKeeps(sys.tables, x.tables, sys, token);
        AcknowledgedFits(sys.tables, x.tables, token.remote, sys.acknowledged);
        hide AllPaid, CompletionsFit;
      }
    }
  }

  lemma AcknowledgedFits(t: Tables, t': Tables, remote: string, acknowledged: set<string>)
    requires CompletionsFit(t.outbox, acknowledged)
    requires forall r :: Completed(t'.outbox, r) ==> Completed(t.outbox, r) || r == remote
    ensures CompletionsFit(t'.outbox, acknowledged + {remote})
  {
    forall r | Known(r) in t'.outbox && !t'.outbox[Known(r)].pending ensures r in acknowledged + {remote} {
      assert Completed(t'.outbox, r);
    }
  }

  lemma GiveUpStep(sys: System, token: Token, now: int, x: Tx)
    requires SystemInv(sys) && Awaited(sys, token) && SessionCall(token)
    requires x == GiveUp(sys.tables, token.session, sys.calls[token].attempt, now)
    ensures SystemInv(Released(sys, token).(tables := x.tables))
  {
    hide SystemInv, GiveUp, Sound;
    SystemHasInv(sys);
    GiveUpKeeps(sys.tables, token.session, sys.calls[token].attempt, now, x);
    MoveTables(sys, x.tables, token.session);
    CloseCalls(sys.(tables := x.tables), Released(sys, token).calls);
  }

  lemma SystemHasInv(sys: System)
    requires SystemInv(sys)
    ensures Inv(sys.tables)
  {
    hide Inv, AllPaid, TraceFit, Sourced, CompletionsFit;
  }

  lemma IssueKeeps(sys: System, digest: string, subject: string, id: string, ttl: int, capacity: int, r: Readings)
    requires SystemInv(sys)
    ensures SystemInv(Next(sys, Issue(digest, subject, id, ttl, capacity, r)))
  {
    hide SystemInv, Sound, Inv, IssueTicket;
    SystemHasInv(sys);
    var x := IssueTicket(sys.tables, digest, subject, id, ttl, capacity, r);
    IssueTicketKeeps(sys.tables, digest, subject, id, ttl, capacity, r, x);
    MoveTables(sys, x.tables, id);
  }

  lemma InterruptedKeeps(sys: System, id: string, generation: int, adapter: bool)
    requires SystemInv(sys)
    ensures SystemInv(Next(sys, Interrupted(id, generation, adapter)))
  {
    hide SystemInv, Sound, Inv, Interrupt;
    SystemHasInv(sys);
    var x := Interrupt(sys.tables, id, generation, adapter);
    InterruptKeeps(sys.tables, id, generation, adapter, x);
    MoveTables(sys, x.tables, id);
  }

  lemma DenyKeeps(sys: System, id: string)
    requires SystemInv(sys)
    ensures SystemInv(Next(sys, Deny(id)))
  {
    hide SystemInv, Sound, Inv, Revoke;
    SystemHasInv(sys);
    RevokeKeeps(sys.tables, id, Revoke(sys.tables, id));
    MoveTables(sys, Revoke(sys.tables, id).tables, id);
  }

  lemma WorkerKeeps(sys: System, step: Step)
    requires SystemInv(sys) && (step.Invoke? || step.Fail? || step.Crash?)
    ensures SystemInv(Next(sys, step))
  {
    hide SystemInv, MayInvoke;
    match step
    case Invoke(token, r) =>
      if token in sys.calls && sys.calls[token].worker.Idle? { InvokeOnce(sys, token); }
    case Fail(token) =>
      if token in sys.calls && sys.calls[token].worker.Idle? {
        CloseCalls(sys, sys.calls[token := sys.calls[token].(worker := Dead)]);
      }
    case Crash => CloseCalls(sys, Next(sys, Crash).calls);
  }

  lemma CallerKeeps(sys: System, step: Step)
    requires SystemInv(sys) && (step.Timeout? || step.Malformed?)
    ensures SystemInv(Next(sys, step))
  {
    hide SystemInv, GiveUp;
    match step
    case Timeout(token, now) =>
      if Awaited(sys, token) {
        if SessionCall(token) {
          GiveUpStep(sys, token, now, GiveUp(sys.tables, token.session, sys.calls[token].attempt, now));
        } else {
          CloseCalls(sys, Released(sys, token).calls);
        }
      }
    case Malformed(token, now) =>
      if Awaited(sys, token) && SessionCall(token) {
        GiveUpStep(sys, token, now, GiveUp(sys.tables, token.session, sys.calls[token].attempt, now));
      }
  }

  lemma NextKeeps(sys: System, step: Step)
    requires SystemInv(sys)
    ensures SystemInv(Next(sys, step))
  {
    hide SystemInv, Next;
    match step
    case Issue(digest, subject, id, ttl, capacity, r) => IssueKeeps(sys, digest, subject, id, ttl, capacity, r);
    case Activate(digest, subject, id, attempt, r) => ActivateKeeps(sys, digest, subject, id, attempt, r);
    case Reconcile(id, r) => ReconcileKeeps(sys, id, r);
    case Invoke(_, _) => WorkerKeeps(sys, step);
    case Fail(_) => WorkerKeeps(sys, step);
    case Timeout(_, _) => CallerKeeps(sys, step);
    case Result(token, activation, r) => ResultKeeps(sys, token, activation, r);
    case Malformed(_, _) => CallerKeeps(sys, step);
    case Interrupted(id, generation, adapter) => InterruptedKeeps(sys, id, generation, adapter);
    case Deny(id) => DenyKeeps(sys, id);
    case Drain(job) => DrainKeeps(sys, job);
    case Drained(token, isNone, adapter) => DrainedKeeps(sys, token, isNone, adapter);
    case Crash => WorkerKeeps(sys, step);
  }
}
