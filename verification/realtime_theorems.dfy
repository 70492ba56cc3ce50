/** What holds in every reachable state of the realtime store. */
module RealtimeTheorems {
  import opened Base
  import opened RealtimeTables
  import opened RealtimeInvariant
  import opened RealtimeProgress
  import opened RealtimeTransactions
  import opened RealtimeRuns

  lemma StartFits(lookupLimit: int, revokeLimit: int)
    requires 1 <= lookupLimit <= 32 && 1 <= revokeLimit <= 32
    ensures SystemInv(Start(lookupLimit, revokeLimit))
  {
  }

  lemma {:induction false} RunKeeps(sys: System, steps: seq<Step>)
    requires SystemInv(sys)
    ensures SystemInv(Run(sys, steps))
    decreases |steps|
  {
    hide SystemInv, Next;
    if steps != [] {
      NextKeeps(sys, steps[0]);
      RunKeeps(Next(sys, steps[0]), steps[1..]);
    }
  }

  /** The states some run of a fresh store reaches. */
  ghost predicate Reachable(sys: System) {
    exists lookups, revokes, steps ::
      1 <= lookups <= 32 && 1 <= revokes <= 32 && sys == Run(Start(lookups, revokes), steps)
  }

  lemma ReachableFits(sys: System)
    requires Reachable(sys)
    ensures SystemInv(sys)
  {
    hide SystemInv, Run;
    var lookups, revokes, steps :| 1 <= lookups <= 32 && 1 <= revokes <= 32
      && sys == Run(Start(lookups, revokes), steps);
    StartFits(lookups, revokes);
    RunKeeps(Start(lookups, revokes), steps);
  }

  // ----- exclusive ownership -----

  /**
   * realtime_provider_binding.validate_legacy_ownership: no remote id under two sessions, every job keyed by its row.
   */
  ghost predicate LegacyOwnershipValid(t: Tables) {
    && (forall s1, s2, r :: Claimed(t, s1, r) && Claimed(t, s2, r) ==> s1 == s2)
    && (forall j :: j in t.outbox ==> t.outbox[j].session in t.sessions)
    && (forall s :: s in t.sessions && t.sessions[s].remote.Some? ==>
          Identifier(s) && Identifier(t.sessions[s].remote.value)
          && t.sessions[s].receipt.Some? && Identifier(t.sessions[s].receipt.value))
    && (forall j :: j in t.outbox ==>
          Identifier(t.outbox[j].session) && (t.outbox[j].remote.Some? ==> Identifier(t.outbox[j].remote.value))
          && j.Text() == if t.outbox[j].remote.Some? then "provider:" + t.outbox[j].remote.value
                         else "lookup:" + t.outbox[j].session)
  }

  /** The text keys of the outbox never collide: two jobs have one key only if they are the same job. */
  lemma JobTextInjective(a: JobId, b: JobId)
    ensures a.Text() == b.Text() ==> a == b
    ensures a.Known? <==> "provider:" <= a.Text()
  {
    var p, l := "provider:", "lookup:";
    if a.Known? { assert a.Text()[..9] == p && a.Text()[9..] == a.remote && a.Text()[0] == 'p'; }
    else { assert a.Text()[..7] == l && a.Text()[7..] == a.session && a.Text()[0] == 'l'; }
    if b.Known? { assert b.Text()[..9] == p && b.Text()[9..] == b.remote && b.Text()[0] == 'p'; }
    else { assert b.Text()[..7] == l && b.Text()[7..] == b.session && b.Text()[0] == 'l'; }
  }

  lemma InvOwnership(t: Tables)
    requires Inv(t)
    ensures LegacyOwnershipValid(t)
  {
    hide CustodyExcept, RevokesFit, LookupsFit, AttemptsPaid, TicketsSingle, TicketsFit, AttemptsFit, Identifier,
      ExclusiveOwners;
    forall s1, s2, r | Claimed(t, s1, r) && Claimed(t, s2, r) ensures s1 == s2 { ClaimedOnce(t, s1, s2, r); }
    hide Claimed;
  }

  /** In every reachable state a remote session has one local owner, and reopening the store finds its records sound. */
  lemma ExclusiveRemoteOwnership(sys: System)
    requires Reachable(sys)
    ensures LegacyOwnershipValid(sys.tables) && BudgetsValid(sys.tables)
  {
    hide Reachable, LegacyOwnershipValid, BudgetsValid, Inv;
    ReachableFits(sys);
    InvOwnership(sys.tables);
    InvBudgets(sys.tables);
  }

  lemma InvBudgets(t: Tables)
    requires Inv(t)
    ensures BudgetsValid(t)
  {
    hide CustodyExcept, AttemptsPaid, TicketsSingle, TicketsFit, AttemptsFit, Identifier, ExclusiveOwners,
      SessionsFit, JobSessionsFit;
  }

  /**
   * Reopening a store succeeds exactly with a sound configuration that is the persisted one: its counters never stand
   * in the way.
   */
  lemma ReopeningIff(sys: System, scope: string, o: Opening)
    requires Reachable(sys)
    ensures ReopenFault(sys.tables, scope, o).None? <==>
      && 1 <= o.ttl <= 300 && 1 <= o.records <= 1000000 && 1 <= o.workers <= 16
      && o.lookups == sys.tables.lookupLimit && o.revokes == sys.tables.revokeLimit
      && Label(o.binding, 128) && (o.declared == None || o.declared == Some(o.binding)) && scope == o.binding
    ensures ReopenFault(sys.tables, scope, o) != Some(CountersInvalid)
  {
    hide Reachable, BudgetsValid, SystemInv;
    ReachableFits(sys);
    ExclusiveRemoteOwnership(sys);
    SystemHasInv(sys);
    LimitsPositive(sys.tables);
    hide LegacyOwnershipValid, Inv, Label;
  }

  /** The binding guard of _queue_revoke cannot fire, whatever session and remote id it is given. */
  lemma CleanupBindingAlwaysHolds(sys: System, id: string, remote: Option<string>)
    requires Reachable(sys)
    ensures QueueRevoke(sys.tables, id, remote).Queued?
  {
    hide Reachable, QueueRevoke;
    ReachableFits(sys);
    InvQueues(sys.tables, id, remote);
  }

  lemma InvQueues(t: Tables, id: string, remote: Option<string>)
    requires Inv(t)
    ensures QueueRevoke(t, id, remote).Queued?
  {
    hide QueueRevoke, CustodyExcept, LookupsFit, AttemptsPaid, TicketsSingle, TicketsFit, AttemptsFit, SessionsFit,
      JobSessionsFit, ExclusiveOwners, JobsFit, RevokesFit;
    QueueRevokeNeverFaults(t, id, remote);
  }

  // ----- cleanup custody -----

  /**
   * Work owed is never lost. A revoked session that reached the provider has a job: a known one or a pending
   * lookup. Its stored remote session has its own job. Jobs exist only for revoked sessions, and a known job is
   * completed only once revoke for exactly that remote id returned None.
   */
  lemma CleanupCustody(sys: System, s: string)
    requires Reachable(sys) && s in sys.tables.sessions
    ensures var t := sys.tables;
      && CustodyOf(s, t.sessions[s], t.attempts, t.outbox)
      && (forall j :: j in t.outbox && t.outbox[j].session == s ==> t.sessions[s].state.Revoked?)
      && (forall r :: Completed(t.outbox, r) ==> r in sys.acknowledged)
  {
    hide Reachable, CustodyOf;
    ReachableFits(sys);
    hide AllPaid, TraceFit, Sourced, LookupsFit, AttemptsPaid, TicketsSingle, TicketsFit, AttemptsFit, SessionsFit,
      ExclusiveOwners, JobsFit, RevokesFit;
  }

  // ----- bounded remote traffic -----

  function CountFor(trace: seq<Token>, id: string): nat {
    if trace == [] then 0
    else CountFor(trace[..|trace| - 1], id) + if trace[|trace| - 1].session == id then 1 else 0
  }

  lemma {:induction false} CountWithin(trace: seq<Token>, id: string, budget: set<Token>)
    requires Distinct(trace) && forall k :: k in trace && k.session == id ==> k in budget
    ensures CountFor(trace, id) <= |budget|
    decreases |trace|
  {
    if trace != [] {
      var last := trace[|trace| - 1];
      var rest := trace[..|trace| - 1];
      assert forall k :: k in rest ==> k in trace && k != last;
      if last.session == id {
        CountWithin(rest, id, budget - {last});
      } else {
        CountWithin(rest, id, budget);
      }
    }
  }

  function LookupTokens(id: string, limit: nat): set<Token> {
    set k | 0 <= k < limit :: LookupCall(id, k)
  }

  lemma {:induction false} LookupTokensSize(id: string, limit: nat)
    ensures |LookupTokens(id, limit)| == limit
  {
    if limit > 0 {
      LookupTokensSize(id, limit - 1);
      assert LookupTokens(id, limit) == LookupTokens(id, limit - 1) + {LookupCall(id, limit - 1)};
    }
  }

  function RevokeTokens(id: string, remote: string, limit: nat): set<Token> {
    set k | 0 <= k < limit :: RevokeCall(id, remote, k)
  }

  lemma {:induction false} RevokeTokensSize(id: string, remote: string, limit: nat)
    ensures |RevokeTokens(id, remote, limit)| == limit
  {
    if limit > 0 {
      RevokeTokensSize(id, remote, limit - 1);
      assert RevokeTokens(id, remote, limit)
        == RevokeTokens(id, remote, limit - 1) + {RevokeCall(id, remote, limit - 1)};
    }
  }

  ghost function AllRevokeTokens(id: string, remotes: set<string>, limit: nat): set<Token> {
    set r, k | r in remotes && 0 <= k < limit :: RevokeCall(id, r, k)
  }

  lemma TokensOfOneMore(id: string, remotes: set<string>, r: string, limit: nat)
    requires r in remotes
    ensures AllRevokeTokens(id, remotes, limit)
      == AllRevokeTokens(id, remotes - {r}, limit) + RevokeTokens(id, r, limit)
    ensures AllRevokeTokens(id, remotes - {r}, limit) !! RevokeTokens(id, r, limit)
  {
  }

  lemma {:induction false} AllRevokeTokensSize(id: string, remotes: set<string>, limit: nat)
    ensures |AllRevokeTokens(id, remotes, limit)| == |remotes| * limit
  {
    hide AllRevokeTokens, RevokeTokens;
    if remotes == {} {
      NoTokens(id, limit);
    } else {
      var r :| r in remotes;
      AllRevokeTokensSize(id, remotes - {r}, limit);
      RevokeTokensSize(id, r, limit);
      TokensOfOneMore(id, remotes, r, limit);
      Distribute(|remotes| - 1, limit);
    }
  }

  lemma NoTokens(id: string, limit: nat)
    ensures AllRevokeTokens(id, {}, limit) == {}
  {
  }

  lemma Distribute(n: int, limit: int)
    ensures (n + 1) * limit == n * limit + limit
  {
  }

  lemma Scale(a: nat, b: nat, limit: nat)
    requires a <= b
    ensures a * limit <= b * limit
  {
  }

  /** The remote sessions a session answers for, taken from the calls that reported them. */
  ghost function ClaimsOf(sys: System, id: string): set<string> {
    set r | r in sys.source && Claimed(sys.tables, id, r)
  }

  /** Each claim was reported by its own activate or lookup call, so there are at most 1 + L of them. */
  lemma ClaimsBounded(sys: System, id: string)
    requires SystemInv(sys)
    ensures |ClaimsOf(sys, id)| <= 1 + sys.tables.lookupLimit
    ensures forall r :: Claimed(sys.tables, id, r) ==> r in ClaimsOf(sys, id)
  {
    hide SystemInv, Inv, Claimed, LookupTokens;
    SystemHasInv(sys);
    LimitsPositive(sys.tables);
    var tokens := {ActivateCall(id)} + LookupTokens(id, sys.tables.lookupLimit);
    LookupTokensSize(id, sys.tables.lookupLimit);
    forall r | Claimed(sys.tables, id, r)
      ensures r in sys.source && sys.source[r] in tokens
    {
      SessionTokens(sys, id, r);
    }
    SourceInjective(sys);
    var origin := map r | r in ClaimsOf(sys, id) :: sys.source[r];
    assert origin.Keys == ClaimsOf(sys, id);
    InjectiveSize(origin, tokens);
  }

  lemma SourceInjective(sys: System)
    requires SystemInv(sys)
    ensures forall r, q :: r in sys.source && q in sys.source && sys.source[r] == sys.source[q] ==> r == q
  {
    hide Inv, AllPaid, TraceFit, CompletionsFit, Claimed;
  }

  lemma SessionTokens(sys: System, id: string, r: string)
    requires SystemInv(sys) && Claimed(sys.tables, id, r)
    ensures r in sys.source && sys.source[r] in {ActivateCall(id)} + LookupTokens(id, sys.tables.lookupLimit)
  {
    hide TraceFit, CompletionsFit, Claimed, CustodyExcept, AttemptsPaid, TicketsSingle, TicketsFit, AttemptsFit,
      SessionsFit, JobSessionsFit, ExclusiveOwners, JobsFit, RevokesFit;
    assert Paid(sys.tables, sys.source[r]);
  }

  lemma CallsWithinBudget(sys: System, id: string, k: Token)
    requires SystemInv(sys) && k in sys.calls && k.session == id
    ensures k in {ActivateCall(id)} + LookupTokens(id, sys.tables.lookupLimit)
               + AllRevokeTokens(id, ClaimsOf(sys, id), sys.tables.revokeLimit)
  {
    hide TraceFit, CompletionsFit, CustodyExcept, AttemptsPaid, TicketsSingle, TicketsFit, AttemptsFit, SessionsFit,
      JobSessionsFit, ExclusiveOwners, JobsFit;
    assert Paid(sys.tables, k);
    if k.RevokeCall? { assert Claimed(sys.tables, id, k.remote); }
    hide Claimed;
  }

  /**
   * Over any run, with any crashes, timeouts and concurrent recoverers, the provider calls made for one local
   * session are at most one activation, L lookups and R revokes for each of at most 1 + L remote sessions.
   */
  lemma RemoteTrafficBound(sys: System, id: string)
    requires Reachable(sys)
    ensures var l, r := sys.tables.lookupLimit, sys.tables.revokeLimit;
      CountFor(sys.trace, id) <= 1 + l + (1 + l) * r
  {
    hide Reachable;
    ReachableFits(sys);
    TrafficWithin(sys, id);
  }

  lemma TrafficWithin(sys: System, id: string)
    requires SystemInv(sys)
    ensures var l, r := sys.tables.lookupLimit, sys.tables.revokeLimit;
      CountFor(sys.trace, id) <= 1 + l + (1 + l) * r
  {
    hide Core, AllPaid, Sourced, CompletionsFit, CustodyExcept, LookupTokens, AllRevokeTokens, ClaimsOf;
    LimitsPositive(sys.tables);
    var l, r := sys.tables.lookupLimit, sys.tables.revokeLimit;
    var claims := ClaimsOf(sys, id);
    ClaimsBounded(sys, id);
    LookupTokensSize(id, l);
    AllRevokeTokensSize(id, claims, r);
    var budget := {ActivateCall(id)} + LookupTokens(id, l) + AllRevokeTokens(id, claims, r);
    forall k | k in sys.trace && k.session == id ensures k in budget { CallsWithinBudget(sys, id, k); }
    CountWithin(sys.trace, id, budget);
    Scale(|claims|, 1 + l, r);
  }

  lemma LimitsPositive(t: Tables)
    requires Inv(t)
    ensures 1 <= t.lookupLimit <= 32 && 1 <= t.revokeLimit <= 32
  {
    hide CustodyExcept, SessionsFit, LookupsFit, JobsFit, RevokesFit, JobSessionsFit, ExclusiveOwners, TicketsFit,
      TicketsSingle, AttemptsFit, AttemptsPaid;
  }

  // ----- one-shot activation -----

  lemma NextForward(sys: System, step: Step)
    requires SystemInv(sys)
    ensures Forward(sys.tables, Next(sys, step).tables)
  {
    hide SystemInv, Inv, Forward, ClaimsOnly, IssueTicket, BeginActivate, BeginReconcile, GiveUp, CommitActivation,
      Interrupt, Revoke, BeginDrain, FinishDrain, MayInvoke, DrainDispatches, AnswersAtOnce, Claimed, ValidActivation;
    var t := sys.tables;
    SystemHasInv(sys);
    RestingForward(t);
    match step
    case Issue(digest, subject, id, ttl, capacity, r) =>
      IssueTicketKeeps(t, digest, subject, id, ttl, capacity, r, IssueTicket(t, digest, subject, id, ttl, capacity, r));
    case Activate(digest, subject, id, attempt, r) =>
      BeginActivateKeeps(t, digest, subject, id, attempt, r, BeginActivate(t, digest, subject, id, attempt, r));
    case Reconcile(id, r) => BeginReconcileKeeps(t, id, r, BeginReconcile(t, id, r));
    case Timeout(token, now) =>
      if Awaited(sys, token) && SessionCall(token) { GiveUpForward(sys, token, now); }
    case Malformed(token, now) =>
      if Awaited(sys, token) && SessionCall(token) { GiveUpForward(sys, token, now); }
    case Result(token, activation, r) =>
      if Awaited(sys, token) && SessionCall(token) && ValidActivation(activation) {
        ResultForward(sys, token, activation, r);
      }
    case Interrupted(id, generation, adapter) =>
      InterruptKeeps(t, id, generation, adapter, RealtimeTables.Interrupt(t, id, generation, adapter));
    case Deny(id) => RevokeKeeps(t, id, RealtimeTables.Revoke(t, id));
    case Drain(job) => BeginDrainKeeps(t, job, BeginDrain(t, job));
    case Drained(token, isNone, adapter) =>
      if token.RevokeCall? {
        FinishDrainKeeps(t, Known(token.remote), token.session, token.remote, adapter,
                         FinishDrain(t, Known(token.remote), token.session, token.remote, adapter));
      }
    case Invoke(_, _) =>
    case Fail(_) =>
    case Crash =>
  }

  lemma GiveUpForward(sys: System, token: Token, now: int)
    requires SystemInv(sys) && Awaited(sys, token) && SessionCall(token)
    ensures Forward(sys.tables, GiveUp(sys.tables, token.session, sys.calls[token].attempt, now).tables)
  {
    hide SystemInv, Inv, Forward, ClaimsOnly, GiveUp;
    SystemHasInv(sys);
    var attempt := sys.calls[token].attempt;
    GiveUpKeeps(sys.tables, token.session, attempt, now, GiveUp(sys.tables, token.session, attempt, now));
  }

  lemma ResultForward(sys: System, token: Token, a: Activation, r: Readings)
    requires SystemInv(sys) && Awaited(sys, token) && SessionCall(token) && ValidActivation(a)
    ensures var x :=
      CommitActivation(sys.tables, token.session, sys.calls[token].attempt, a, sys.calls[token].earliest, r);
      Forward(sys.tables, x.tables) && (x.Raised? ==> !Corruption(x.code))
  {
    hide Inv, Forward, ClaimsOnly, CommitActivation, TraceFit, Sourced, CompletionsFit;
    var call := sys.calls[token];
    assert Paid(sys.tables, token);
    CommitActivationKeeps(sys.tables, token.session, call.attempt, a, call.earliest, r,
                          CommitActivation(sys.tables, token.session, call.attempt, a, call.earliest, r));
  }

  /**
   * Over any run committed states only move forward, generations never decrease, attempts, claims and cleanup
   * work are kept, spent budget is never given back and a completed known job is never reopened.
   */
  lemma {:induction false} RunForward(sys: System, steps: seq<Step>)
    requires SystemInv(sys)
    ensures Forward(sys.tables, Run(sys, steps).tables)
    decreases |steps|
  {
    hide SystemInv, Next, Forward;
    if steps == [] {
      RestingForward(sys.tables);
    } else {
      var next := Next(sys, steps[0]);
      NextKeeps(sys, steps[0]);
      NextForward(sys, steps[0]);
      RunForward(next, steps[1..]);
      ForwardTransitive(sys.tables, next.tables, Run(sys, steps).tables);
    }
  }

  /** No session is dispatched to the provider twice; in fact no paid call is made twice. */
  lemma DispatchedAtMostOnce(sys: System)
    requires Reachable(sys)
    ensures forall i, j :: 0 <= i < j < |sys.trace| ==> sys.trace[i] != sys.trace[j]
  {
    hide Reachable;
    ReachableFits(sys);
    hide Inv, AllPaid, Sourced, CompletionsFit;
  }

  /**
   * Admission records agree: an attempt stands for exactly one consumed ticket, and tickets are open only on new
   * sessions.
   */
  lemma AttemptsAndTickets(sys: System, s: string)
    requires Reachable(sys)
    ensures var t := sys.tables;
      && (s in t.attempts <==> exists d :: d in t.tickets && t.tickets[d].session == s && t.tickets[d].state.Consumed?)
      && (s in t.attempts ==> AttemptExpiry(t, s).Some?)
      && (forall d, e | d in t.tickets && e in t.tickets && t.tickets[d].session == t.tickets[e].session == s ::
            t.tickets[d].state == t.tickets[e].state && t.tickets[d].state in {Issued, Consumed} ==> d == e)
      && (forall d :: d in t.tickets && t.tickets[d].state.Issued? ==>
            t.tickets[d].session in t.sessions && t.sessions[t.tickets[d].session].state.New?)
  {
    hide Reachable, SystemInv;
    ReachableFits(sys);
    SystemHasInv(sys);
    TicketFacts(sys.tables, s);
    if s in sys.tables.attempts { AttemptHasExpiry(sys.tables, s); }
    hide Inv;
  }

  lemma TicketFacts(t: Tables, s: string)
    requires Inv(t)
    ensures s in t.attempts <==> exists d :: d in t.tickets && t.tickets[d].session == s && t.tickets[d].state.Consumed?
    ensures forall d, e | d in t.tickets && e in t.tickets && t.tickets[d].session == t.tickets[e].session == s ::
              t.tickets[d].state == t.tickets[e].state && t.tickets[d].state in {Issued, Consumed} ==> d == e
    ensures forall d :: d in t.tickets && t.tickets[d].state.Issued? ==>
              t.tickets[d].session in t.sessions && t.sessions[t.tickets[d].session].state.New?
  {
    hide CustodyExcept, SessionsFit, LookupsFit, JobsFit, RevokesFit, JobSessionsFit, ExclusiveOwners, AttemptsFit;
    if s in t.attempts {
      var d :| ConsumedFor(t.tickets, t.sessions, d, s);
      assert d in t.tickets;
    }
  }

  /** No transaction of any run reports records that disagree: the integrity errors of the store are unreachable. */
  lemma IntegrityErrorsUnreachable(sys: System, id: string, digest: string, subject: string, attempt: string, ttl: int,
                                   capacity: int, job: JobId, now: int, r: Readings)
    requires Reachable(sys)
    ensures var t := sys.tables;
      && Honest(IssueTicket(t, digest, subject, id, ttl, capacity, r))
      && Honest(BeginActivate(t, digest, subject, id, attempt, r))
      && Honest(BeginReconcile(t, id, r))
      && Honest(GiveUp(t, id, attempt, now))
      && Honest(RealtimeTables.Revoke(t, id))
      && Honest(BeginDrain(t, job))
  {
    hide Reachable, SystemInv, Inv, Sound, IssueTicket, BeginActivate, BeginReconcile, GiveUp, Revoke, BeginDrain;
    ReachableFits(sys);
    SystemHasInv(sys);
    var t := sys.tables;
    IssueTicketKeeps(t, digest, subject, id, ttl, capacity, r, IssueTicket(t, digest, subject, id, ttl, capacity, r));
    BeginActivateKeeps(t, digest, subject, id, attempt, r, BeginActivate(t, digest, subject, id, attempt, r));
    BeginReconcileKeeps(t, id, r, BeginReconcile(t, id, r));
    GiveUpKeeps(t, id, attempt, now, GiveUp(t, id, attempt, now));
    RevokeKeeps(t, id, RealtimeTables.Revoke(t, id));
    BeginDrainKeeps(t, job, BeginDrain(t, job));
  }

  ghost predicate Honest(x: Tx) {
    x.Raised? ==> !Corruption(x.code)
  }

  /** The same for the commit of a result its caller still awaits, and for completing an acknowledged cleanup. */
  lemma ResultsNeverCorrupt(sys: System, token: Token, a: Activation, r: Readings, adapter: bool)
    requires Reachable(sys) && Awaited(sys, token)
    ensures SessionCall(token) && ValidActivation(a) ==>
              Honest(CommitActivation(sys.tables, token.session, sys.calls[token].attempt, a, sys.calls[token].earliest,
                                      r))
    ensures token.RevokeCall? ==>
              Honest(FinishDrain(sys.tables, Known(token.remote), token.session, token.remote, adapter))
  {
    hide Reachable, Inv, CommitActivation, TraceFit, Sourced, CompletionsFit, ValidActivation;
    ReachableFits(sys);
    if token.RevokeCall? {
      assert Paid(sys.tables, token);
      JobHasRemote(sys.tables, token.remote);
    } else if ValidActivation(a) {
      ResultForward(sys, token, a, r);
    }
  }

  lemma JobHasRemote(t: Tables, r: string)
    requires Inv(t) && Known(r) in t.outbox
    ensures t.outbox[Known(r)].remote == Some(r)
  {
    hide CustodyExcept, SessionsFit, LookupsFit, RevokesFit, JobSessionsFit, ExclusiveOwners, AttemptsFit, TicketsFit,
      TicketsSingle, AttemptsPaid;
  }

  // ----- a revocation always wins -----

  lemma RevokedNeverDispatched(sys: System, step: Step, id: string)
    requires id in sys.tables.sessions && sys.tables.sessions[id].state.Revoked?
    requires ActivateCall(id) in Next(sys, step).trace
    ensures ActivateCall(id) in sys.trace
  {
    hide IssueTicket, BeginActivate, BeginReconcile, GiveUp, CommitActivation, Interrupt, Revoke, BeginDrain,
      FinishDrain, DrainDispatches, AnswersAtOnce, Claimed, ValidActivation;
  }

  lemma {:induction false} RevokedRun(sys: System, steps: seq<Step>, id: string)
    requires SystemInv(sys) && id in sys.tables.sessions && sys.tables.sessions[id].state.Revoked?
    ensures var last := Run(sys, steps);
      && id in last.tables.sessions && last.tables.sessions[id].state.Revoked?
      && (ActivateCall(id) in last.trace ==> ActivateCall(id) in sys.trace)
    decreases |steps|
  {
    hide SystemInv, Next;
    if steps != [] {
      var next := Next(sys, steps[0]);
      NextKeeps(sys, steps[0]);
      NextForward(sys, steps[0]);
      RevokedStays(sys.tables, next.tables, id);
      if ActivateCall(id) in next.trace { RevokedNeverDispatched(sys, steps[0], id); }
      hide Forward;
      RevokedRun(next, steps[1..], id);
    }
  }

  /**
   * Once a session is revoked, whatever runs afterwards, it stays revoked and is never again dispatched to the
   * provider for activation, not even by a worker that was already started.
   */
  lemma RevocationIsFinal(sys: System, steps: seq<Step>, id: string)
    requires Reachable(sys) && id in sys.tables.sessions && sys.tables.sessions[id].state.Revoked?
    ensures var last := Run(sys, steps);
      && id in last.tables.sessions && last.tables.sessions[id].state.Revoked?
      && (ActivateCall(id) in last.trace ==> ActivateCall(id) in sys.trace)
  {
    hide Reachable, SystemInv, Run;
    ReachableFits(sys);
    RevokedRun(sys, steps, id);
  }

  /** The revoke call itself always lands: after it the session is revoked, in any reachable state that knows it. */
  lemma RevokeLands(sys: System, id: string)
    requires Reachable(sys) && id in sys.tables.sessions
    ensures var t := Next(sys, Deny(id)).tables; id in t.sessions && t.sessions[id].state.Revoked?
  {
    hide Reachable, SystemInv, Inv, Sound, Revoke;
    ReachableFits(sys);
    SystemHasInv(sys);
    RevokeKeeps(sys.tables, id, RealtimeTables.Revoke(sys.tables, id));
  }
}
