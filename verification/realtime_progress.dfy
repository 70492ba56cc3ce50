/**
 * Each transaction of the realtime store keeps the invariant, only moves forward, and claims at most one remote
 * session.
 */
module RealtimeProgress {
  import opened Base
  import opened RealtimeTables
  import opened RealtimeInvariant

  // ----- what never moves back -----

  function Rank(state: SessionState): nat {
    match state
    case New => 0
    case Activating => 1
    case Indeterminate => 2
    case Active => 3
    case Revoked => 4
  }

  ghost predicate RowForward(row: Session, row': Session) {
    && row'.subject == row.subject && Rank(row.state) <= Rank(row'.state) && row.generation <= row'.generation
    && (row.remote.Some? ==> row'.remote == row.remote)
  }

  ghost predicate SessionsForward(sessions: map<string, Session>, sessions': map<string, Session>) {
    forall s :: s in sessions ==> s in sessions' && RowForward(sessions[s], sessions'[s])
  }

  ghost predicate AttemptsKept(attempts: map<string, Attempt>, attempts': map<string, Attempt>) {
    forall s :: s in attempts ==> s in attempts' && attempts'[s] == attempts[s]
  }

  /** Cleanup work is never dropped or rebound, and a completed known job is never reopened. */
  ghost predicate JobsKept(outbox: map<JobId, Job>, outbox': map<JobId, Job>) {
    forall j | j in outbox ::
      && j in outbox' && outbox'[j].session == outbox[j].session && outbox'[j].remote == outbox[j].remote
      && (j.Known? && !outbox[j].pending ==> !outbox'[j].pending)
  }

  ghost predicate CountersForward<K>(counters: map<K, int>, counters': map<K, int>) {
    forall k :: k in counters ==> k in counters' && counters[k] <= counters'[k]
  }

  /** A ticket leaves the issued state once. */
  ghost predicate TicketsForward(tickets: map<string, Ticket>, tickets': map<string, Ticket>) {
    forall d | d in tickets ::
      d in tickets'
        && (tickets'[d] == tickets[d]
          || (tickets[d].state.Issued? && tickets'[d] == tickets[d].(state := tickets'[d].state)))
  }

  ghost predicate Forward(t: Tables, t': Tables) {
    && SessionsForward(t.sessions, t'.sessions)
    && AttemptsKept(t.attempts, t'.attempts)
    && JobsKept(t.outbox, t'.outbox)
    && CountersForward(t.lookups, t'.lookups)
    && CountersForward(t.revokes, t'.revokes)
    && TicketsForward(t.tickets, t'.tickets)
    && t'.lookupLimit == t.lookupLimit && t'.revokeLimit == t.revokeLimit
  }

  lemma ForwardTransitive(a: Tables, b: Tables, c: Tables)
    requires Forward(a, b) && Forward(b, c)
    ensures Forward(a, c)
  {
  }

  /** Session s is accountable for the remote session r: it stores it or has cleanup work for it. */
  predicate Claimed(t: Tables, s: string, r: string) {
    || (s in t.sessions && t.sessions[s].remote == Some(r))
    || KnownJobOf(t.outbox, s, r)
  }

  ghost predicate Completed(outbox: map<JobId, Job>, r: string) {
    Known(r) in outbox && !outbox[Known(r)].pending
  }

  /** No claim appears but, for session id, those on the listed remote sessions; no known job is completed. */
  ghost predicate ClaimsOnly(t: Tables, t': Tables, id: string, remotes: seq<string>) {
    && (forall s, r :: Claimed(t', s, r) ==> Claimed(t, s, r) || (s == id && r in remotes))
    && (forall r :: Completed(t'.outbox, r) ==> Completed(t.outbox, r))
  }

  // ----- cleanup custody -----

  lemma CleanupForward(t: Tables, t': Tables)
    requires AddsCleanup(t, t')
    ensures Forward(t, t')
  {
  }

  lemma StoredIsMine(t: Tables, id: string)
    requires Core(t) && id in t.sessions && t.sessions[id].remote.Some?
    ensures Identifier(t.sessions[id].remote.value)
    ensures !OwnedElsewhere(t.sessions, t.outbox, id, t.sessions[id].remote.value)
  {
    hide TicketsSingle, TicketsFit, AttemptsPaid, AttemptsFit, LookupsFit, RevokesFit, JobSessionsFit, Identifier;
    assert SessionFit(id, t.sessions[id], t.attempts);
  }

  lemma CleanupTransitive(a: Tables, b: Tables, c: Tables)
    requires AddsCleanup(a, b) && AddsCleanup(b, c)
    ensures AddsCleanup(a, c)
  {
  }

  /** A denied session whose custody was just taken satisfies the invariant again. */
  lemma CustodyRestored(t: Tables, id: string, t': Tables, job: JobId)
    requires Core(t') && id in t.sessions && CustodyExcept(t, {id})
    requires TakesCustody(t, id, t.sessions[id].remote, t', job)
    requires t.sessions[id].remote.Some? ==> job.Known?
    ensures Inv(t')
  {
    hide Core;
    CleanupKeepsCustody(t, t', {id});
    if job.Known? { assert KnownJobOf(t'.outbox, id, job.remote); }
    assert CustodyOf(id, t'.sessions[id], t'.attempts, t'.outbox);
    hide CustodyOf;
  }

  lemma CustodyClaims(t: Tables, id: string, t': Tables, job: JobId)
    requires id in t.sessions && TakesCustody(t, id, t.sessions[id].remote, t', job)
    ensures ClaimsOnly(t, t', id, [])
  {
  }

  /** Denying a session and queueing its stored remote session, or a lookup, restores the invariant. */
  lemma QueueStored(t: Tables, id: string, q: Queued)
    requires Core(t) && Denied(t, id) && CustodyExcept(t, {id})
    requires q == QueueRevoke(t, id, t.sessions[id].remote)
    ensures q.Queued? && Inv(q.tables) && Forward(t, q.tables) && ClaimsOnly(t, q.tables, id, [])
  {
    hide Core, CustodyExcept, Forward, QueueRevoke, Inv, ClaimsOnly;
    var remote := t.sessions[id].remote;
    if remote.Some? { StoredIsMine(t, id); }
    QueueRevokeKeeps(t, id, remote, q);
    CustodyRestored(t, id, q.tables, q.job);
    CustodyClaims(t, id, q.tables, q.job);
    CleanupForward(t, q.tables);
  }

  // ----- refused results -----

  /** Every identity of a refused result is under custody: as its own job, or else as a pending lookup. */
  ghost predicate AllInCustody(t: Tables, id: string, identities: seq<string>, t': Tables, unresolved: bool) {
    && AddsCleanup(t, t')
    && (forall r :: r in identities && !OwnedElsewhere(t.sessions, t.outbox, id, r) ==> KnownJobOf(t'.outbox, id, r))
    && (unresolved ==> Lookup(id) in t'.outbox && t'.outbox[Lookup(id)].pending)
    && (!unresolved ==> forall r :: r in identities ==> KnownJobOf(t'.outbox, id, r))
    && (forall s, r :: KnownJobOf(t'.outbox, s, r) ==> KnownJobOf(t.outbox, s, r) || (s == id && r in identities))
  }

  lemma NothingToQueue(t: Tables, id: string)
    ensures AllInCustody(t, id, [], t, false)
  {
  }

  lemma OneMoreInCustody(t: Tables, id: string, identities: seq<string>, mid: Tables, job: JobId, t': Tables,
                         unresolved: bool)
    requires identities != [] && Core(mid)
    requires TakesCustody(t, id, Some(identities[0]), mid, job)
    requires AllInCustody(mid, id, identities[1..], t', unresolved)
    ensures AllInCustody(t, id, identities, t', unresolved || job.Lookup?)
  {
    hide TicketsSingle, TicketsFit, AttemptsPaid, AttemptsFit, SessionsFit, LookupsFit, RevokesFit, ExclusiveOwners,
      JobSessionsFit;
    CleanupTransitive(t, mid, t');
    assert identities == [identities[0]] + identities[1..];
    forall r | r in identities && !OwnedElsewhere(t.sessions, t.outbox, id, r) ensures KnownJobOf(t'.outbox, id, r) {
      if r != identities[0] {
        assert !OwnedElsewhere(mid.sessions, mid.outbox, id, r);
      }
    }
  }

  lemma {:induction false} QueueAllKeeps(t: Tables, id: string, identities: seq<string>, c: Cleanup)
    requires Core(t) && Denied(t, id) && c == QueueAll(t, id, identities)
    requires forall r :: r in identities ==> Identifier(r)
    ensures c.Cleanup? && Core(c.tables) && AllInCustody(t, id, identities, c.tables, c.unresolved)
    decreases |identities|
  {
    hide AllInCustody, Core, QueueRevoke, Identifier;
    if identities == [] {
      NothingToQueue(t, id);
    } else {
      var q := QueueRevoke(t, id, Some(identities[0]));
      QueueRevokeKeeps(t, id, Some(identities[0]), q);
      var rest := QueueAll(q.tables, id, identities[1..]);
      QueueAllKeeps(q.tables, id, identities[1..], rest);
      OneMoreInCustody(t, id, identities, q.tables, q.job, rest.tables, rest.unresolved);
    }
  }

  /** With nothing unresolved the lookup job may be settled: a known job remains. */
  lemma SettleKeeps(t: Tables, id: string)
    requires Core(t) && Denied(t, id) && CustodyExcept(t, {id})
    ensures Core(SettleLookup(t, id)) && Forward(t, SettleLookup(t, id)) && ClaimsOnly(t, SettleLookup(t, id), id, [])
    ensures CustodyExcept(SettleLookup(t, id), {id})
    ensures forall s, r :: KnownJobOf(t.outbox, s, r) == KnownJobOf(SettleLookup(t, id).outbox, s, r)
  {
    hide Core;
    if Lookup(id) in t.outbox {
      OpenLookupKeeps(t, id, false);
      LookupRow(t, id);
    }
    SettleKeepsCustody(t, id);
    hide CustodyExcept;
  }

  lemma SettleKeepsCustody(t: Tables, id: string)
    requires CustodyExcept(t, {id})
    ensures CustodyExcept(SettleLookup(t, id), {id})
  {
    var t' := SettleLookup(t, id);
    forall s | s in t'.sessions && s != id ensures CustodyOf(s, t'.sessions[s], t'.attempts, t'.outbox) {
      assert CustodyOf(s, t.sessions[s], t.attempts, t.outbox);
      assert forall r :: KnownJobOf(t.outbox, s, r) ==> KnownJobOf(t'.outbox, s, r);
    }
  }

  lemma LookupRow(t: Tables, id: string)
    requires Core(t) && Lookup(id) in t.outbox
    ensures t.outbox[Lookup(id)] == Job(id, None, t.outbox[Lookup(id)].pending)
  {
    hide TicketsSingle, TicketsFit, AttemptsPaid, AttemptsFit, SessionsFit, LookupsFit, RevokesFit, ExclusiveOwners,
      JobSessionsFit;
  }

  lemma AllIsCleanup(t: Tables, id: string, identities: seq<string>, t': Tables, unresolved: bool)
    requires AllInCustody(t, id, identities, t', unresolved) && Denied(t, id)
    ensures AddsCleanup(t, t') && Denied(t', id)
  {
  }

  lemma NoExemption(t: Tables, id: string)
    requires CustodyExcept(t, {id}) && (id in t.sessions ==> CustodyOf(id, t.sessions[id], t.attempts, t.outbox))
    ensures CustodyExcept(t, {})
  {
  }

  /** The stored identity was claimed before, so only the observed one can be new. */
  lemma StoredClaimed(t: Tables, id: string, t': Tables, observed: string, stored: Option<string>)
    requires id in t.sessions && (stored.Some? ==> stored == t.sessions[id].remote)
    requires ClaimsOnly(t, t', id, Identities(observed, stored))
    ensures ClaimsOnly(t, t', id, [observed])
  {
  }

  lemma SettledCustody(t: Tables, id: string)
    requires id in t.sessions && CustodyOf(id, t.sessions[id], t.attempts, t.outbox)
    requires exists r :: KnownJobOf(t.outbox, id, r)
    ensures var t' := SettleLookup(t, id); CustodyOf(id, t'.sessions[id], t'.attempts, t'.outbox)
  {
    var r :| KnownJobOf(t.outbox, id, r);
    assert KnownJobOf(SettleLookup(t, id).outbox, id, r);
  }

  lemma CustodyAfterAll(t: Tables, id: string, identities: seq<string>, t': Tables, unresolved: bool)
    requires Core(t) && Denied(t, id) && AllInCustody(t, id, identities, t', unresolved) && identities != []
    requires t.sessions[id].remote.Some? ==> t.sessions[id].remote.value in identities
    ensures CustodyOf(id, t'.sessions[id], t'.attempts, t'.outbox)
    ensures !unresolved ==> exists r :: KnownJobOf(t'.outbox, id, r)
    ensures ClaimsOnly(t, t', id, identities)
  {
    hide Core, OwnedElsewhere, AllInCustody, CustodyOf, ClaimsOnly, KnownJobOf, Denied;
    SessionInCustody(t, id, identities, t', unresolved);
    OnlyTheseClaimed(t, id, identities, t', unresolved);
  }

  lemma SessionInCustody(t: Tables, id: string, identities: seq<string>, t': Tables, unresolved: bool)
    requires Core(t) && Denied(t, id) && AllInCustody(t, id, identities, t', unresolved) && identities != []
    requires t.sessions[id].remote.Some? ==> t.sessions[id].remote.value in identities
    ensures CustodyOf(id, t'.sessions[id], t'.attempts, t'.outbox)
    ensures !unresolved ==> exists r :: KnownJobOf(t'.outbox, id, r)
  {
    if t.sessions[id].remote.Some? { StoredIsMine(t, id); }
    hide Core, OwnedElsewhere;
    if !unresolved { assert KnownJobOf(t'.outbox, id, identities[0]); }
  }

  lemma OnlyTheseClaimed(t: Tables, id: string, identities: seq<string>, t': Tables, unresolved: bool)
    requires AllInCustody(t, id, identities, t', unresolved)
    ensures ClaimsOnly(t, t', id, identities)
  {
    hide OwnedElsewhere;
  }

  /** A refusal of an observed result ends with every remote session it knows of in custody. */
  lemma RefuseKeeps(start: Tables, t: Tables, id: string, observed: string, stored: Option<string>, code: Code, x: Tx)
    requires x == Refuse(start, t, id, observed, stored, code)
    requires Core(t) && Denied(t, id) && CustodyExcept(t, {id})
    requires Identifier(observed) && (stored.Some? ==> stored == t.sessions[id].remote)
    requires t.sessions[id].remote in {stored, Some(observed)}
    ensures x == Raised(x.tables, code) && Inv(x.tables) && Forward(t, x.tables)
    ensures ClaimsOnly(t, x.tables, id, [observed])
  {
    hide Core, Identifier, CustodyExcept, Forward, CustodyOf, AllInCustody, AddsCleanup;
    var identities := Identities(observed, stored);
    if stored.Some? { StoredIsMine(t, id); }
    var c := QueueAll(t, id, identities);
    QueueAllKeeps(t, id, identities, c);
    CustodyAfterAll(t, id, identities, c.tables, c.unresolved);
    AllIsCleanup(t, id, identities, c.tables, c.unresolved);
    CleanupForward(t, c.tables);
    CleanupKeepsCustody(t, c.tables, {id});
    StoredClaimed(t, id, c.tables, observed, stored);
    if c.unresolved {
      NoExemption(c.tables, id);
    } else {
      SettleKeeps(c.tables, id);
      SettledCustody(c.tables, id);
      NoExemption(x.tables, id);
      ForwardTransitive(t, c.tables, x.tables);
    }
  }
}
