/**
 * What the realtime store answers, said of its rows, the tickets and the clock alone: which ticket opens a session,
 * which result is admitted and what it leaves, and where every active session of a run comes from.
 */
module RealtimeAnswers {
  import opened Base
  import opened RealtimeTables
  import opened RealtimeInvariant
  import opened RealtimeProgress
  import opened RealtimeTransactions
  import opened RealtimeRuns
  import opened RealtimeTheorems

  // ----- one result -----

  /** No other session has this remote session, in its row or to clean up. */
  ghost predicate NotAnothers(t: Tables, id: string, remote: string) {
    && (forall s :: s in t.sessions && s != id ==> t.sessions[s].remote != Some(remote))
    && (forall j :: j in t.outbox && t.outbox[j].session != id ==> t.outbox[j].remote != Some(remote))
  }

  /** The session has no provider identity yet, or just this one. */
  ghost predicate SameIdentity(row: Session, a: Activation) {
    row.remote.Some? ==> row.remote == Some(a.remote) && row.receipt == Some(a.receipt)
  }

  /** The attempt stands for the session's subject and current generation. */
  ghost predicate OwnAttempt(t: Tables, id: string, attempt: string) {
    && id in t.sessions && id in t.attempts
    && t.attempts[id] == Attempt(attempt, t.sessions[id].subject, t.sessions[id].generation)
  }

  ghost predicate SpentOn(t: Tables, id: string, d: string) {
    && d in t.tickets && id in t.sessions
    && t.tickets[d].session == id && t.tickets[d].subject == t.sessions[id].subject && t.tickets[d].state == Consumed
  }

  /** The one ticket the session's subject spent on it. */
  ghost predicate Spent(t: Tables, id: string, d: string) {
    SpentOn(t, id, d) && forall e :: SpentOn(t, id, e) ==> e == d
  }

  /** Both clock readings of an admission lie in its window, in order, and the caller still waits at both. */
  ghost predicate InWindow(expires: int, earliest: int, r: Readings) {
    && Timestamp(r.now) && Timestamp(r.later) && Timestamp(expires)
    && earliest <= r.now <= r.later < expires && !r.late && !r.laterLate
  }

  ghost predicate Pending(row: Session) {
    row.state == Activating || row.state == Indeterminate
  }

  lemma NotAnothersIff(t: Tables, id: string, remote: string)
    ensures NotAnothers(t, id, remote) <==> !OwnedElsewhere(t.sessions, t.outbox, id, remote)
  {
  }

  lemma SpentSet(t: Tables, id: string)
    requires id in t.sessions
    ensures var spent := set d | d in t.tickets && ConsumedFor(t.tickets, t.sessions, d, id);
      |spent| == 1 <==> exists d :: Spent(t, id, d)
  {
    var spent := set d | d in t.tickets && ConsumedFor(t.tickets, t.sessions, d, id);
    assert forall e :: SpentOn(t, id, e) <==> e in spent;
    if |spent| == 1 {
      SingletonElements(spent);
      var d :| d in spent;
      assert Spent(t, id, d);
    }
    if d :| Spent(t, id, d) { assert spent == {d}; }
  }

  /** The window of a pending session is that of the ticket it spent. */
  lemma WindowIff(t: Tables, id: string, earliest: int, now: int, late: bool)
    requires id in t.sessions
    ensures AttemptWindow(t, id, earliest, now, late).Fresh? <==>
      exists d :: && Spent(t, id, d) && Timestamp(t.tickets[d].expires)
                  && Timestamp(now) && earliest <= now < t.tickets[d].expires && !late
    ensures AttemptWindow(t, id, earliest, now, late).Fresh? ==> AttemptWindow(t, id, earliest, now, late) == Fresh(now)
  {
    SpentSet(t, id);
    var spent := set d | d in t.tickets && ConsumedFor(t.tickets, t.sessions, d, id);
    assert forall e :: SpentOn(t, id, e) <==> e in spent;
    if |spent| == 1 {
      SingletonElements(spent);
      var d :| d in spent;
      assert Spent(t, id, d);
    }
  }

  /** The window of the row does not depend on what a result writes in it. */
  lemma WindowOfActive(t: Tables, id: string, row: Session, earliest: int, now: int, late: bool)
    requires id in t.sessions && row.subject == t.sessions[id].subject
    ensures AttemptWindow(WithSession(t, id, row), id, earliest, now, late) == AttemptWindow(t, id, earliest, now, late)
  {
    var t' := WithSession(t, id, row);
    assert (set d | d in t'.tickets && ConsumedFor(t'.tickets, t'.sessions, d, id))
        == set d | d in t.tickets && ConsumedFor(t.tickets, t.sessions, d, id);
  }

  lemma AdmitDecides(t: Tables, id: string, a: Activation, earliest: int, r: Readings)
    requires id in t.sessions
    ensures var x := Admit(t, id, a, earliest, r); var row := t.sessions[id];
      && (x.Committed? <==>
        r.laterAdapter && exists d :: Spent(t, id, d) && InWindow(t.tickets[d].expires, earliest, r))
      && (x.Committed? ==>
            x.tables == t.(sessions := t.sessions[id :=
              Session(row.subject, Active, row.generation, Some(a.remote), Some(a.receipt))]))
  {
    hide AttemptWindow, Refuse;
    WindowIff(t, id, earliest, r.now, r.late);
    WindowIff(t, id, r.now, r.later, r.laterLate);
    if d :| Spent(t, id, d) && InWindow(t.tickets[d].expires, earliest, r) {
      assert Spent(t, id, d) && Timestamp(t.tickets[d].expires);
    }
    RefusesAlways(t, id, a.remote);
  }

  lemma RefusesAlways(start: Tables, id: string, observed: string)
    ensures forall t, stored, code :: Refuse(start, t, id, observed, stored, code).Raised?
  {
    hide QueueAll;
  }

  /**
   * A result is accepted exactly when no other session has its remote session, it is the identity the session has if
   * any, its attempt is the session's own, and the session is active already, or pending with both windows open. An
   * accepted result changes a pending session alone: it is active, under the provider's id and receipt, in its old
   * generation.
   */
  lemma ResultDecides(t: Tables, id: string, attempt: string, a: Activation, earliest: int, r: Readings)
    ensures var x := CommitActivation(t, id, attempt, a, earliest, r);
      && (x.Committed? <==>
            && r.adapter && OwnAttempt(t, id, attempt) && NotAnothers(t, id, a.remote)
            && SameIdentity(t.sessions[id], a)
            && if t.sessions[id].state == Active then !r.late
               else && Pending(t.sessions[id]) && r.laterAdapter
                    && exists d :: Spent(t, id, d) && InWindow(t.tickets[d].expires, earliest, r))
      && (x.Committed? ==>
            var row := t.sessions[id];
            x.tables == t.(sessions := t.sessions[id := if row.state == Active then row else
              Session(row.subject, Active, row.generation, Some(a.remote), Some(a.receipt))]))
  {
    hide OwnedElsewhere, Refuse, Admit, Spent, InWindow, NotAnothers;
    if id in t.sessions {
      NotAnothersIff(t, id, a.remote);
      RefusesAlways(t, id, a.remote);
      AdmitDecides(t, id, a, earliest, r);
      assert t.sessions == t.sessions[id := t.sessions[id]];
    }
  }

  /** The same result again, on time, finds the session active and leaves everything as it is. */
  lemma SameResultAgain(t: Tables, id: string, attempt: string, a: Activation, earliest: int, r: Readings,
                        again: Readings, since: int)
    requires CommitActivation(t, id, attempt, a, earliest, r).Committed? && again.adapter && !again.late
    ensures var t' := CommitActivation(t, id, attempt, a, earliest, r).tables;
      && id in t'.sessions && t'.sessions[id].state == Active
      && CommitActivation(t', id, attempt, a, since, again) == Committed(t')
  {
    hide CommitActivation, Spent, InWindow;
    ResultDecides(t, id, attempt, a, earliest, r);
    var t' := CommitActivation(t, id, attempt, a, earliest, r).tables;
    ResultDecides(t', id, attempt, a, since, again);
    assert NotAnothers(t', id, a.remote);
    assert t'.sessions == t'.sessions[id := t'.sessions[id]];
  }

  // ----- refused results -----

  /** The remote session will be cleaned up for id: by its own job, or else by a lookup that is still to be made. */
  ghost predicate Owed(t: Tables, id: string, remote: string, t': Tables) {
    || (Known(remote) in t'.outbox && t'.outbox[Known(remote)].session == id)
    || (!NotAnothers(t, id, remote) && Lookup(id) in t'.outbox && t'.outbox[Lookup(id)].pending)
  }

  /** All that a refusal adds to a denied session: cleanup of what was observed and of what was stored. */
  ghost predicate LeftToClean(t: Tables, id: string, a: Activation, t': Tables)
    requires id in t.sessions
  {
    && t' == t.(outbox := t'.outbox, revokes := t'.revokes)
    && Owed(t, id, a.remote, t')
    && (t.sessions[id].remote.Some? ==> Owed(t, id, t.sessions[id].remote.value, t'))
  }

  lemma RefuseLeaves(start: Tables, t: Tables, id: string, a: Activation, stored: Option<string>, code: Code)
    requires Core(t) && Denied(t, id) && Identifier(a.remote)
    requires stored.Some? ==> stored == t.sessions[id].remote
    requires t.sessions[id].remote == stored || t.sessions[id].remote == Some(a.remote)
    ensures var x := Refuse(start, t, id, a.remote, stored, code);
      x == Raised(x.tables, code) && LeftToClean(t, id, a, x.tables)
  {
    hide Core, Identifier, OwnedElsewhere, NotAnothers, AllInCustody, QueueAll, SettleLookup, Owed, AddsCleanup;
    var identities := Identities(a.remote, stored);
    if stored.Some? { StoredIsMine(t, id); }
    var c := QueueAll(t, id, identities);
    QueueAllKeeps(t, id, identities, c);
    assert a.remote in identities && (t.sessions[id].remote.Some? ==> t.sessions[id].remote.value in identities);
    AllOwed(t, id, identities, c.tables, c.unresolved);
  }

  lemma AllOwed(t: Tables, id: string, identities: seq<string>, t': Tables, unresolved: bool)
    requires AllInCustody(t, id, identities, t', unresolved)
    ensures var last := if unresolved then t' else SettleLookup(t', id);
      && last == t.(outbox := last.outbox, revokes := last.revokes)
      && forall r :: r in identities ==> Owed(t, id, r, last)
  {
    hide OwnedElsewhere, NotAnothers;
    forall r | r in identities ensures Owed(t, id, r, if unresolved then t' else SettleLookup(t', id)) {
      NotAnothersIff(t, id, r);
    }
  }

  /** The session's row as a refusal leaves it; a session is denied once. */
  function RevokedRow(row: Session): Session {
    if row.state == Revoked then row else row.(state := Revoked, generation := row.generation + 1)
  }

  /** The session's issued tickets are revoked and no other is touched. */
  ghost predicate TicketsClosed(tickets: map<string, Ticket>, id: string, tickets': map<string, Ticket>) {
    && tickets'.Keys == tickets.Keys
    && (forall d :: d in tickets ==>
          tickets'[d] == if tickets[d].session == id && tickets[d].state == Issued
                         then tickets[d].(state := TicketRevoked) else tickets[d])
  }

  /**
   * A result with another session's remote session, or another identity than the session has, denies the session for
   * good, whatever its state and whoever asks: its row and its tickets are closed, everything remote is to be cleaned
   * up, and the caller learns which conflict it was.
   */
  lemma ConflictLands(t: Tables, id: string, attempt: string, a: Activation, earliest: int, r: Readings)
    requires Inv(t) && id in t.sessions && id in t.attempts && Identifier(a.remote) && r.adapter
    requires !NotAnothers(t, id, a.remote) || !SameIdentity(t.sessions[id], a)
    ensures var x := CommitActivation(t, id, attempt, a, earliest, r);
      && x == Raised(x.tables, if NotAnothers(t, id, a.remote) then IdentityConflict else OwnerConflict)
      && TicketsClosed(t.tickets, id, x.tables.tickets)
      && LeftToClean(t.(sessions := t.sessions[id := RevokedRow(t.sessions[id])], tickets := x.tables.tickets), id, a,
                     x.tables)
  {
    hide Core, Inv, CustodyExcept, Forward, ClaimsOnly, Refuse, LeftToClean, OwnedElsewhere, NotAnothers;
    NotAnothersIff(t, id, a.remote);
    DenyAny(t, id);
    var t' := DenyLocally(t, id);
    var row := t.sessions[id];
    assert t.sessions == t.sessions[id := row];
    assert t' == t.(sessions := t.sessions[id := RevokedRow(row)], tickets := t'.tickets);
    ClosedTickets(t.tickets, id);
    var code := if NotAnothers(t, id, a.remote) then IdentityConflict else OwnerConflict;
    RefuseLeaves(t, t', id, a, row.remote, code);
    LeftAlone(t', id, a, Refuse(t, t', id, a.remote, row.remote, code).tables);
    hide DenyLocally;
  }

  lemma ClosedTickets(tickets: map<string, Ticket>, id: string)
    ensures TicketsClosed(tickets, id, CloseIssued(tickets, id, TicketRevoked))
  {
  }

  lemma LeftAlone(t: Tables, id: string, a: Activation, t': Tables)
    requires id in t.sessions && LeftToClean(t, id, a, t')
    ensures t'.tickets == t.tickets && t'.sessions == t.sessions && t'.attempts == t.attempts
  {
  }

  /** Why a clock reading is outside the window, if it is. */
  function Outside(expires: int, earliest: int, now: int): Option<Code> {
    if now < 0 || now > 253402300799 then Some(ClockInvalid)
    else if now < earliest then Some(ClockRollback)
    else if expires <= now then Some(TicketExpired)
    else None
  }

  lemma WindowValue(t: Tables, id: string, d: string, earliest: int, now: int, late: bool)
    requires Spent(t, id, d) && Timestamp(t.tickets[d].expires)
    ensures AttemptWindow(t, id, earliest, now, late) ==
      if Outside(t.tickets[d].expires, earliest, now).Some?
        then Unfit(Outside(t.tickets[d].expires, earliest, now).value)
      else if late then Unfit(DeadlineExpired) else Fresh(now)
  {
    SpentSet(t, id);
    var spent := set d | d in t.tickets && ConsumedFor(t.tickets, t.sessions, d, id);
    assert forall e :: SpentOn(t, id, e) <==> e in spent;
    SingletonElements(spent);
  }

  /**
   * A result turned away with this row of its session: a caller that is too late leaves it pending, a clock at fault
   * denies it and leaves everything remote to be cleaned up.
   */
  ghost predicate TurnedAway(t: Tables, id: string, row: Session, a: Activation, code: Code, x: Tx)
    requires id in t.sessions
  {
    && x == Raised(x.tables, code)
    && if code == DeadlineExpired then x.tables == t.(sessions := t.sessions[id := row.(state := Indeterminate)])
       else LeftToClean(t.(sessions := t.sessions[id := RevokedRow(row)]), id, a, x.tables)
  }

  /**
   * A result for a pending session that comes out of its window is turned away, with the row as it was where the first
   * reading is at fault, and with the row as the result made it where the second one is.
   */
  lemma LateResultLands(t: Tables, id: string, attempt: string, a: Activation, earliest: int, r: Readings, d: string)
    requires Inv(t) && Identifier(a.remote) && Identifier(a.receipt) && r.adapter
    requires OwnAttempt(t, id, attempt) && Pending(t.sessions[id])
    requires NotAnothers(t, id, a.remote) && SameIdentity(t.sessions[id], a)
    requires Spent(t, id, d) && Timestamp(t.tickets[d].expires)
    ensures var x, row := CommitActivation(t, id, attempt, a, earliest, r), t.sessions[id];
      var active := Session(row.subject, Active, row.generation, Some(a.remote), Some(a.receipt));
      var first := Outside(t.tickets[d].expires, earliest, r.now);
      var second := Outside(t.tickets[d].expires, r.now, r.later);
      if first.Some? then TurnedAway(t, id, row, a, first.value, x)
      else if r.late then TurnedAway(t, id, row, a, DeadlineExpired, x)
      else if second.Some? then TurnedAway(t, id, active, a, second.value, x)
      else if r.laterLate then TurnedAway(t, id, active, a, DeadlineExpired, x)
      else if !r.laterAdapter then x == Raised(t, AdapterMismatch)
      else x == Committed(t.(sessions := t.sessions[id := active]))
  {
    hide Inv, OwnedElsewhere, NotAnothers, AttemptWindow, Identifier, Reject, TurnedAway;
    NotAnothersIff(t, id, a.remote);
    WindowValue(t, id, d, earliest, r.now, r.late);
    WindowValue(t, id, d, r.now, r.later, r.laterLate);
    var row, expires := t.sessions[id], t.tickets[d].expires;
    var first, second := Outside(expires, earliest, r.now), Outside(expires, r.now, r.later);
    hide Outside, Spent;
    assert WithSession(t, id, row) == t;
    RejectLands(t, row, id, a, if first.Some? then first.value else DeadlineExpired);
    RejectLands(t, ActiveRow(row, a), id, a, if second.Some? then second.value else DeadlineExpired);
    assert CommitActivation(t, id, attempt, a, earliest, r) == Admit(t, id, a, earliest, r);
  }

  lemma RejectLands(t: Tables, row: Session, id: string, a: Activation, code: Code)
    requires Inv(t) && ValidActivation(a) && Exactly(t, id) && NotAnothers(t, id, a.remote)
    requires SameIdentity(t.sessions[id], a)
    requires row == t.sessions[id] || row == ActiveRow(t.sessions[id], a)
    ensures TurnedAway(t, id, row, a, code, Reject(t, WithSession(t, id, row), id, a, t.sessions[id].remote, code))
  {
    hide Inv, Core, CustodyExcept, Forward, ClaimsOnly, Refuse, LeftToClean, OwnedElsewhere, NotAnothers, Identifier;
    var t' := WithSession(t, id, row);
    var denied := WithSession(t', id, RevokeRow(row));
    if code == DeadlineExpired {
      assert t'.sessions[id := row.(state := Indeterminate)] == t.sessions[id := row.(state := Indeterminate)];
    } else {
      NotAnothersIff(t, id, a.remote);
      if row == t.sessions[id] { assert t' == t; }
      RevokedAfterResult(t, t', id, a);
      RefuseLeaves(t, denied, id, a, t.sessions[id].remote, code);
      assert denied == WithSession(t, id, RevokeRow(row));
    }
  }

  /** A late result of a session that is no longer pending changes nothing but what is to be cleaned up. */
  lemma StaleResultLands(t: Tables, id: string, attempt: string, a: Activation, earliest: int, r: Readings)
    requires Inv(t) && id in t.sessions && id in t.attempts && t.attempts[id].id == attempt && Identifier(a.remote)
    requires r.adapter && NotAnothers(t, id, a.remote) && SameIdentity(t.sessions[id], a)
    requires !Pending(t.sessions[id])
    ensures var x := CommitActivation(t, id, attempt, a, earliest, r);
      if t.sessions[id].state == Active then
        x == if !OwnAttempt(t, id, attempt) then Raised(t, RevokedOrStale)
             else if r.late then Raised(t, DeadlineExpired) else Committed(t)
      else
        t.sessions[id].state == Revoked && x == Raised(x.tables, RevokedOrStale) && LeftToClean(t, id, a, x.tables)
  {
    hide Core, Refuse, LeftToClean, OwnedElsewhere, NotAnothers, CustodyExcept, Identifier;
    NotAnothersIff(t, id, a.remote);
    if t.sessions[id].state != Active {
      OnlyRevokedIsStale(t, id, attempt);
      RefuseLeaves(t, t, id, a, t.sessions[id].remote, RevokedOrStale);
    }
  }

  // ----- tickets and reservations -----

  /** Issued tickets of the session are superseded, all but this one; no other is touched. */
  ghost predicate TicketsSuperseded(tickets: map<string, Ticket>, id: string, digest: string, row: Ticket,
                                    tickets': map<string, Ticket>) {
    && tickets'.Keys == tickets.Keys + {digest} && tickets'[digest] == row
    && (forall d :: d in tickets && d != digest ==>
          tickets'[d] == if tickets[d].session == id && tickets[d].state == Issued
                         then tickets[d].(state := Superseded) else tickets[d])
  }

  /**
   * A ticket is issued exactly for a session that is new, or its subject's and not yet begun, while there is room and
   * the clock lies in the ticket's own window; it lives for ttl from the first reading and supersedes the one before.
   */
  lemma IssueDecides(t: Tables, digest: string, subject: string, id: string, ttl: int, capacity: int, r: Readings)
    ensures var x := IssueTicket(t, digest, subject, id, ttl, capacity, r); var t' := x.tables;
      && (x.Committed? <==>
            && Identifier(subject) && Identifier(id) && r.adapter && r.laterAdapter
            && Timestamp(r.now) && Timestamp(r.later) && Timestamp(r.now + ttl) && r.now <= r.later < r.now + ttl
            && digest !in t.tickets && |t.tickets| < capacity
            && (if id in t.sessions
                then && t.sessions[id].subject == subject && t.sessions[id].state == New
                     && id in t.lookups && 0 <= t.lookups[id] <= t.lookupLimit
                else id !in t.lookups))
      && (x.Committed? ==>
            && TicketsSuperseded(t.tickets, id, digest, Ticket(subject, id, r.now + ttl, Issued), t'.tickets)
            && t'.sessions == (if id in t.sessions then t.sessions
                               else t.sessions[id := Session(subject, New, 1, None, None)])
            && t'.lookups == (if id in t.sessions then t.lookups else t.lookups[id := 0])
            && t' == t.(tickets := t'.tickets, sessions := t'.sessions, lookups := t'.lookups))
      && (x.Raised? ==> t' == t)
  {
    hide Identifier, CloseIssued, TicketsSuperseded;
    NewSupersedes(t.tickets, id, digest, Ticket(subject, id, r.now + ttl, Issued));
  }

  lemma NewSupersedes(tickets: map<string, Ticket>, id: string, digest: string, row: Ticket)
    ensures TicketsSuperseded(tickets, id, digest, row, CloseIssued(tickets, id, Superseded)[digest := row])
  {
  }

  /**
   * An attempt begins exactly with the session's own issued ticket, before it expires, on a session not yet begun; the
   * ticket is spent, every other one of the session superseded, and the attempt stands for the session's generation.
   */
  lemma ActivateDecides(t: Tables, digest: string, subject: string, id: string, attempt: string, r: Readings)
    ensures var x := BeginActivate(t, digest, subject, id, attempt, r); var t' := x.tables;
      && (x.Committed? <==>
            && r.adapter && r.laterAdapter && digest in t.tickets
            && t.tickets[digest] == Ticket(subject, id, t.tickets[digest].expires, Issued)
            && InWindow(t.tickets[digest].expires, r.now, r.(laterLate := r.late, late := false))
            && id in t.sessions && t.sessions[id].subject == subject && t.sessions[id].state == New
            && id in t.lookups && 0 <= t.lookups[id] <= t.lookupLimit
            && id !in t.attempts && forall s :: s in t.attempts ==> t.attempts[s].id != attempt)
      && (x.Committed? ==>
            && TicketsSuperseded(t.tickets, id, digest, t.tickets[digest].(state := Consumed), t'.tickets)
            && t'.sessions == t.sessions[id := t.sessions[id].(state := Activating)]
            && t'.attempts == t.attempts[id := Attempt(attempt, subject, t.sessions[id].generation)]
            && t' == t.(tickets := t'.tickets, sessions := t'.sessions, attempts := t'.attempts))
      && (x.Raised? ==> t' == t)
  {
  }

  /** A worker calls provider.activate only for an attempt that is still its session's own, in its ticket's window. */
  lemma DispatchIff(t: Tables, id: string, attempt: string, earliest: int, r: Readings)
    ensures MayDispatch(t, id, attempt, earliest, r) <==>
      && OwnAttempt(t, id, attempt) && t.sessions[id].state == Activating && r.adapter
      && exists d :: && Spent(t, id, d) && Timestamp(t.tickets[d].expires)
                     && Timestamp(r.now) && earliest <= r.now < t.tickets[d].expires && !r.late
  {
    hide AttemptWindow, Spent;
    if id in t.sessions { WindowIff(t, id, earliest, r.now, r.late); }
  }

  // ----- custody -----

  /**
   * Custody of a remote session is one job: its own when nobody else has it, else the session's lookup. A job that is
   * there must be the session's, and a known one is never reopened; one that is new has its whole budget.
   */
  lemma QueueDecides(t: Tables, id: string, remote: Option<string>)
    ensures var x := QueueRevoke(t, id, remote);
      var target := if remote.Some? && NotAnothers(t, id, remote.value) then remote else None;
      var job := match target case Some(known) => Known(known) case None => Lookup(id);
      var counted := job in t.revokes && 0 <= t.revokes[job] <= t.revokeLimit;
      && (x.Queued? <==>
            if job in t.outbox then t.outbox[job].session == id && t.outbox[job].remote == target
                                    && (target.Some? ==> counted)
            else target.Some? ==> job !in t.revokes)
      && (x.Queued? ==>
            && x.job == job
            && x.tables == t.(outbox := t.outbox[job := Job(id, target, if job in t.outbox && target.Some?
                                                                        then t.outbox[job].pending else true)],
                              revokes := if job !in t.outbox && target.Some? then t.revokes[job := 0] else t.revokes))
      && (x.QueueFault? ==> match x.code
            case CleanupBindingInvalid =>
              job in t.outbox && (t.outbox[job].session != id || t.outbox[job].remote != target)
            case CounterInvalid => job in t.outbox && target.Some? && !counted
            case IntegrityError => job !in t.outbox && job in t.revokes
            case _ => false)
  {
    hide OwnedElsewhere, NotAnothers;
    if remote.Some? { NotAnothersIff(t, id, remote.value); }
  }

  // ----- attempts that are given up or looked up -----

  /** The session is denied and owes the cleanup of its remote session, or a lookup of it. */
  ghost predicate DeniedToClean(t: Tables, id: string, t': Tables)
    requires id in t.sessions
  {
    && t' == t.(sessions := t.sessions[id := RevokedRow(t.sessions[id])], outbox := t'.outbox, revokes := t'.revokes)
    && match t.sessions[id].remote
       case Some(remote) => Known(remote) in t'.outbox && t'.outbox[Known(remote)].session == id
       case None => Lookup(id) in t'.outbox && t'.outbox[Lookup(id)].pending
  }

  /** The ticket the session spent still runs at this instant. */
  ghost predicate StillRuns(t: Tables, id: string, now: int) {
    exists d :: Spent(t, id, d) && Timestamp(t.tickets[d].expires) && Timestamp(now) && now < t.tickets[d].expires
  }

  lemma StillRunsIff(t: Tables, id: string, now: int)
    requires id in t.sessions
    ensures StillRuns(t, id, now) <==> AttemptWindow(t, id, 0, now, false).Fresh?
  {
    WindowIff(t, id, 0, now, false);
    hide AttemptWindow, Spent;
  }

  lemma QueueStoredLands(t: Tables, id: string)
    requires Core(t) && Denied(t, id)
    ensures var q := QueueRevoke(t, id, t.sessions[id].remote);
      && q.Queued? && q.tables == t.(outbox := q.tables.outbox, revokes := q.tables.revokes)
      && match t.sessions[id].remote
         case Some(remote) => Known(remote) in q.tables.outbox && q.tables.outbox[Known(remote)].session == id
         case None => Lookup(id) in q.tables.outbox && q.tables.outbox[Lookup(id)].pending
  {
    hide Core, QueueRevoke, OwnedElsewhere, Identifier;
    if t.sessions[id].remote.Some? { StoredIsMine(t, id); }
    QueueRevokeKeeps(t, id, t.sessions[id].remote, QueueRevoke(t, id, t.sessions[id].remote));
  }

  lemma ExpireLands(start: Tables, t: Tables, id: string, now: int)
    requires Inv(t) && id in t.sessions
    ensures var x := ExpirePending(start, t, id, now);
      && x.Committed?
      && if Pending(t.sessions[id]) && !StillRuns(t, id, now) then DeniedToClean(t, id, x.tables) else x.tables == t
  {
    hide Inv, Core, CustodyExcept, Forward, ClaimsOnly, QueueRevoke, AttemptWindow, StillRuns;
    if Pending(t.sessions[id]) {
      StillRunsIff(t, id, now);
      PendingHasAttempt(t, id);
      DenyPending(t, id);
      QueueStoredLands(WithSession(t, id, RevokeRow(t.sessions[id])), id);
    }
  }

  /** An attempt without a result in time is indeterminate while its ticket runs, and denied after that. */
  lemma GiveUpLands(t: Tables, id: string, attempt: string, now: int)
    requires Inv(t) && id in t.sessions && id in t.attempts && t.attempts[id].id == attempt
    ensures var x, row := GiveUp(t, id, attempt, now), t.sessions[id];
      && x.Committed?
      && if !Pending(row) then x.tables == t
         else if StillRuns(t, id, now) then x.tables == t.(sessions := t.sessions[id := row.(state := Indeterminate)])
         else DeniedToClean(t, id, x.tables)
  {
    hide Inv, ExpirePending, StillRuns;
    var row := t.sessions[id];
    if Pending(row) {
      var marked := WithSession(t, id, row.(state := Indeterminate));
      assert row.state == Indeterminate ==> marked == t;
      if row.state == Activating { MarkKeeps(t, id); }
      ExpireLands(t, marked, id, now);
      StillRunsIff(t, id, now);
      StillRunsIff(marked, id, now);
      WindowOfActive(t, id, row.(state := Indeterminate), 0, now, false);
      assert marked.sessions[id := RevokedRow(row.(state := Indeterminate))] == t.sessions[id := RevokedRow(row)];
    } else {
      ExpireLands(t, t, id, now);
    }
  }

  /**
   * A lookup is paid for one unit of the session's budget, for an attempt that reached the provider; a pending session
   * whose ticket ran out is denied first, and stays so where the budget is spent.
   */
  lemma ReconcileLands(t: Tables, id: string, r: Readings)
    requires Inv(t) && id in t.sessions && id in t.attempts && t.sessions[id].state != Active
    ensures var x := BeginReconcile(t, id, r);
      && id in t.lookups
      && (x.Committed? <==> t.lookups[id] < t.lookupLimit) && (x.Raised? ==> x.code == ReadbackExhausted)
      && var paid := x.tables.(lookups := t.lookups);
         && x.tables.lookups == (if x.Committed? then t.lookups[id := t.lookups[id] + 1] else t.lookups)
         && if Pending(t.sessions[id]) && !StillRuns(t, id, r.later) then DeniedToClean(t, id, paid) else paid == t
  {
    hide Inv, ExpirePending, StillRuns;
    LookupFit(t, id);
    NotNew(t, id);
    ExpireLands(t, t, id, r.later);
    ExpiryKeepsLookups(t, id, r.later);
  }

  lemma NotNew(t: Tables, id: string)
    requires Inv(t) && id in t.sessions && id in t.attempts
    ensures t.sessions[id].state != New
  {
    hide CustodyExcept, ExclusiveOwners, JobsFit, RevokesFit, JobSessionsFit, LookupsFit, AttemptsPaid, TicketsSingle,
      TicketsFit, Identifier;
    assert SessionFit(id, t.sessions[id], t.attempts);
  }

  /** Without an attempt, or on an active session, reconciling pays nothing and changes nothing. */
  lemma ReconcileAtOnce(t: Tables, id: string, r: Readings)
    requires id !in t.sessions || id !in t.attempts || t.sessions[id].state == Active
    ensures var x := BeginReconcile(t, id, r);
      && x.tables == t
      && (x.Committed? <==> id in t.sessions && ((t.sessions[id].state == Active && r.adapter)
                                                  || (t.sessions[id].state == Revoked && id !in t.attempts)))
  {
    hide ExpirePending;
  }

  // ----- live sessions and denials -----

  /** An interruption moves an active session to its next generation, for one who knows the current one. */
  lemma InterruptDecides(t: Tables, id: string, generation: int, adapter: bool)
    ensures var x := Interrupt(t, id, generation, adapter);
      if adapter && id in t.sessions && t.sessions[id].state == Active && t.sessions[id].generation == generation
      then x == Committed(t.(sessions := t.sessions[id := t.sessions[id].(generation := generation + 1)]))
      else x.Raised? && x.tables == t
  {
  }

  /** A revocation denies the session and its tickets, and owes cleanup for one that may have reached the provider. */
  lemma RevokeDenies(t: Tables, id: string)
    requires Inv(t) && id in t.sessions
    ensures var x, row := Revoke(t, id), t.sessions[id];
      var closed := t.(sessions := t.sessions[id := RevokedRow(row)], tickets := x.tables.tickets);
      && x.Committed? && TicketsClosed(t.tickets, id, x.tables.tickets)
      && if row.remote.Some? || Pending(row) then DeniedToClean(closed, id, x.tables) else x.tables == closed
  {
    hide Inv, Core, CustodyExcept, Forward, ClaimsOnly, QueueRevoke, CloseIssued;
    var row := t.sessions[id];
    assert t.sessions == t.sessions[id := row];
    ClosedTickets(t.tickets, id);
    var closed := DenyLocally(t, id);
    assert closed.sessions == t.sessions[id := RevokedRow(row)];
    if row.remote.Some? || Pending(row) {
      PendingHasAttempt(t, id);
      DenyAny(t, id);
      QueueStoredLands(closed, id);
      assert closed.sessions == closed.sessions[id := RevokedRow(closed.sessions[id])];
    }
  }

  /** One unit of a job's budget is spent by each drain that may go on to the provider, and by none else. */
  lemma DrainDecides(t: Tables, job: JobId)
    ensures var x := BeginDrain(t, job);
      if && job in t.outbox && t.outbox[job].pending && t.outbox[job].remote.Some?
         && job in t.revokes && 0 <= t.revokes[job] < t.revokeLimit
      then x == Committed(t.(revokes := t.revokes[job := t.revokes[job] + 1]))
      else x.tables == t
    ensures DrainDispatches(t, job) <==>
      && job in t.outbox && t.outbox[job].pending && t.outbox[job].remote.Some?
      && job in t.revokes && 0 <= t.revokes[job] < t.revokeLimit
      && NotAnothers(t, t.outbox[job].session, t.outbox[job].remote.value)
  {
    if job in t.outbox && t.outbox[job].remote.Some? {
      NotAnothersIff(t, t.outbox[job].session, t.outbox[job].remote.value);
    }
    hide OwnedElsewhere, NotAnothers;
  }

  /** A cleanup is completed exactly for a job still bound to this session and this remote session. */
  lemma FinishDecides(t: Tables, job: JobId, id: string, remote: string, adapter: bool)
    ensures var x := FinishDrain(t, job, id, remote, adapter);
      if adapter && job in t.outbox && t.outbox[job].session == id && t.outbox[job].remote == Some(remote)
      then x == Committed(t.(outbox := t.outbox[job := Job(id, Some(remote), false)]))
      else x.Raised? && x.tables == t
  {
  }

  // ----- where an active session comes from -----

  lemma {:induction false} RunLast(sys: System, steps: seq<Step>)
    requires steps != []
    ensures Run(sys, steps) == Next(Run(sys, steps[..|steps| - 1]), steps[|steps| - 1])
    decreases |steps|
  {
    hide Next;
    if |steps| > 1 {
      RunLast(Next(sys, steps[0]), steps[1..]);
      assert steps[1..][..|steps| - 2] == steps[..|steps| - 1][1..];
    }
  }

  lemma {:induction false} QueueAllSame(t: Tables, id: string, identities: seq<string>)
    ensures var c := QueueAll(t, id, identities);
      c.Cleanup? ==> c.tables == t.(outbox := c.tables.outbox, revokes := c.tables.revokes)
    decreases |identities|
  {
    hide OwnedElsewhere;
    if identities != [] {
      var q := QueueRevoke(t, id, Some(identities[0]));
      if q.Queued? { QueueAllSame(q.tables, id, identities[1..]); }
    }
  }

  lemma RefuseSame(start: Tables, t: Tables, id: string, observed: string, stored: Option<string>, code: Code)
    ensures var t' := Refuse(start, t, id, observed, stored, code).tables;
      (t'.sessions == t.sessions && t'.tickets == t.tickets) || t' == start
  {
    QueueAllSame(t, id, Identities(observed, stored));
    hide QueueAll;
  }

  lemma QueueSame(t: Tables, id: string, remote: Option<string>)
    ensures var q := QueueRevoke(t, id, remote);
      q.Queued? ==> q.tables == t.(outbox := q.tables.outbox, revokes := q.tables.revokes)
  {
    hide OwnedElsewhere;
  }

  /** Another session keeps its row, and this one is not newly active. */
  ghost predicate NoneActivated(sessions: map<string, Session>, id: string, sessions': map<string, Session>) {
    forall s :: s in sessions' && (s != id || sessions'[s].state == Active) ==>
      s in sessions && sessions'[s] == sessions[s]
  }

  ghost predicate RowSet(sessions: map<string, Session>, id: string, sessions': map<string, Session>) {
    id in sessions' && sessions' == sessions[id := sessions'[id]] && sessions'[id].state != Active
  }

  lemma RejectTouches(start: Tables, t: Tables, id: string, a: Activation, stored: Option<string>, code: Code)
    requires id in t.sessions
    ensures var x := Reject(start, t, id, a, stored, code);
      && x.Raised?
      && (x.tables == start
          || (x.tables.tickets == t.tickets && RowSet(t.sessions, id, x.tables.sessions)))
  {
    hide Refuse;
    RefusesAlways(start, id, a.remote);
    var denied := WithSession(t, id, RevokeRow(t.sessions[id]));
    RefuseSame(start, denied, id, a.remote, stored, code);
    assert denied.sessions == t.sessions[id := denied.sessions[id]];
  }

  lemma AdmitTouches(t: Tables, id: string, a: Activation, earliest: int, r: Readings)
    requires id in t.sessions
    ensures var x := Admit(t, id, a, earliest, r);
      && x.tables.tickets == t.tickets
      && (forall s :: s in x.tables.sessions && s != id ==> s in t.sessions && x.tables.sessions[s] == t.sessions[s])
      && (x.Raised? ==> NoneActivated(t.sessions, id, x.tables.sessions))
  {
    hide AttemptWindow, Reject;
    forall t': Tables, code | id in t'.sessions
      ensures var x := Reject(t, t', id, a, t.sessions[id].remote, code);
        && x.Raised?
        && (x.tables == t
            || (x.tables.tickets == t'.tickets && RowSet(t'.sessions, id, x.tables.sessions)))
    {
      RejectTouches(t, t', id, a, t.sessions[id].remote, code);
    }
  }

  lemma DenyTouches(t: Tables, id: string)
    requires id in t.sessions
    ensures var t' := DenyLocally(t, id);
      t'.tickets == CloseIssued(t.tickets, id, TicketRevoked) && NoneActivated(t.sessions, id, t'.sessions)
  {
    hide CloseIssued;
  }

  lemma SessionsRest(sessions: map<string, Session>, id: string)
    ensures NoneActivated(sessions, id, sessions)
  {
  }

  /** Whatever a result does, another session keeps its row, and tickets are at most closed. */
  lemma ResultTouches(t: Tables, id: string, attempt: string, a: Activation, earliest: int, r: Readings)
    ensures var x := CommitActivation(t, id, attempt, a, earliest, r);
      && (x.tables.tickets == t.tickets || x.tables.tickets == CloseIssued(t.tickets, id, TicketRevoked))
      && (forall s :: s in x.tables.sessions && s != id ==> s in t.sessions && x.tables.sessions[s] == t.sessions[s])
      && (x.Raised? ==> NoneActivated(t.sessions, id, x.tables.sessions))
  {
    hide Refuse, CloseIssued, OwnedElsewhere, Admit, DenyLocally, NoneActivated;
    SessionsRest(t.sessions, id);
    if id in t.sessions {
      RefusesAlways(t, id, a.remote);
      DenyTouches(t, id);
      RefuseSame(t, DenyLocally(t, id), id, a.remote, t.sessions[id].remote, OwnerConflict);
      RefuseSame(t, DenyLocally(t, id), id, a.remote, t.sessions[id].remote, IdentityConflict);
      RefuseSame(t, t, id, a.remote, t.sessions[id].remote, RevokedOrStale);
      AdmitTouches(t, id, a, earliest, r);
    }
    OthersKept(t.sessions, id, CommitActivation(t, id, attempt, a, earliest, r).tables.sessions);
  }

  lemma OthersKept(sessions: map<string, Session>, id: string, sessions': map<string, Session>)
    ensures NoneActivated(sessions, id, sessions') ==>
      forall s :: s in sessions' && s != id ==> s in sessions && sessions'[s] == sessions[s]
  {
  }

  lemma ExpireTouches(start: Tables, t: Tables, id: string, now: int)
    requires id in t.sessions
    ensures var x := ExpirePending(start, t, id, now);
      x.tables == start || (x.tables.tickets == t.tickets && NoneActivated(t.sessions, id, x.tables.sessions))
  {
    hide AttemptWindow, QueueRevoke;
    QueueSame(WithSession(t, id, RevokeRow(t.sessions[id])), id, t.sessions[id].remote);
  }

  lemma GiveUpTouches(t: Tables, id: string, attempt: string, now: int)
    ensures var t' := GiveUp(t, id, attempt, now).tables;
      t'.tickets == t.tickets && NoneActivated(t.sessions, id, t'.sessions)
  {
    hide ExpirePending;
    if id in t.sessions {
      ExpireTouches(t, t, id, now);
      ExpireTouches(t, WithSession(t, id, t.sessions[id].(state := Indeterminate)), id, now);
    }
  }

  lemma ReconcileTouches(t: Tables, id: string, r: Readings)
    ensures var t' := BeginReconcile(t, id, r).tables;
      t'.tickets == t.tickets && NoneActivated(t.sessions, id, t'.sessions)
  {
    hide ExpirePending;
    if id in t.sessions { ExpireTouches(t, t, id, r.later); }
  }

  lemma RevokeTouches(t: Tables, id: string)
    ensures var t' := Revoke(t, id).tables;
      && (t'.tickets == t.tickets || t'.tickets == CloseIssued(t.tickets, id, TicketRevoked))
      && NoneActivated(t.sessions, id, t'.sessions)
  {
    hide CloseIssued, QueueRevoke;
    if id in t.sessions { QueueSame(DenyLocally(t, id), id, t.sessions[id].remote); }
  }

  /** Only issuing and activating make, spend or supersede tickets; every other step at most revokes issued ones. */
  lemma TicketsMoveOnly(sys: System, step: Step)
    requires !step.Issue? && !step.Activate?
    ensures var tickets := sys.tables.tickets; var tickets' := Next(sys, step).tables.tickets;
      tickets' == tickets || exists id :: tickets' == CloseIssued(tickets, id, TicketRevoked)
  {
    hide GiveUp, CommitActivation, BeginReconcile, Revoke, BeginDrain, DrainDispatches, FinishDrain, MayInvoke,
      AnswersAtOnce, Claimed, ValidActivation, CloseIssued;
    var t := sys.tables;
    match step
    case Reconcile(id, r) => ReconcileTouches(t, id, r);
    case Timeout(token, now) =>
      if token in sys.calls { GiveUpTouches(t, token.session, sys.calls[token].attempt, now); }
    case Malformed(token, now) =>
      if token in sys.calls { GiveUpTouches(t, token.session, sys.calls[token].attempt, now); }
    case Result(token, a, r) =>
      if token in sys.calls {
        ResultTouches(t, token.session, sys.calls[token].attempt, a, sys.calls[token].earliest, r);
      }
    case Deny(id) => RevokeTouches(t, id);
    case Drain(job) => DrainDecides(t, job);
    case Drained(token, isNone, adapter) =>
      if token.RevokeCall? { FinishDecides(t, Known(token.remote), token.session, token.remote, adapter); }
    case _ =>
  }

  /** This step issued the ticket of this row, in the window it gave it. */
  ghost predicate IssuedBy(step: Step, d: string, row: Ticket) {
    && step.Issue? && step.digest == d && row.session == step.id && row.subject == step.subject
    && row.expires == step.r.now + step.ttl && 0 <= step.r.now <= step.r.later < row.expires
  }

  /** This step, taken in sys, spent the ticket in time on a session of the same subject that was not begun. */
  ghost predicate SpentBy(sys: System, step: Step, d: string, row: Ticket) {
    && step.Activate? && step.digest == d && step.id == row.session && step.subject == row.subject
    && d in sys.tables.tickets && sys.tables.tickets[d] == row.(state := Issued)
    && 0 <= step.r.now <= step.r.later < row.expires && !step.r.late
    && row.session in sys.tables.sessions && sys.tables.sessions[row.session].state == New
    && sys.tables.sessions[row.session].subject == row.subject && row.session !in sys.tables.attempts
  }

  lemma TicketAppears(sys: System, step: Step, d: string)
    requires d in Next(sys, step).tables.tickets
    ensures var row := Next(sys, step).tables.tickets[d];
      || (IssuedBy(step, d, row) && row.state == Issued)
      || (d in sys.tables.tickets && sys.tables.tickets[d].(state := row.state) == row
          && (row.state == Consumed ==> sys.tables.tickets[d] == row || SpentBy(sys, step, d, row)))
  {
    hide GiveUp, CommitActivation, BeginReconcile, Revoke, BeginDrain, DrainDispatches, FinishDrain, MayInvoke,
      AnswersAtOnce, Claimed, ValidActivation, IssueTicket, BeginActivate;
    var t := sys.tables;
    match step
    case Issue(digest, subject, id, ttl, capacity, r) => IssueDecides(t, digest, subject, id, ttl, capacity, r);
    case Activate(digest, subject, id, attempt, r) => ActivateDecides(t, digest, subject, id, attempt, r);
    case _ => TicketsMoveOnly(sys, step);
  }

  /** Every ticket of a run was issued by one step, and every spent one was spent in time by another. */
  lemma {:induction false} TicketStory(lookups: int, revokes: int, steps: seq<Step>, d: string)
    requires d in Run(Start(lookups, revokes), steps).tables.tickets
    ensures var row := Run(Start(lookups, revokes), steps).tables.tickets[d];
      && (exists i :: 0 <= i < |steps| && IssuedBy(steps[i], d, row))
      && (row.state == Consumed ==>
            exists j :: 0 <= j < |steps| && SpentBy(Run(Start(lookups, revokes), steps[..j]), steps[j], d, row))
    decreases |steps|
  {
    hide Next, IssuedBy, SpentBy;
    var start := Start(lookups, revokes);
    if steps == [] {
      assert false;
    } else {
      var n := |steps| - 1;
      var sys := Run(start, steps[..n]);
      RunLast(start, steps);
      TicketAppears(sys, steps[n], d);
      var row := Run(start, steps).tables.tickets[d];
      if !(IssuedBy(steps[n], d, row) && row.state == Issued) {
        TicketStory(lookups, revokes, steps[..n], d);
        var was := sys.tables.tickets[d];
        var i :| 0 <= i < n && IssuedBy(steps[..n][i], d, was);
        SameIssue(steps[i], d, was, row);
        if row.state == Consumed && was == row {
          var j :| 0 <= j < n && SpentBy(Run(start, steps[..n][..j]), steps[..n][j], d, row);
          assert steps[..n][..j] == steps[..j];
        }
      }
    }
  }

  lemma SameIssue(step: Step, d: string, row: Ticket, row': Ticket)
    requires IssuedBy(step, d, row) && row' == row.(state := row'.state)
    ensures IssuedBy(step, d, row')
  {
  }

  /**
   * This step, taken in sys, made the session active: a result its worker had answered and its caller waited for, of
   * the session's own attempt, within the window of the ticket d it spent, with the identity the row now has.
   */
  ghost predicate AdmittedBy(sys: System, step: Step, s: string, d: string, row: Session) {
    && step.Result? && SessionCall(step.token) && step.token.session == s && step.token in sys.calls
    && sys.calls[step.token].waiting && sys.calls[step.token].worker == Invoked
    && row.remote == Some(step.activation.remote) && row.receipt == Some(step.activation.receipt)
    && OwnAttempt(sys.tables, s, sys.calls[step.token].attempt) && Pending(sys.tables.sessions[s])
    && sys.tables.sessions[s].subject == row.subject && NotAnothers(sys.tables, s, step.activation.remote)
    && Spent(sys.tables, s, d) && InWindow(sys.tables.tickets[d].expires, sys.calls[step.token].earliest, step.r)
  }

  lemma ResultAdmits(sys: System, step: Step, s: string)
    requires step.Result? && s in Next(sys, step).tables.sessions && Next(sys, step).tables.sessions[s].state == Active
    ensures var row := Next(sys, step).tables.sessions[s];
      || (s in sys.tables.sessions && sys.tables.sessions[s] == row)
      || exists d :: AdmittedBy(sys, step, s, d, row)
  {
    hide CommitActivation, Claimed, ValidActivation, InWindow, NotAnothers;
    var t, token := sys.tables, step.token;
    if token in sys.calls {
      var call := sys.calls[token];
      ResultTouches(t, token.session, call.attempt, step.activation, call.earliest, step.r);
      ResultDecides(t, token.session, call.attempt, step.activation, call.earliest, step.r);
      var x := CommitActivation(t, token.session, call.attempt, step.activation, call.earliest, step.r);
      if x.Committed? && s == token.session && t.sessions[s].state != Active {
        var d :| Spent(t, s, d) && InWindow(t.tickets[d].expires, call.earliest, step.r);
        var row := x.tables.sessions[s];
        if Next(sys, step) != sys { assert AdmittedBy(sys, step, s, d, row); }
      }
    }
  }

  /** A session becomes active by an admitted result alone, and keeps the identity it got while it is active. */
  lemma ActiveAppears(sys: System, step: Step, s: string)
    requires s in Next(sys, step).tables.sessions && Next(sys, step).tables.sessions[s].state == Active
    ensures var row := Next(sys, step).tables.sessions[s];
      || (s in sys.tables.sessions && row == sys.tables.sessions[s].(generation := row.generation))
      || exists d :: AdmittedBy(sys, step, s, d, row)
  {
    if step.Result? {
      ResultAdmits(sys, step, s);
    } else {
      hide GiveUp, CommitActivation, BeginReconcile, Revoke, BeginDrain, DrainDispatches, FinishDrain, MayInvoke,
        AnswersAtOnce, Claimed, ValidActivation, IssueTicket, BeginActivate, AdmittedBy;
      var t := sys.tables;
      match step
      case Issue(digest, subject, id, ttl, capacity, r) => IssueDecides(t, digest, subject, id, ttl, capacity, r);
      case Activate(digest, subject, id, attempt, r) => ActivateDecides(t, digest, subject, id, attempt, r);
      case Reconcile(id, r) => ReconcileTouches(t, id, r);
      case Timeout(token, now) =>
        if token in sys.calls { GiveUpTouches(t, token.session, sys.calls[token].attempt, now); }
      case Malformed(token, now) =>
        if token in sys.calls { GiveUpTouches(t, token.session, sys.calls[token].attempt, now); }
      case Deny(id) => RevokeTouches(t, id);
      case Drain(job) => DrainDecides(t, job);
      case Drained(token, isNone, adapter) =>
        if token.RevokeCall? { FinishDecides(t, Known(token.remote), token.session, token.remote, adapter); }
      case _ =>
    }
  }

  /** Over every run an active session was admitted by one result, under a ticket that is still its spent one. */
  lemma {:induction false} ActiveWasAdmitted(lookups: int, revokes: int, steps: seq<Step>, s: string)
    requires 1 <= lookups <= 32 && 1 <= revokes <= 32
    requires var t := Run(Start(lookups, revokes), steps).tables; s in t.sessions && t.sessions[s].state == Active
    ensures var t := Run(Start(lookups, revokes), steps).tables;
      exists k, d :: && 0 <= k < |steps| && SpentOn(t, s, d)
                     && AdmittedBy(Run(Start(lookups, revokes), steps[..k]), steps[k], s, d, t.sessions[s])
                     && SameTicket(Run(Start(lookups, revokes), steps[..k]).tables, t, d)
    decreases |steps|
  {
    hide Next, AdmittedBy, SystemInv, Forward, SpentOn;
    var start := Start(lookups, revokes);
    if steps == [] {
      assert false;
    } else {
      var n := |steps| - 1;
      var sys := Run(start, steps[..n]);
      StartFits(lookups, revokes);
      RunKeeps(start, steps[..n]);
      RunLast(start, steps);
      var sys' := Next(sys, steps[n]);
      NextForward(sys, steps[n]);
      ActiveAppears(sys, steps[n], s);
      var row := sys'.tables.sessions[s];
      if d :| AdmittedBy(sys, steps[n], s, d, row) {
        AdmittedSpent(sys, steps[n], s, d, row);
        SpentStays(sys.tables, sys'.tables, s, d);
      } else {
        ActiveWasAdmitted(lookups, revokes, steps[..n], s);
        var k, d :| && 0 <= k < n && SpentOn(sys.tables, s, d)
                    && AdmittedBy(Run(start, steps[..n][..k]), steps[..n][k], s, d, sys.tables.sessions[s])
                    && SameTicket(Run(start, steps[..n][..k]).tables, sys.tables, d);
        assert steps[..n][..k] == steps[..k];
        SameAdmission(Run(start, steps[..k]), steps[k], s, d, sys.tables.sessions[s], row);
        SpentStays(sys.tables, sys'.tables, s, d);
      }
    }
  }

  predicate SameTicket(t: Tables, t': Tables, d: string) {
    d in t.tickets && d in t'.tickets && t.tickets[d] == t'.tickets[d]
  }

  lemma AdmittedSpent(sys: System, step: Step, s: string, d: string, row: Session)
    requires AdmittedBy(sys, step, s, d, row)
    ensures SpentOn(sys.tables, s, d)
  {
  }

  lemma SpentStays(t: Tables, t': Tables, s: string, d: string)
    requires SpentOn(t, s, d) && Forward(t, t')
    ensures SpentOn(t', s, d) && SameTicket(t, t', d)
  {
    hide AttemptsKept, JobsKept;
  }

  lemma SameAdmission(sys: System, step: Step, s: string, d: string, row: Session, row': Session)
    requires AdmittedBy(sys, step, s, d, row) && row' == row.(generation := row'.generation)
    ensures AdmittedBy(sys, step, s, d, row')
  {
  }

  /** The steps i, j and k of a run issued the ticket d, spent it, and admitted the result of the active session s. */
  ghost predicate Story(start: System, steps: seq<Step>, s: string, d: string, i: nat, j: nat, k: nat) {
    var t := Run(start, steps).tables;
    && i < |steps| && j < |steps| && k < |steps| && SpentOn(t, s, d)
    && IssuedBy(steps[i], d, t.tickets[d])
    && SpentBy(Run(start, steps[..j]), steps[j], d, t.tickets[d])
    && AdmittedBy(Run(start, steps[..k]), steps[k], s, d, t.sessions[s])
    && SameTicket(Run(start, steps[..k]).tables, t, d)
  }

  /**
   * The whole story of an active session, over every run: its ticket was issued to its subject for it, spent by that
   * subject on its one attempt within the ticket's window, and within that window too its attempt's result was
   * admitted, whose identity is the one it has.
   */
  lemma ActiveStory(lookups: int, revokes: int, steps: seq<Step>, s: string)
    requires 1 <= lookups <= 32 && 1 <= revokes <= 32
    requires var t := Run(Start(lookups, revokes), steps).tables; s in t.sessions && t.sessions[s].state == Active
    ensures exists d, i, j, k :: Story(Start(lookups, revokes), steps, s, d, i, j, k)
  {
    hide Run, Start, IssuedBy, SpentBy, AdmittedBy, SameTicket;
    ActiveWasAdmitted(lookups, revokes, steps, s);
    var start := Start(lookups, revokes);
    var t := Run(start, steps).tables;
    var k, d :| && 0 <= k < |steps| && SpentOn(t, s, d)
                && AdmittedBy(Run(start, steps[..k]), steps[k], s, d, t.sessions[s])
                && SameTicket(Run(start, steps[..k]).tables, t, d);
    TicketStory(lookups, revokes, steps, d);
    var i :| 0 <= i < |steps| && IssuedBy(steps[i], d, t.tickets[d]);
    var j :| 0 <= j < |steps| && SpentBy(Run(start, steps[..j]), steps[j], d, t.tickets[d]);
    assert Story(start, steps, s, d, i, j, k);
  }

  // ----- opening -----

  /**
   * A store that exists opens exactly under a sound configuration, which is the one it was made with, and with one
   * counter within its limit for each session and each known cleanup job, and none else.
   */
  lemma ReopenDecides(t: Tables, scope: string, o: Opening)
    ensures ReopenFault(t, scope, o) == None <==>
      && 1 <= o.ttl <= 300 && 1 <= o.records <= 1000000 && 1 <= o.workers <= 16
      && 1 <= o.lookups == t.lookupLimit <= 32 && 1 <= o.revokes == t.revokeLimit <= 32
      && Label(o.binding, 128) && (o.declared == None || o.declared == Some(o.binding)) && scope == o.binding
      && (forall s :: s in t.sessions <==> s in t.lookups)
      && (forall s :: s in t.lookups ==> 0 <= t.lookups[s] <= t.lookupLimit)
      && (forall j :: j in t.revokes <==> j in t.outbox && t.outbox[j].remote.Some?)
      && (forall j :: j in t.revokes ==> 0 <= t.revokes[j] <= t.revokeLimit)
  {
    hide Label;
    var known := set j | j in t.outbox && t.outbox[j].remote.Some?;
    assert t.lookups.Keys == t.sessions.Keys <==> forall s :: s in t.sessions <==> s in t.lookups by {
      assert forall s :: s in t.lookups.Keys <==> s in t.lookups;
      assert forall s :: s in t.sessions.Keys <==> s in t.sessions;
    }
    assert t.revokes.Keys == known <==> forall j :: j in t.revokes <==> j in t.outbox && t.outbox[j].remote.Some? by {
      assert forall j :: j in t.revokes.Keys <==> j in t.revokes;
      assert forall j :: j in known <==> j in t.outbox && t.outbox[j].remote.Some?;
    }
  }

  // ----- refusals -----

  /** An error of issuing says what is so: of the names, of the rows or of the clock. */
  lemma IssueRefusals(t: Tables, digest: string, subject: string, id: string, ttl: int, capacity: int, r: Readings)
    ensures var x := IssueTicket(t, digest, subject, id, ttl, capacity, r);
      x.Raised? ==> match x.code
        case BindingInvalid => !Identifier(subject) || !Identifier(id)
        case AdapterMismatch => !r.adapter || !r.laterAdapter
        case ClockInvalid => !Timestamp(r.now) || !Timestamp(r.later)
        case TicketExpiryInvalid => !Timestamp(r.now + ttl)
        case SubjectConflict => id in t.sessions && t.sessions[id].subject != subject
        case SessionNotNew => id in t.sessions && t.sessions[id].state != New
        case CapacityExhausted => |t.tickets| >= capacity
        case IntegrityError => digest in t.tickets || (id !in t.sessions && id in t.lookups)
        case CounterInvalid => id in t.sessions && (id in t.lookups ==> !(0 <= t.lookups[id] <= t.lookupLimit))
        case ClockRollback => r.later < r.now
        case TicketExpired => r.now + ttl <= r.later
        case _ => false
  {
    hide Identifier, CloseIssued;
  }

  /** So does one of beginning an attempt. */
  lemma ActivateRefusals(t: Tables, digest: string, subject: string, id: string, attempt: string, r: Readings)
    ensures var x := BeginActivate(t, digest, subject, id, attempt, r);
      x.Raised? ==> match x.code
        case AdapterMismatch => !r.adapter || !r.laterAdapter
        case ClockInvalid => !Timestamp(r.now) || !Timestamp(r.later)
        case TicketInvalid =>
          digest in t.tickets ==> t.tickets[digest].subject != subject || t.tickets[digest].session != id
        case TicketExpired =>
          digest in t.tickets && (t.tickets[digest].expires <= r.later || t.tickets[digest].expires <= r.now
                                  || !Timestamp(t.tickets[digest].expires))
        case TicketReplayed => digest in t.tickets && t.tickets[digest].state != Issued
        case SessionUnknown => id !in t.sessions
        case SessionNotNew => id in t.sessions && (t.sessions[id].subject != subject || t.sessions[id].state != New)
        case CounterInvalid => id in t.lookups ==> !(0 <= t.lookups[id] <= t.lookupLimit)
        case IntegrityError => id in t.attempts || exists s :: s in t.attempts && t.attempts[s].id == attempt
        case ClockRollback => r.later < r.now
        case DeadlineExpired => r.late
        case _ => false
  {
    hide CloseIssued;
  }
}
