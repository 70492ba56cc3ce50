/** Transaction by transaction: the invariant is kept, nothing moves back, and no integrity error is reached. */
module RealtimeTransactions {
  import opened Base
  import opened RealtimeTables
  import opened RealtimeInvariant
  import opened RealtimeProgress

  /** What every transaction leaves: a valid, later state, with no new claim but on the listed remote sessions. */
  ghost predicate Sound(t: Tables, t': Tables, id: string, remotes: seq<string>) {
    Inv(t') && Forward(t, t') && ClaimsOnly(t, t', id, remotes)
  }

  /** The errors that would mean the store's own records disagree. */
  ghost predicate Corruption(code: Code) {
    code in {CleanupBindingInvalid, CounterInvalid, AttemptMissing, AttemptTicketInvalid}
  }

  lemma SoundRefl(t: Tables, id: string)
    requires Inv(t)
    ensures Sound(t, t, id, [])
  {
    hide Inv;
  }

  lemma SoundThen(a: Tables, b: Tables, c: Tables, id: string, remotes: seq<string>)
    requires Forward(a, b) && ClaimsOnly(a, b, id, []) && Sound(b, c, id, remotes)
    ensures Sound(a, c, id, remotes)
  {
    ForwardTransitive(a, b, c);
    hide Inv, Forward;
  }

  /** Exactly one consumed ticket stands behind an attempt, so its expiry is always found. */
  lemma AttemptHasExpiry(t: Tables, id: string)
    requires Inv(t) && id in t.attempts
    ensures AttemptExpiry(t, id).Some?
  {
    hide CustodyExcept, ExclusiveOwners, SessionsFit, JobsFit, RevokesFit, JobSessionsFit, LookupsFit;
    var spent := set d | d in t.tickets && ConsumedFor(t.tickets, t.sessions, d, id);
    var d :| ConsumedFor(t.tickets, t.sessions, d, id);
    assert spent == {d};
  }

  lemma SetRowMoves(t: Tables, id: string, row: Session)
    requires id in t.sessions && RowForward(t.sessions[id], row) && CustodyExcept(t, {})
    ensures var t' := WithSession(t, id, row);
      && Forward(t, t') && CustodyExcept(t', {id})
      && ClaimsOnly(t, t', id, if row.remote.Some? then [row.remote.value] else [])
      && (row.remote == t.sessions[id].remote ==> ClaimsOnly(t, t', id, []))
  {
    hide CustodyOf;
  }

  lemma PendingRowFit(t: Tables, id: string)
    requires Inv(t) && id in t.sessions
    ensures SessionFit(id, t.sessions[id], t.attempts)
    ensures t.sessions[id].state.New? || NoIssued(t.tickets, id)
    ensures id in t.attempts ==> t.attempts[id].subject == t.sessions[id].subject
  {
    hide CustodyExcept, ExclusiveOwners, JobsFit, RevokesFit, JobSessionsFit, LookupsFit, AttemptsPaid, TicketsSingle,
      SessionFit;
  }

  /** Revoking the row of a session that reached the provider leaves only its cleanup custody to be taken. */
  lemma DenyPending(t: Tables, id: string)
    requires Inv(t) && id in t.sessions && id in t.attempts && !t.sessions[id].state.New?
    ensures var t' := WithSession(t, id, RevokeRow(t.sessions[id]));
      Core(t') && Denied(t', id) && CustodyExcept(t', {id}) && Forward(t, t') && ClaimsOnly(t, t', id, [])
  {
    hide CustodyExcept, Forward, ClaimsOnly, ExclusiveOwners, JobsFit, RevokesFit, JobSessionsFit, LookupsFit,
      AttemptsFit, AttemptsPaid, TicketsSingle, TicketsFit, SessionsFit, NoIssued;
    var row := RevokeRow(t.sessions[id]);
    PendingRowFit(t, id);
    SetRowMoves(t, id, row);
    SetRowKeeps(t, id, row);
    hide Core;
  }

  lemma ExpirePendingKeeps(start: Tables, t: Tables, id: string, now: int, x: Tx)
    requires Inv(t) && id in t.sessions && x == ExpirePending(start, t, id, now)
    ensures x.Committed? && Sound(t, x.tables, id, [])
  {
    hide Inv, Core, CustodyExcept, Forward, QueueRevoke, AttemptWindow, ClaimsOnly;
    SoundRefl(t, id);
    var row := t.sessions[id];
    if row.state.Activating? || row.state.Indeterminate? {
      PendingHasAttempt(t, id);
      DenyPending(t, id);
      var t' := WithSession(t, id, RevokeRow(row));
      QueueStored(t', id, QueueRevoke(t', id, row.remote));
      if x.tables != t { SoundThen(t, t', x.tables, id, []); }
    }
  }

  lemma PendingHasAttempt(t: Tables, id: string)
    requires Inv(t) && id in t.sessions
    requires PendingState(t.sessions[id].state) || t.sessions[id].state.Active? || t.sessions[id].remote.Some?
    ensures id in t.attempts
  {
    hide CustodyExcept, ExclusiveOwners, JobsFit, RevokesFit, JobSessionsFit, LookupsFit, AttemptsPaid, TicketsSingle,
      TicketsFit;
    assert SessionFit(id, t.sessions[id], t.attempts);
  }

  // ----- activation -----

  /** Moving a session that reached the provider to another live state. */
  lemma SetLiveRow(t: Tables, id: string, row: Session)
    requires Inv(t) && id in t.sessions && !t.sessions[id].state.New? && !row.state.Revoked?
    requires SessionFit(id, row, t.attempts) && RowForward(t.sessions[id], row)
    requires row.remote == t.sessions[id].remote
          || (row.remote.Some? && !OwnedElsewhere(t.sessions, t.outbox, id, row.remote.value))
    ensures Sound(t, WithSession(t, id, row), id, if row.remote.Some? then [row.remote.value] else [])
    ensures row.remote == t.sessions[id].remote ==> Sound(t, WithSession(t, id, row), id, [])
  {
    hide SessionFit, OwnedElsewhere, Core;
    PendingRowFit(t, id);
    SetRowMoves(t, id, row);
    SetRowKeeps(t, id, row);
    NoExemption(WithSession(t, id, row), id);
    hide CustodyExcept, Forward, ClaimsOnly;
  }

  lemma GiveUpKeeps(t: Tables, id: string, attempt: string, now: int, x: Tx)
    requires Inv(t) && x == GiveUp(t, id, attempt, now)
    ensures Sound(t, x.tables, id, []) && (x.Raised? ==> x.code == SessionUnknown)
  {
    hide Inv, Forward, ClaimsOnly, ExpirePending;
    SoundRefl(t, id);
    if id in t.sessions {
      var row := t.sessions[id];
      if row.state.Activating? && id in t.attempts && t.attempts[id].id == attempt {
        var marked := WithSession(t, id, row.(state := Indeterminate));
        MarkKeeps(t, id);
        ExpirePendingKeeps(t, marked, id, now, x);
        SoundThen(t, marked, x.tables, id, []);
      } else {
        ExpirePendingKeeps(t, t, id, now, x);
      }
    }
  }

  lemma MarkKeeps(t: Tables, id: string)
    requires Inv(t) && id in t.sessions && t.sessions[id].state.Activating?
    ensures Sound(t, WithSession(t, id, t.sessions[id].(state := Indeterminate)), id, [])
  {
    PendingRowFit(t, id);
    SetLiveRow(t, id, t.sessions[id].(state := Indeterminate));
    hide Core, CustodyExcept, Sound;
  }

  lemma BeginReconcileKeeps(t: Tables, id: string, r: Readings, x: Tx)
    requires Inv(t) && x == BeginReconcile(t, id, r)
    ensures Sound(t, x.tables, id, []) && (x.Raised? ==> !Corruption(x.code))
    ensures x.Committed? && !AnswersAtOnce(t, id) ==>
              id in t.lookups && x.tables.lookups == t.lookups[id := t.lookups[id] + 1] && id in x.tables.attempts
  {
    hide Inv, Forward, ClaimsOnly, ExpirePending;
    SoundRefl(t, id);
    if id in t.sessions && !AnswersAtOnce(t, id) && !t.sessions[id].state.New? {
      if PendingState(t.sessions[id].state) { PendingHasAttempt(t, id); }
      if id in t.attempts {
        var e := ExpirePending(t, t, id, r.later);
        ExpirePendingKeeps(t, t, id, r.later, e);
        ExpiryKeepsLookups(t, id, r.later);
        LookupFit(e.tables, id);
        if x.Committed? {
          PayLookup(e.tables, id);
          SoundThen(t, e.tables, x.tables, id, []);
        }
      }
    }
  }

  lemma ExpiryKeepsLookups(t: Tables, id: string, now: int)
    requires id in t.sessions
    ensures ExpirePending(t, t, id, now).tables.lookups == t.lookups
    ensures ExpirePending(t, t, id, now).tables.lookupLimit == t.lookupLimit
    ensures ExpirePending(t, t, id, now).tables.attempts == t.attempts
    ensures id in ExpirePending(t, t, id, now).tables.sessions
  {
    hide AttemptWindow, OwnedElsewhere, QueueRevoke;
    var row := t.sessions[id];
    QueueKeepsLookups(WithSession(t, id, RevokeRow(row)), id, row.remote);
  }

  lemma QueueKeepsLookups(t: Tables, id: string, remote: Option<string>)
    requires id in t.sessions
    ensures var q := QueueRevoke(t, id, remote);
      q.Queued? ==>
        && q.tables.lookups == t.lookups && q.tables.lookupLimit == t.lookupLimit
        && q.tables.attempts == t.attempts && q.tables.sessions == t.sessions
  {
    hide OwnedElsewhere;
  }

  lemma LookupFit(t: Tables, id: string)
    requires Inv(t) && id in t.sessions
    ensures CounterFit(t.lookups, id, t.lookupLimit)
  {
    hide CustodyExcept, ExclusiveOwners, JobsFit, RevokesFit, JobSessionsFit, SessionsFit, AttemptsPaid,
      TicketsSingle, TicketsFit;
  }

  lemma PayLookup(t: Tables, id: string)
    requires Inv(t) && id in t.lookups && t.lookups[id] < t.lookupLimit
    ensures Sound(t, t.(lookups := t.lookups[id := t.lookups[id] + 1]), id, [])
  {
    hide CustodyOf, ExclusiveOwners, JobsFit, RevokesFit, JobSessionsFit, SessionsFit, AttemptsPaid, AttemptsFit,
      TicketsSingle, TicketsFit;
  }

  // ----- tickets -----

  lemma AddSession(t: Tables, id: string, subject: string)
    requires Inv(t) && id !in t.sessions && Identifier(id)
    ensures Sound(t,
                  t.(sessions := t.sessions[id := Session(subject, New, 1, None, None)], lookups := t.lookups[id := 0]),
                  id, [])
  {
    var row := Session(subject, New, 1, None, None);
    var t' := t.(sessions := t.sessions[id := row], lookups := t.lookups[id := 0]);
    AddSessionFits(t, id, row);
    AddSessionMoves(t, id, row, t.lookups[id := 0]);
    hide CustodyExcept, ExclusiveOwners, JobSessionsFit, SessionsFit, LookupsFit, AttemptsFit, AttemptsPaid,
      TicketsSingle, TicketsFit, JobsFit, RevokesFit, Forward, ClaimsOnly;
  }

  lemma AddSessionFits(t: Tables, id: string, row: Session)
    requires Core(t) && id !in t.sessions && Identifier(id) && row.state.New? && row.remote.None? && row.receipt.None?
    ensures SessionsFit(t.sessions[id := row], t.attempts)
    ensures LookupsFit(t.lookups[id := 0], t.sessions[id := row], t.lookupLimit)
    ensures JobSessionsFit(t.outbox, t.sessions[id := row], t.attempts)
    ensures ExclusiveOwners(t.sessions[id := row], t.outbox)
    ensures AttemptsFit(t.attempts, t.sessions[id := row]) && AttemptsPaid(t.attempts, t.tickets, t.sessions[id := row])
    ensures TicketsFit(t.tickets, t.sessions[id := row], t.attempts)
  {
    hide JobsFit, RevokesFit, TicketsSingle, Identifier;
    var sessions := t.sessions[id := row];
    assert forall d, s :: ConsumedFor(t.tickets, t.sessions, d, s) ==> ConsumedFor(t.tickets, sessions, d, s);
  }

  lemma AddSessionMoves(t: Tables, id: string, row: Session, lookups: map<string, int>)
    requires Inv(t) && id !in t.sessions && row.state.New? && row.remote.None? && lookups == t.lookups[id := 0]
    ensures var t' := t.(sessions := t.sessions[id := row], lookups := lookups);
      CustodyExcept(t', {}) && Forward(t, t') && ClaimsOnly(t, t', id, [])
  {
    hide ExclusiveOwners, JobSessionsFit, SessionsFit, AttemptsFit, AttemptsPaid, TicketsSingle, TicketsFit, JobsFit,
      RevokesFit, KnownJobOf;
    assert CustodyOf(id, row, t.attempts, t.outbox);
  }

  lemma AddTicket(t: Tables, digest: string, row: Ticket)
    requires Inv(t) && digest !in t.tickets && row.session in t.sessions && t.sessions[row.session].state.New?
    requires row.subject == t.sessions[row.session].subject && Timestamp(row.expires) && row.state.Issued?
    ensures Sound(t, t.(tickets := CloseIssued(t.tickets, row.session, Superseded)[digest := row]), row.session, [])
  {
    hide CustodyExcept, ExclusiveOwners, JobSessionsFit, SessionsFit, LookupsFit, AttemptsFit, AttemptsPaid,
      TicketsSingle, TicketsFit, JobsFit, RevokesFit, Forward, ClaimsOnly, NoIssued;
    CloseIssuedKeeps(t, row.session, Superseded);
    var closed := t.(tickets := CloseIssued(t.tickets, row.session, Superseded));
    PutTicketFits(closed, digest, row);
    TicketsMove(t, closed.tickets[digest := row]);
  }

  lemma PutTicketFits(t: Tables, digest: string, row: Ticket)
    requires Core(t) && digest !in t.tickets && row.session in t.sessions && t.sessions[row.session].state.New?
    requires row.subject == t.sessions[row.session].subject && Timestamp(row.expires) && row.state.Issued?
    requires NoIssued(t.tickets, row.session)
    ensures var tickets := t.tickets[digest := row];
      TicketsFit(tickets, t.sessions, t.attempts) && TicketsSingle(tickets)
        && AttemptsPaid(t.attempts, tickets, t.sessions)
  {
    hide ExclusiveOwners, JobSessionsFit, SessionsFit, LookupsFit, AttemptsFit, JobsFit, RevokesFit;
    var tickets := t.tickets[digest := row];
    assert forall d, s :: ConsumedFor(t.tickets, t.sessions, d, s) ==> ConsumedFor(tickets, t.sessions, d, s);
  }

  lemma TicketsMove(t: Tables, tickets: map<string, Ticket>)
    requires CustodyExcept(t, {}) && TicketsForward(t.tickets, tickets)
    ensures var t' := t.(tickets := tickets); CustodyExcept(t', {}) && Forward(t, t') && ClaimsOnly(t, t', "", [])
    ensures forall id :: ClaimsOnly(t, t.(tickets := tickets), id, [])
  {
    hide CustodyOf, TicketsForward;
  }

  lemma IssueTicketKeeps(t: Tables, digest: string, subject: string, id: string, ttl: int, capacity: int, r: Readings,
                         x: Tx)
    requires Inv(t) && x == IssueTicket(t, digest, subject, id, ttl, capacity, r)
    ensures Sound(t, x.tables, id, []) && (x.Raised? ==> !Corruption(x.code))
  {
    hide Inv, Forward, ClaimsOnly, CloseIssued;
    SoundRefl(t, id);
    if x.Raised? {
      if id in t.sessions { LookupFit(t, id); }
    } else {
      var row := Ticket(subject, id, r.now + ttl, Issued);
      if id in t.sessions {
        AddTicket(t, digest, row);
      } else {
        AddSession(t, id, subject);
        var present :=
          t.(sessions := t.sessions[id := Session(subject, New, 1, None, None)], lookups := t.lookups[id := 0]);
        AddTicket(present, digest, row);
        SoundThen(t, present, x.tables, id, []);
      }
    }
  }

  /** The tables after an activation reservation. */
  function Reserved(t: Tables, digest: string, id: string, attempt: string): Tables
    requires digest in t.tickets && id in t.sessions
  {
    t.(tickets := CloseIssued(t.tickets[digest := t.tickets[digest].(state := Consumed)], id, Superseded),
       attempts := t.attempts[id := Attempt(attempt, t.sessions[id].subject, t.sessions[id].generation)],
       sessions := t.sessions[id := t.sessions[id].(state := Activating)])
  }

  ghost predicate Reservable(t: Tables, digest: string, id: string, attempt: string) {
    && digest in t.tickets && id in t.sessions && t.sessions[id].state.New? && id !in t.attempts
    && t.tickets[digest].session == id && t.tickets[digest].state.Issued?
    && t.tickets[digest].subject == t.sessions[id].subject
    && forall s :: s in t.attempts ==> t.attempts[s].id != attempt
  }

  lemma ReserveSessions(t: Tables, digest: string, id: string, attempt: string)
    requires SessionsFit(t.sessions, t.attempts) && LookupsFit(t.lookups, t.sessions, t.lookupLimit)
    requires AttemptsFit(t.attempts, t.sessions) && Reservable(t, digest, id, attempt)
    ensures var t' := Reserved(t, digest, id, attempt);
      && SessionsFit(t'.sessions, t'.attempts) && LookupsFit(t'.lookups, t'.sessions, t'.lookupLimit)
      && AttemptsFit(t'.attempts, t'.sessions)
  {
    hide Identifier, CloseIssued, SessionsFit, LookupsFit, AttemptsFit;
    ReserveRows(t, digest, id, attempt);
    ReserveLookups(t, digest, id, attempt);
  }

  lemma ReserveRows(t: Tables, digest: string, id: string, attempt: string)
    requires SessionsFit(t.sessions, t.attempts) && AttemptsFit(t.attempts, t.sessions)
    requires Reservable(t, digest, id, attempt)
    ensures var t' := Reserved(t, digest, id, attempt);
      SessionsFit(t'.sessions, t'.attempts) && AttemptsFit(t'.attempts, t'.sessions)
  {
    hide Identifier, CloseIssued;
  }

  lemma ReserveLookups(t: Tables, digest: string, id: string, attempt: string)
    requires LookupsFit(t.lookups, t.sessions, t.lookupLimit) && Reservable(t, digest, id, attempt)
    ensures var t' := Reserved(t, digest, id, attempt); LookupsFit(t'.lookups, t'.sessions, t'.lookupLimit)
  {
    hide Identifier, CloseIssued;
  }

  lemma ReserveJobs(t: Tables, digest: string, id: string, attempt: string)
    requires JobSessionsFit(t.outbox, t.sessions, t.attempts) && ExclusiveOwners(t.sessions, t.outbox)
    requires Reservable(t, digest, id, attempt)
    ensures var t' := Reserved(t, digest, id, attempt);
      JobSessionsFit(t'.outbox, t'.sessions, t'.attempts) && ExclusiveOwners(t'.sessions, t'.outbox)
  {
    hide CloseIssued;
  }

  lemma ReserveTickets(t: Tables, digest: string, id: string, attempt: string)
    requires TicketsFit(t.tickets, t.sessions, t.attempts) && TicketsSingle(t.tickets)
    requires Reservable(t, digest, id, attempt)
    ensures var t' := Reserved(t, digest, id, attempt);
      TicketsFit(t'.tickets, t'.sessions, t'.attempts) && TicketsSingle(t'.tickets)
  {
  }

  lemma ReservePaid(t: Tables, digest: string, id: string, attempt: string)
    requires AttemptsPaid(t.attempts, t.tickets, t.sessions) && Reservable(t, digest, id, attempt)
    ensures var t' := Reserved(t, digest, id, attempt); AttemptsPaid(t'.attempts, t'.tickets, t'.sessions)
  {
    var t' := Reserved(t, digest, id, attempt);
    assert ConsumedFor(t'.tickets, t'.sessions, digest, id);
    assert forall d, s :: ConsumedFor(t.tickets, t.sessions, d, s) ==> ConsumedFor(t'.tickets, t'.sessions, d, s);
  }

  lemma ReserveMoves(t: Tables, digest: string, id: string, attempt: string)
    requires Inv(t) && Reservable(t, digest, id, attempt)
    ensures var t' := Reserved(t, digest, id, attempt);
      CustodyExcept(t', {}) && Forward(t, t') && ClaimsOnly(t, t', id, [])
  {
    hide ExclusiveOwners, JobSessionsFit, SessionsFit, LookupsFit, AttemptsFit, AttemptsPaid, TicketsSingle, TicketsFit,
      JobsFit, RevokesFit;
    var t' := Reserved(t, digest, id, attempt);
    forall s | s in t'.sessions ensures CustodyOf(s, t'.sessions[s], t'.attempts, t'.outbox) {
      assert CustodyOf(s, t.sessions[s], t.attempts, t.outbox);
    }
    hide CustodyOf;
  }

  lemma ReserveKeeps(t: Tables, digest: string, id: string, attempt: string)
    requires Inv(t) && Reservable(t, digest, id, attempt)
    ensures Sound(t, Reserved(t, digest, id, attempt), id, [])
  {
    ReserveSessions(t, digest, id, attempt);
    ReserveJobs(t, digest, id, attempt);
    ReserveTickets(t, digest, id, attempt);
    ReservePaid(t, digest, id, attempt);
    ReserveMoves(t, digest, id, attempt);
    hide CustodyExcept, ExclusiveOwners, JobSessionsFit, SessionsFit, LookupsFit, AttemptsFit, AttemptsPaid,
      TicketsSingle, TicketsFit, JobsFit, RevokesFit, Forward, ClaimsOnly, CloseIssued, Reservable;
  }

  lemma BeginActivateKeeps(t: Tables, digest: string, subject: string, id: string, attempt: string, r: Readings, x: Tx)
    requires Inv(t) && x == BeginActivate(t, digest, subject, id, attempt, r)
    ensures Sound(t, x.tables, id, []) && (x.Raised? ==> !Corruption(x.code))
    ensures x.Committed? ==> Reservable(t, digest, id, attempt) && x.tables == Reserved(t, digest, id, attempt)
  {
    hide Inv, Forward, ClaimsOnly, CloseIssued, Sound;
    SoundRefl(t, id);
    if id in t.sessions { LookupFit(t, id); }
    if x.Committed? { ReserveKeeps(t, digest, id, attempt); }
  }

  // ----- results -----

  lemma RejectKeeps(start: Tables, t: Tables, id: string, a: Activation, stored: Option<string>, code: Code, x: Tx)
    requires Inv(start) && id in start.sessions && id in t.sessions && x == Reject(start, t, id, a, stored, code)
    requires Exactly(start, id) && ValidActivation(a) && stored == start.sessions[id].remote
    requires !OwnedElsewhere(start.sessions, start.outbox, id, a.remote)
    requires t == start || t == WithSession(start, id, ActiveRow(start.sessions[id], a))
    requires stored.Some? ==> stored == Some(a.remote) && start.sessions[id].receipt == Some(a.receipt)
    ensures x.Raised? && x.code == code && Sound(start, x.tables, id, [a.remote])
  {
    hide Inv, Identifier, Forward, ClaimsOnly, OwnedElsewhere;
    if code.DeadlineExpired? {
      DeadlineRow(start, t, id, a);
    } else {
      RevokedAfterResult(start, t, id, a);
      RefuseKeeps(start, WithSession(t, id, RevokeRow(t.sessions[id])), id, a.remote, stored, code, x);
      SoundThenClaim(start, WithSession(t, id, RevokeRow(t.sessions[id])), x.tables, id, a.remote);
    }
  }

  function ActiveRow(row: Session, a: Activation): Session {
    row.(state := Active, remote := Some(a.remote), receipt := Some(a.receipt))
  }

  /** A session waiting for the result of its own current attempt. */
  ghost predicate Exactly(t: Tables, id: string) {
    && id in t.sessions && id in t.attempts && PendingState(t.sessions[id].state)
  }

  lemma SoundThenClaim(a: Tables, b: Tables, c: Tables, id: string, remote: string)
    requires Forward(a, b) && ClaimsOnly(a, b, id, [remote])
    requires Inv(c) && Forward(b, c) && ClaimsOnly(b, c, id, [remote])
    ensures Sound(a, c, id, [remote])
  {
    ForwardTransitive(a, b, c);
    hide Inv, Forward;
  }

  lemma WeakenClaims(t: Tables, t': Tables, id: string, remote: string)
    requires Sound(t, t', id, [])
    ensures Sound(t, t', id, [remote])
  {
    hide Inv, Forward;
  }

  lemma ActiveRowFit(t: Tables, id: string, a: Activation)
    requires Inv(t) && Exactly(t, id) && ValidActivation(a)
    ensures SessionFit(id, ActiveRow(t.sessions[id], a), t.attempts)
    ensures SessionFit(id, ActiveRow(t.sessions[id], a).(state := Indeterminate), t.attempts)
    ensures SessionFit(id, t.sessions[id].(state := Indeterminate), t.attempts)
    ensures SessionFit(id, RevokeRow(ActiveRow(t.sessions[id], a)), t.attempts)
  {
    PendingRowFit(t, id);
    hide Inv, Identifier;
  }

  lemma DeadlineRow(start: Tables, t: Tables, id: string, a: Activation)
    requires Inv(start) && Exactly(start, id) && ValidActivation(a)
    requires !OwnedElsewhere(start.sessions, start.outbox, id, a.remote)
    requires start.sessions[id].remote.Some? ==> start.sessions[id].remote == Some(a.remote)
    requires t == start || t == WithSession(start, id, ActiveRow(start.sessions[id], a))
    ensures Sound(start, WithSession(t, id, t.sessions[id].(state := Indeterminate)), id, [a.remote])
  {
    hide Inv, SessionFit, Identifier, Sound, OwnedElsewhere;
    ActiveRowFit(start, id, a);
    var row := t.sessions[id].(state := Indeterminate);
    SetLiveRow(start, id, row);
    assert WithSession(t, id, row) == WithSession(start, id, row);
    if row.remote.None? { WeakenClaims(start, WithSession(start, id, row), id, a.remote); }
  }

  lemma RevokedAfterResult(start: Tables, t: Tables, id: string, a: Activation)
    requires Inv(start) && Exactly(start, id) && ValidActivation(a)
    requires !OwnedElsewhere(start.sessions, start.outbox, id, a.remote)
    requires start.sessions[id].remote.Some? ==> start.sessions[id].remote == Some(a.remote)
    requires t == start || t == WithSession(start, id, ActiveRow(start.sessions[id], a))
    ensures var t' := WithSession(t, id, RevokeRow(t.sessions[id]));
      Core(t') && Denied(t', id) && CustodyExcept(t', {id}) && Forward(start, t')
        && ClaimsOnly(start, t', id, [a.remote])
  {
    hide SessionFit, CustodyExcept, Forward, Core, ClaimsOnly, OwnedElsewhere, Identifier;
    var row := RevokeRow(t.sessions[id]);
    PendingRowFit(start, id);
    if t == start {
      DenyPending(start, id);
      WidenClaims(start, WithSession(t, id, row), id, a.remote);
    } else {
      ActiveRowFit(start, id, a);
      assert WithSession(t, id, row) == WithSession(start, id, row);
      SetRowMoves(start, id, row);
      SetRowKeeps(start, id, row);
    }
  }

  lemma WidenClaims(t: Tables, t': Tables, id: string, remote: string)
    requires ClaimsOnly(t, t', id, [])
    ensures ClaimsOnly(t, t', id, [remote])
  {
  }

  lemma AdmitKeeps(t: Tables, id: string, a: Activation, earliest: int, r: Readings, x: Tx)
    requires Inv(t) && Exactly(t, id) && ValidActivation(a) && x == Admit(t, id, a, earliest, r)
    requires !OwnedElsewhere(t.sessions, t.outbox, id, a.remote)
    requires t.sessions[id].remote.Some? ==>
      t.sessions[id].remote == Some(a.remote) && t.sessions[id].receipt == Some(a.receipt)
    ensures Sound(t, x.tables, id, [a.remote]) && (x.Raised? ==> !Corruption(x.code))
  {
    hide Inv, Identifier, Sound, OwnedElsewhere, SessionFit, Reject;
    var row := t.sessions[id];
    var active := WithSession(t, id, ActiveRow(row, a));
    SoundRefl(t, id);
    WeakenClaims(t, t, id, a.remote);
    AttemptHasExpiry(t, id);
    match AttemptWindow(t, id, earliest, r.now, r.late)
    case Unfit(code) => RejectKeeps(t, t, id, a, row.remote, code, x);
    case Fresh(first) =>
      match AttemptWindow(t, id, first, r.later, r.laterLate)
      case Unfit(code) => RejectKeeps(t, active, id, a, row.remote, code, x);
      case Fresh(_) =>
        ActiveRowFit(t, id, a);
        SetLiveRow(t, id, ActiveRow(row, a));
  }

  /** Terminal local denial of any session, its issued tickets closed; only cleanup custody is left to take. */
  lemma DenyAny(t: Tables, id: string)
    requires Inv(t) && id in t.sessions
    ensures var row := t.sessions[id];
      var denied := if row.state.Revoked? then t else WithSession(t, id, RevokeRow(row));
      var t' := denied.(tickets := CloseIssued(t.tickets, id, TicketRevoked));
      && Core(t') && CustodyExcept(t', {id}) && Forward(t, t') && ClaimsOnly(t, t', id, [])
      && t'.sessions[id].state.Revoked? && t'.sessions[id].remote == row.remote && t'.attempts == t.attempts
  {
    hide CustodyExcept, Forward, Core, ClaimsOnly, CloseIssued, SessionFit, TicketsForward;
    var row := t.sessions[id];
    var closed := t.(tickets := CloseIssued(t.tickets, id, TicketRevoked));
    CloseIssuedKeeps(t, id, TicketRevoked);
    CloseIssuedForward(t.tickets, id, TicketRevoked);
    TicketsMove(t, closed.tickets);
    if row.state.Revoked? {
      ExemptOne(closed, id);
    } else {
      PendingRowFit(t, id);
      RevokedRowFit(t, id);
      SetRowKeeps(closed, id, RevokeRow(row));
      SetRowMoves(closed, id, RevokeRow(row));
      ForwardTransitive(t, closed, WithSession(closed, id, RevokeRow(row)));
      ClaimsTransitive(t, closed, WithSession(closed, id, RevokeRow(row)), id);
    }
  }

  lemma CloseIssuedForward(tickets: map<string, Ticket>, id: string, state: TicketState)
    ensures TicketsForward(tickets, CloseIssued(tickets, id, state))
  {
  }

  lemma ExemptOne(t: Tables, id: string)
    requires CustodyExcept(t, {})
    ensures CustodyExcept(t, {id})
  {
    hide CustodyOf;
  }

  lemma RevokedRowFit(t: Tables, id: string)
    requires id in t.sessions && SessionFit(id, t.sessions[id], t.attempts)
    ensures SessionFit(id, RevokeRow(t.sessions[id]), t.attempts)
  {
    hide Identifier;
  }

  lemma ClaimsTransitive(a: Tables, b: Tables, c: Tables, id: string)
    requires ClaimsOnly(a, b, id, []) && ClaimsOnly(b, c, id, [])
    ensures ClaimsOnly(a, c, id, [])
  {
  }

  lemma RevokeKeeps(t: Tables, id: string, x: Tx)
    requires Inv(t) && x == Revoke(t, id)
    ensures Sound(t, x.tables, id, []) && (x.Raised? ==> x.code == SessionUnknown)
    ensures id in t.sessions ==> x.Committed? && id in x.tables.sessions && x.tables.sessions[id].state.Revoked?
  {
    hide Inv, Forward, ClaimsOnly, QueueRevoke, CloseIssued, Core, CustodyExcept;
    SoundRefl(t, id);
    if id in t.sessions {
      var row := t.sessions[id];
      var denied := if row.state.Revoked? then t else WithSession(t, id, RevokeRow(row));
      var closed := denied.(tickets := CloseIssued(t.tickets, id, TicketRevoked));
      DenyAny(t, id);
      if row.remote.Some? || PendingState(row.state) {
        PendingHasAttempt(t, id);
        QueueStored(closed, id, QueueRevoke(closed, id, row.remote));
        SoundThen(t, closed, x.tables, id, []);
        RevokedStays(closed, x.tables, id);
      } else {
        NothingOwed(t, id, closed);
        NoExemption(closed, id);
        InvHolds(closed);
      }
    }
  }

  lemma RevokedStays(t: Tables, t': Tables, id: string)
    requires Forward(t, t') && id in t.sessions && t.sessions[id].state.Revoked?
    ensures id in t'.sessions && t'.sessions[id].state.Revoked?
  {
  }

  lemma InvHolds(t: Tables)
    requires Core(t) && CustodyExcept(t, {})
    ensures Inv(t)
  {
    hide Core, CustodyExcept;
  }

  /** A session revoked before it ever reached the provider owes no cleanup; one revoked earlier has its own. */
  lemma NothingOwed(t: Tables, id: string, t': Tables)
    requires Inv(t) && id in t.sessions && t.sessions[id].remote.None? && !PendingState(t.sessions[id].state)
    requires id in t'.sessions && t'.attempts == t.attempts && t'.outbox == t.outbox
    requires t'.sessions[id].remote.None?
    ensures CustodyOf(id, t'.sessions[id], t'.attempts, t'.outbox)
  {
    hide ExclusiveOwners, JobsFit, RevokesFit, JobSessionsFit, LookupsFit, AttemptsPaid, TicketsSingle, TicketsFit,
      AttemptsFit;
    assert SessionFit(id, t.sessions[id], t.attempts);
    assert CustodyOf(id, t.sessions[id], t.attempts, t.outbox);
  }

  lemma CommitActivationKeeps(t: Tables, id: string, attempt: string, a: Activation, earliest: int, r: Readings, x: Tx)
    requires Inv(t) && ValidActivation(a) && x == CommitActivation(t, id, attempt, a, earliest, r)
    requires id in t.attempts && t.attempts[id].id == attempt
    ensures Sound(t, x.tables, id, [a.remote]) && (x.Raised? ==> !Corruption(x.code))
  {
    hide Inv, Identifier, Forward, ClaimsOnly, Sound, OwnedElsewhere, CustodyExcept, Core, Refuse, Admit, CloseIssued,
      SessionFit;
    SoundRefl(t, id);
    WeakenClaims(t, t, id, a.remote);
    if r.adapter && id in t.sessions {
      var row := t.sessions[id];
      var other := OwnedElsewhere(t.sessions, t.outbox, id, a.remote);
      var conflicting := row.remote.Some? && (row.remote != Some(a.remote) || row.receipt != Some(a.receipt));
      PendingRowFit(t, id);
      if other || conflicting {
        var denied := if row.state.Revoked? then t else WithSession(t, id, RevokeRow(row));
        var t' := denied.(tickets := CloseIssued(t.tickets, id, TicketRevoked));
        DenyAny(t, id);
        RefuseKeeps(t, t', id, a.remote, row.remote, if other then OwnerConflict else IdentityConflict, x);
        WidenClaims(t, t', id, a.remote);
        SoundThenClaim(t, t', x.tables, id, a.remote);
      } else if row.state.Active? {
      } else if Exact(t, id, attempt) && PendingState(row.state) {
        AdmitKeeps(t, id, a, earliest, r, x);
      } else {
        OnlyRevokedIsStale(t, id, attempt);
        RefusedStale(t, id, a, x);
      }
    }
  }

  /** A result whose attempt is no longer exact can only meet a revoked session. */
  lemma OnlyRevokedIsStale(t: Tables, id: string, attempt: string)
    requires Inv(t) && id in t.sessions && id in t.attempts && t.attempts[id].id == attempt
    requires !t.sessions[id].state.Active? && !(Exact(t, id, attempt) && PendingState(t.sessions[id].state))
    ensures t.sessions[id].state.Revoked?
  {
    hide CustodyExcept, ExclusiveOwners, JobsFit, RevokesFit, JobSessionsFit, LookupsFit, AttemptsPaid, TicketsSingle,
      TicketsFit, Identifier;
    assert SessionFit(id, t.sessions[id], t.attempts);
  }

  lemma RefusedStale(t: Tables, id: string, a: Activation, x: Tx)
    requires Inv(t) && id in t.sessions && id in t.attempts && t.sessions[id].state.Revoked? && Identifier(a.remote)
    requires x == Refuse(t, t, id, a.remote, t.sessions[id].remote, RevokedOrStale)
    ensures Sound(t, x.tables, id, [a.remote]) && (x.Raised? ==> x.code == RevokedOrStale)
  {
    hide Identifier, Forward, ClaimsOnly, CustodyExcept, Core, Refuse;
    ExemptOne(t, id);
    RefuseKeeps(t, t, id, a.remote, t.sessions[id].remote, RevokedOrStale, x);
  }

  lemma InterruptKeeps(t: Tables, id: string, generation: int, adapter: bool, x: Tx)
    requires Inv(t) && x == Interrupt(t, id, generation, adapter)
    ensures Sound(t, x.tables, id, [])
  {
    hide Inv, Identifier, Sound;
    SoundRefl(t, id);
    if x.Committed? {
      PendingRowFit(t, id);
      SetLiveRow(t, id, t.sessions[id].(generation := generation + 1));
    }
  }

  // ----- cleanup -----

  lemma BeginDrainKeeps(t: Tables, job: JobId, x: Tx)
    requires Inv(t) && x == BeginDrain(t, job)
    ensures Sound(t, x.tables, "", []) && (x.Raised? ==> x.code == JobMissing)
    ensures DrainDispatches(t, job) ==> x.tables == t.(revokes := t.revokes[job := t.revokes[job] + 1])
  {
    hide Inv, Sound, OwnedElsewhere;
    SoundRefl(t, "");
    if job in t.outbox && t.outbox[job].remote.Some? {
      RevokeFit(t, job);
      if t.revokes[job] < t.revokeLimit { PayRevoke(t, job); }
    }
  }

  lemma RevokeFit(t: Tables, job: JobId)
    requires Inv(t) && job in t.outbox && t.outbox[job].remote.Some?
    ensures job == Known(t.outbox[job].remote.value) && CounterFit(t.revokes, job, t.revokeLimit)
  {
    hide CustodyExcept, ExclusiveOwners, JobSessionsFit, LookupsFit, AttemptsPaid, TicketsSingle, TicketsFit,
      AttemptsFit, SessionsFit;
  }

  lemma PayRevoke(t: Tables, job: JobId)
    requires Inv(t) && job in t.revokes && t.revokes[job] < t.revokeLimit
    ensures Sound(t, t.(revokes := t.revokes[job := t.revokes[job] + 1]), "", [])
  {
    hide CustodyOf, ExclusiveOwners, JobsFit, JobSessionsFit, LookupsFit, AttemptsPaid, TicketsSingle, TicketsFit,
      AttemptsFit, SessionsFit;
  }

  /** Completing a job changes that job's state alone. */
  lemma FinishDrainKeeps(t: Tables, job: JobId, id: string, remote: string, adapter: bool, x: Tx)
    requires Inv(t) && x == FinishDrain(t, job, id, remote, adapter)
    ensures Inv(x.tables) && Forward(t, x.tables)
    ensures (JobBound(t, job, id, remote) && x.Raised? ==> x.code == AdapterMismatch)
    ensures forall s, r :: Claimed(x.tables, s, r) ==> Claimed(t, s, r)
    ensures forall r :: Completed(x.tables.outbox, r) ==> Completed(t.outbox, r) || r == remote
  {
    hide Core, CustodyExcept, Forward, Claimed, Completed;
    SoundRefl(t, "");
    if x.Committed? {
      FinishKeepsCore(t, job, id, remote);
      FinishMoves(t, job, id, remote);
    } else {
      RestingForward(t);
    }
  }

  lemma RestingForward(t: Tables)
    ensures Forward(t, t)
  {
  }

  function Finished(t: Tables, job: JobId): Tables
    requires job in t.outbox
  {
    t.(outbox := t.outbox[job := t.outbox[job].(pending := false)])
  }

  lemma FinishKeepsCore(t: Tables, job: JobId, id: string, remote: string)
    requires Inv(t) && JobBound(t, job, id, remote)
    ensures Core(Finished(t, job))
  {
    hide CustodyExcept, LookupsFit, AttemptsPaid, TicketsSingle, TicketsFit, AttemptsFit, SessionsFit, Identifier;
  }

  lemma FinishMoves(t: Tables, job: JobId, id: string, remote: string)
    requires Inv(t) && JobBound(t, job, id, remote)
    ensures CustodyExcept(Finished(t, job), {}) && Forward(t, Finished(t, job))
    ensures forall s, r :: Claimed(Finished(t, job), s, r) ==> Claimed(t, s, r)
    ensures forall r :: Completed(Finished(t, job).outbox, r) ==> Completed(t.outbox, r) || r == remote
  {
    hide LookupsFit, AttemptsPaid, TicketsSingle, TicketsFit, AttemptsFit, SessionsFit, ExclusiveOwners,
      JobSessionsFit, RevokesFit, Identifier;
    var t' := Finished(t, job);
    assert job.Known?;
    forall s | s in t'.sessions ensures CustodyOf(s, t'.sessions[s], t'.attempts, t'.outbox) {
      assert CustodyOf(s, t.sessions[s], t.attempts, t.outbox);
      assert forall r :: KnownJobOf(t.outbox, s, r) ==> KnownJobOf(t'.outbox, s, r);
    }
    hide CustodyOf;
  }
}
