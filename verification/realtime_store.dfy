/**
 * The realtime store as it runs: tables that transactions update row by row, and put back when they raise.
 * Each method is one transaction of durable_realtime.py and is proved to do what its function says.
 */
module RealtimeStore {
  import opened Base
  import opened RealtimeTables

  /** The error a transaction raises to its caller, if any. */
  function ErrorOf(x: Tx): Option<Code> {
    match x
    case Committed(_) => None
    case Raised(_, code) => Some(code)
  }

  class DurableRealtimeStore {
    var tickets: map<string, Ticket>
    var sessions: map<string, Session>
    var attempts: map<string, Attempt>
    var outbox: map<JobId, Job>
    var lookups: map<string, int>
    var revokes: map<JobId, int>
    const lookupLimit: int
    const revokeLimit: int

    function View(): Tables
      reads this
    {
      Tables(tickets, sessions, attempts, outbox, lookups, revokes, lookupLimit, revokeLimit)
    }

    constructor (lookupLimit: int, revokeLimit: int)
      ensures View() == EmptyTables(lookupLimit, revokeLimit)
    {
      this.lookupLimit, this.revokeLimit := lookupLimit, revokeLimit;
      tickets, sessions, attempts, outbox, lookups, revokes := map[], map[], map[], map[], map[], map[];
    }

    /** The checks __init__ makes of a store that exists; it changes nothing. */
    method Reopen(scope: string, o: Opening) returns (error: Option<OpenCode>)
      ensures error == ReopenFault(View(), scope, o)
    {
      hide Label;
      error := ConfigurationFault(o);
      if error.Some? { return; }
      if !Limits(lookupLimit, revokeLimit) { return Some(LimitsInvalid); }
      if lookupLimit != o.lookups || revokeLimit != o.revokes { return Some(MigrationRequired); }
      if exists s :: s in sessions && s !in lookups { return Some(CountersInvalid); }
      if exists s :: s in lookups && (s !in sessions || !(0 <= lookups[s] <= lookupLimit)) {
        return Some(CountersInvalid);
      }
      if exists j :: j in outbox && outbox[j].remote.Some? && j !in revokes { return Some(CountersInvalid); }
      if exists j :: j in revokes && (j !in outbox || outbox[j].remote.None? || !(0 <= revokes[j] <= revokeLimit)) {
        return Some(CountersInvalid);
      }
      if scope != o.binding { return Some(ScopeMismatch); }
    }

    /** ROLLBACK to the tables a transaction began with. */
    method Rollback(saved: Tables)
      requires saved.lookupLimit == lookupLimit && saved.revokeLimit == revokeLimit
      modifies this
      ensures View() == saved
    {
      tickets, sessions, attempts := saved.tickets, saved.sessions, saved.attempts;
      outbox, lookups, revokes := saved.outbox, saved.lookups, saved.revokes;
    }

    method SetState(id: string, state: SessionState)
      requires id in sessions
      modifies this`sessions
      ensures sessions == old(sessions)[id := old(sessions)[id].(state := state)]
    {
      sessions := sessions[id := sessions[id].(state := state)];
    }

    method DenySession(id: string)
      requires id in sessions
      modifies this`sessions, this`tickets
      ensures View() == DenyLocally(old(View()), id)
    {
      var row := sessions[id];
      if !row.state.Revoked? {
        sessions := sessions[id := row.(state := Revoked, generation := row.generation + 1)];
      }
      tickets := CloseIssued(tickets, id, TicketRevoked);
    }

    method RevokeSession(id: string)
      requires id in sessions
      modifies this`sessions
      ensures sessions == old(sessions)[id := RevokeRow(old(sessions)[id])]
    {
      sessions := sessions[id := sessions[id].(state := Revoked, generation := sessions[id].generation + 1)];
    }

    /** _queue_revoke, inside a caller's transaction: on a fault the caller rolls back. */
    method Queue(id: string, remote: Option<string>) returns (fault: Option<Code>, job: JobId)
      modifies this`outbox, this`revokes
      ensures match QueueRevoke(old(View()), id, remote)
              case Queued(t, j) => fault == None && View() == t && job == j
              case QueueFault(code) => fault == Some(code)
    {
      fault := None;
      var target := remote;
      if remote.Some? && OwnedElsewhere(sessions, outbox, id, remote.value) {
        target := None;
      }
      job := if target.Some? then Known(target.value) else Lookup(id);
      var inserted := job !in outbox;
      if inserted {
        outbox := outbox[job := Job(id, target, true)];
      }
      if outbox[job].session != id || outbox[job].remote != target {
        return Some(CleanupBindingInvalid), job;
      }
      if target.Some? {
        if inserted {
          if job in revokes { return Some(IntegrityError), job; }
          revokes := revokes[job := 0];
        } else if !CounterFit(revokes, job, revokeLimit) {
          return Some(CounterInvalid), job;
        }
      } else if !inserted {
        outbox := outbox[job := outbox[job].(pending := true)];
      }
    }

    /** The cleanup part of _commit_activation: queue every identity in order, then settle the lookup job. */
    method TakeCustody(id: string, identities: seq<string>) returns (fault: Option<Code>)
      modifies this`outbox, this`revokes
      ensures match QueueAll(old(View()), id, identities)
              case Cleanup(t, unresolved) => fault == None && View() == (if unresolved then t else SettleLookup(t, id))
              case CleanupFault(code) => fault == Some(code)
    {
      fault := None;
      var unresolved, i := false, 0;
      while i < |identities|
        invariant 0 <= i <= |identities|
        invariant match (QueueAll(old(View()), id, identities), QueueAll(View(), id, identities[i..]))
                  case (Cleanup(t, whole), Cleanup(t', rest)) => t == t' && whole == (unresolved || rest)
                  case (CleanupFault(code), CleanupFault(code')) => code == code'
                  case _ => false
      {
        var queued, job := Queue(id, Some(identities[i]));
        if queued.Some? { return queued; }
        unresolved := unresolved || job.Lookup?;
        assert identities[i..][1..] == identities[i + 1..];
        i := i + 1;
      }
      if !unresolved && Lookup(id) in outbox {
        outbox := outbox[Lookup(id) := outbox[Lookup(id)].(pending := false)];
      }
    }

    /** _expire_pending, inside a caller's transaction that began with saved. */
    method Expire(saved: Tables, id: string, now: int) returns (fault: Option<Code>)
      requires id in sessions
      modifies this`sessions, this`outbox, this`revokes
      ensures fault == ErrorOf(ExpirePending(saved, old(View()), id, now))
      ensures fault.None? ==> View() == ExpirePending(saved, old(View()), id, now).tables
    {
      fault := None;
      var row := sessions[id];
      if row.state.Activating? || row.state.Indeterminate? {
        if AttemptWindow(View(), id, 0, now, false).Unfit? {
          RevokeSession(id);
          var job;
          fault, job := Queue(id, row.remote);
        }
      }
    }

    method IssueTicket(digest: string, subject: string, id: string, ttl: int, capacity: int, r: Readings)
      returns (error: Option<Code>)
      modifies this
      ensures var x := RealtimeTables.IssueTicket(old(View()), digest, subject, id, ttl, capacity, r);
        View() == x.tables && error == ErrorOf(x)
    {
      if !Identifier(subject) || !Identifier(id) { return Some(BindingInvalid); }
      var saved := View();
      if !r.adapter { return Some(AdapterMismatch); }
      if !Timestamp(r.now) { return Some(ClockInvalid); }
      var expires := r.now + ttl;
      if !Timestamp(expires) { return Some(TicketExpiryInvalid); }
      if id in sessions {
        if sessions[id].subject != subject { return Some(SubjectConflict); }
        if !sessions[id].state.New? { return Some(SessionNotNew); }
      }
      if |tickets| >= capacity { return Some(CapacityExhausted); }
      if id !in sessions {
        sessions := sessions[id := Session(subject, New, 1, None, None)];
        if id in lookups {
          Rollback(saved);
          return Some(IntegrityError);
        }
        lookups := lookups[id := 0];
      } else if !CounterFit(lookups, id, lookupLimit) {
        return Some(CounterInvalid);
      }
      tickets := CloseIssued(tickets, id, Superseded);
      if digest in tickets {
        Rollback(saved);
        return Some(IntegrityError);
      }
      tickets := tickets[digest := Ticket(subject, id, expires, Issued)];
      var window := Window(expires, r.now, r.later, false);
      if window.Unfit? {
        Rollback(saved);
        return Some(window.code);
      }
      if !r.laterAdapter {
        Rollback(saved);
        return Some(AdapterMismatch);
      }
      return None;
    }

    method Activate(digest: string, subject: string, id: string, attempt: string, r: Readings)
      returns (error: Option<Code>)
      modifies this
      ensures var x := BeginActivate(old(View()), digest, subject, id, attempt, r);
        View() == x.tables && error == ErrorOf(x)
    {
      var saved := View();
      if !r.adapter { return Some(AdapterMismatch); }
      if !Timestamp(r.now) { return Some(ClockInvalid); }
      if digest !in tickets || tickets[digest].subject != subject || tickets[digest].session != id {
        return Some(TicketInvalid);
      }
      if tickets[digest].expires <= r.now { return Some(TicketExpired); }
      if !tickets[digest].state.Issued? { return Some(TicketReplayed); }
      if id !in sessions { return Some(SessionUnknown); }
      if sessions[id].subject != subject || !sessions[id].state.New? { return Some(SessionNotNew); }
      if !CounterFit(lookups, id, lookupLimit) { return Some(CounterInvalid); }
      var generation, expires := sessions[id].generation, tickets[digest].expires;
      tickets := tickets[digest := tickets[digest].(state := Consumed)];
      tickets := CloseIssued(tickets, id, Superseded);
      if id in attempts || exists s :: s in attempts && attempts[s].id == attempt {
        Rollback(saved);
        return Some(IntegrityError);
      }
      attempts := attempts[id := Attempt(attempt, subject, generation)];
      SetState(id, Activating);
      var window := Window(expires, r.now, r.later, r.late);
      if window.Unfit? {
        Rollback(saved);
        return Some(window.code);
      }
      if !r.laterAdapter {
        Rollback(saved);
        return Some(AdapterMismatch);
      }
      return None;
    }

    method Indeterminate(id: string, attempt: string, now: int) returns (error: Option<Code>)
      modifies this
      ensures var x := GiveUp(old(View()), id, attempt, now); View() == x.tables && error == ErrorOf(x)
    {
      var saved := View();
      if id !in sessions { return Some(SessionUnknown); }
      if sessions[id].state.Activating? && id in attempts && attempts[id].id == attempt {
        SetState(id, RealtimeTables.Indeterminate);
      }
      error := Expire(saved, id, now);
      if error.Some? { Rollback(saved); }
    }

    method Reconcile(id: string, r: Readings) returns (error: Option<Code>)
      modifies this
      ensures var x := BeginReconcile(old(View()), id, r); View() == x.tables && error == ErrorOf(x)
    {
      var saved := View();
      if id !in sessions { return Some(SessionUnknown); }
      if sessions[id].state.Active? {
        return if r.adapter then None else Some(AdapterMismatch);
      }
      if sessions[id].state.New? { return Some(ReconcileInvalid); }
      if id !in attempts {
        return if sessions[id].state.Revoked? then None else Some(AttemptMissing);
      }
      error := Expire(saved, id, r.later);
      if error.Some? {
        Rollback(saved);
        return;
      }
      if !CounterFit(lookups, id, lookupLimit) {
        Rollback(saved);
        return Some(CounterInvalid);
      }
      // The denial of an expired session stays committed even when no lookup is left.
      if lookups[id] == lookupLimit { return Some(ReadbackExhausted); }
      lookups := lookups[id := lookups[id] + 1];
    }

    /** End a refused result: commit the cleanup with the denial already written, or put everything back. */
    method RefuseResult(saved: Tables, id: string, observed: string, stored: Option<string>, code: Code)
      returns (error: Option<Code>)
      requires saved.lookupLimit == lookupLimit && saved.revokeLimit == revokeLimit
      modifies this
      ensures var x := Refuse(saved, old(View()), id, observed, stored, code); View() == x.tables && error == ErrorOf(x)
    {
      hide QueueAll, Identities, SettleLookup;
      error := Some(code);
      var fault := TakeCustody(id, Identities(observed, stored));
      if fault.Some? {
        Rollback(saved);
        error := fault;
      }
    }

    /** A failed window: indeterminate for a missed deadline, otherwise a denial with cleanup. */
    method RejectResult(saved: Tables, id: string, a: Activation, stored: Option<string>, code: Code)
      returns (error: Option<Code>)
      requires id in sessions && saved.lookupLimit == lookupLimit && saved.revokeLimit == revokeLimit
      modifies this
      ensures var x := Reject(saved, old(View()), id, a, stored, code); View() == x.tables && error == ErrorOf(x)
    {
      hide Refuse;
      if code.DeadlineExpired? {
        SetState(id, RealtimeTables.Indeterminate);
        return Some(code);
      }
      RevokeSession(id);
      error := RefuseResult(saved, id, a.remote, stored, code);
    }

    /** The result of a session's own current attempt: the window is checked before and after the row is made active. */
    method AdmitResult(id: string, a: Activation, earliest: int, r: Readings) returns (error: Option<Code>)
      requires id in sessions
      modifies this
      ensures var x := Admit(old(View()), id, a, earliest, r); View() == x.tables && error == ErrorOf(x)
    {
      hide Reject, AttemptExpiry, Window;
      var saved, stored := View(), sessions[id].remote;
      var expiry := AttemptExpiry(View(), id);
      var window := if expiry.None? then Unfit(AttemptTicketInvalid) else Window(expiry.value, earliest, r.now, r.late);
      if window.Fresh? {
        sessions :=
          sessions[id := sessions[id].(state := Active, remote := Some(a.remote), receipt := Some(a.receipt))];
        window := Window(expiry.value, window.now, r.later, r.laterLate);
        if window.Fresh? {
          if r.laterAdapter { return None; }
          Rollback(saved);
          return Some(AdapterMismatch);
        }
      }
      error := RejectResult(saved, id, a, stored, window.code);
    }

    method Commit(id: string, attempt: string, a: Activation, earliest: int, r: Readings) returns (error: Option<Code>)
      modifies this
      ensures var x := CommitActivation(old(View()), id, attempt, a, earliest, r);
        View() == x.tables && error == ErrorOf(x)
    {
      hide OwnedElsewhere, DenyLocally, Refuse, Admit, Exact;
      var saved := View();
      if !r.adapter { return Some(AdapterMismatch); }
      if id !in sessions { return Some(SessionUnknown); }
      var row := sessions[id];
      var exact := Exact(View(), id, attempt);
      var other := OwnedElsewhere(sessions, outbox, id, a.remote);
      var conflicting := row.remote.Some? && (row.remote != Some(a.remote) || row.receipt != Some(a.receipt));
      if other || conflicting {
        DenySession(id);
        error := RefuseResult(saved, id, a.remote, row.remote, if other then OwnerConflict else IdentityConflict);
      } else if row.state.Active? {
        if !exact { return Some(RevokedOrStale); }
        if r.late { return Some(DeadlineExpired); }
        return None;
      } else if exact && (row.state.Activating? || row.state.Indeterminate?) {
        error := AdmitResult(id, a, earliest, r);
      } else {
        error := RefuseResult(saved, id, a.remote, row.remote, RevokedOrStale);
      }
    }

    method Interrupt(id: string, generation: int, adapter: bool) returns (error: Option<Code>)
      modifies this
      ensures var x := RealtimeTables.Interrupt(old(View()), id, generation, adapter);
        View() == x.tables && error == ErrorOf(x)
    {
      if !adapter { return Some(AdapterMismatch); }
      if id !in sessions { return Some(SessionUnknown); }
      if !sessions[id].state.Active? { return Some(SessionNotActive); }
      if sessions[id].generation != generation { return Some(StaleGeneration); }
      sessions := sessions[id := sessions[id].(generation := sessions[id].generation + 1)];
      return None;
    }

    method Revoke(id: string) returns (error: Option<Code>)
      modifies this
      ensures var x := RealtimeTables.Revoke(old(View()), id); View() == x.tables && error == ErrorOf(x)
    {
      hide OwnedElsewhere, DenyLocally, QueueRevoke;
      var saved := View();
      if id !in sessions { return Some(SessionUnknown); }
      var row := sessions[id];
      DenySession(id);
      error := None;
      var job;
      if row.remote.Some? {
        error, job := Queue(id, row.remote);
      } else if row.state.Activating? || row.state.Indeterminate? {
        error, job := Queue(id, None);
      }
      if error.Some? { Rollback(saved); }
    }

    /** _drain_known up to the worker: proceed tells whether the reservation goes on to a provider call. */
    method Drain(job: JobId) returns (error: Option<Code>, proceed: bool)
      modifies this
      ensures var x := BeginDrain(old(View()), job); View() == x.tables && error == ErrorOf(x)
      ensures proceed == DrainDispatches(old(View()), job)
    {
      if job !in outbox { return Some(JobMissing), false; }
      if !outbox[job].pending || outbox[job].remote.None? { return None, false; }
      if !CounterFit(revokes, job, revokeLimit) { return Some(CounterInvalid), false; }
      if revokes[job] == revokeLimit { return None, false; }
      revokes := revokes[job := revokes[job] + 1];
      return None, !OwnedElsewhere(sessions, outbox, outbox[job].session, outbox[job].remote.value);
    }

    method Finish(job: JobId, id: string, remote: string, adapter: bool) returns (error: Option<Code>)
      modifies this
      ensures var x := FinishDrain(old(View()), job, id, remote, adapter); View() == x.tables && error == ErrorOf(x)
    {
      if !adapter { return Some(AdapterMismatch); }
      if !JobBound(View(), job, id, remote) { return Some(CleanupBindingInvalid); }
      outbox := outbox[job := outbox[job].(pending := false)];
      return None;
    }
  }
}
