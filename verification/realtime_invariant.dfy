/** What every realtime transaction keeps, and that it never meets the store's integrity errors. */
module RealtimeInvariant {
  import opened Base
  import opened RealtimeTables

  ghost predicate PendingState(state: SessionState) {
    state.Activating? || state.Indeterminate?
  }

  /** A session's remote pair and its attempt agree with its state. */
  ghost predicate SessionFit(s: string, row: Session, attempts: map<string, Attempt>) {
    && Identifier(s)
    && row.remote.Some? == row.receipt.Some?
    && (row.remote.Some? ==> Identifier(row.remote.value) && Identifier(row.receipt.value))
    && (row.state.New? ==> s !in attempts)
    && (row.state.New? || row.state.Activating? ==> row.remote.None?)
    && (row.state.Active? ==> row.remote.Some?)
    && (PendingState(row.state) || row.state.Active? || row.remote.Some? ==> s in attempts)
    && (PendingState(row.state) ==> attempts[s].generation == row.generation)
  }

  ghost predicate SessionsFit(sessions: map<string, Session>, attempts: map<string, Attempt>) {
    forall s :: s in sessions ==> SessionFit(s, sessions[s], attempts)
  }

  ghost predicate LookupsFit(lookups: map<string, int>, sessions: map<string, Session>, limit: int) {
    && lookups.Keys == sessions.Keys
    && forall s :: s in lookups ==> 0 <= lookups[s] <= limit
  }

  /** The outbox key is what the row dictates. */
  ghost predicate JobFit(j: JobId, row: Job) {
    match j
    case Known(r) => row.remote == Some(r) && Identifier(r)
    case Lookup(s) => row.remote == None && row.session == s
  }

  ghost predicate JobsFit(outbox: map<JobId, Job>) {
    forall j :: j in outbox ==> JobFit(j, outbox[j])
  }

  ghost predicate RevokesFit(revokes: map<JobId, int>, outbox: map<JobId, Job>, limit: int) {
    && (forall j :: j in revokes ==> j.Known? && j in outbox && 0 <= revokes[j] <= limit)
    && (forall j :: j in outbox && j.Known? ==> j in revokes)
  }

  /** Only denied sessions that reached the provider have cleanup work. */
  ghost predicate JobSessionsFit(outbox: map<JobId, Job>, sessions: map<string, Session>,
                                 attempts: map<string, Attempt>) {
    forall j :: j in outbox ==>
      outbox[j].session in sessions && outbox[j].session in attempts && sessions[outbox[j].session].state.Revoked?
  }

  /** Each remote session is claimed by one local session, over the session and outbox tables together. */
  ghost predicate ExclusiveOwners(sessions: map<string, Session>, outbox: map<JobId, Job>) {
    && (forall s1, s2 | s1 in sessions && s2 in sessions ::
          sessions[s1].remote.Some? && sessions[s1].remote == sessions[s2].remote ==> s1 == s2)
    && (forall s | s in sessions && sessions[s].remote.Some? ::
          var job := Known(sessions[s].remote.value);
          job in outbox ==> outbox[job].session == s)
  }

  ghost predicate TicketFit(row: Ticket, sessions: map<string, Session>, attempts: map<string, Attempt>) {
    && row.session in sessions && row.subject == sessions[row.session].subject && Timestamp(row.expires)
    && (row.state.Issued? ==> sessions[row.session].state.New?)
    && (row.state.Consumed? ==> row.session in attempts)
  }

  ghost predicate TicketsFit(tickets: map<string, Ticket>, sessions: map<string, Session>,
                             attempts: map<string, Attempt>) {
    forall d :: d in tickets ==> TicketFit(tickets[d], sessions, attempts)
  }

  /** At most one issued and one consumed ticket for a session. */
  ghost predicate TicketsSingle(tickets: map<string, Ticket>) {
    forall d, e | d in tickets && e in tickets && tickets[d].session == tickets[e].session ::
      tickets[d].state == tickets[e].state && tickets[d].state in {Issued, Consumed} ==> d == e
  }

  ghost predicate AttemptsFit(attempts: map<string, Attempt>, sessions: map<string, Session>) {
    && (forall s :: s in attempts ==> s in sessions && attempts[s].subject == sessions[s].subject)
    && (forall s, u :: s in attempts && u in attempts && attempts[s].id == attempts[u].id ==> s == u)
  }

  /** An attempt row stands for a consumed ticket. */
  ghost predicate AttemptsPaid(attempts: map<string, Attempt>, tickets: map<string, Ticket>,
                               sessions: map<string, Session>) {
    forall s :: s in attempts ==> exists d :: ConsumedFor(tickets, sessions, d, s)
  }

  ghost predicate Core(t: Tables) {
    && 1 <= t.lookupLimit <= 32 && 1 <= t.revokeLimit <= 32
    && SessionsFit(t.sessions, t.attempts)
    && LookupsFit(t.lookups, t.sessions, t.lookupLimit)
    && JobsFit(t.outbox)
    && RevokesFit(t.revokes, t.outbox, t.revokeLimit)
    && JobSessionsFit(t.outbox, t.sessions, t.attempts)
    && ExclusiveOwners(t.sessions, t.outbox)
    && TicketsFit(t.tickets, t.sessions, t.attempts)
    && TicketsSingle(t.tickets)
    && AttemptsFit(t.attempts, t.sessions)
    && AttemptsPaid(t.attempts, t.tickets, t.sessions)
  }

  predicate KnownJobOf(outbox: map<JobId, Job>, s: string, r: string) {
    Known(r) in outbox && outbox[Known(r)].session == s
  }

  /** A denied attempt has work to clean up: a known remote session or a lookup still pending. */
  ghost predicate CustodyOf(s: string, row: Session, attempts: map<string, Attempt>, outbox: map<JobId, Job>) {
    row.state.Revoked? ==>
      && (s in attempts ==>
            (exists r :: KnownJobOf(outbox, s, r)) || (Lookup(s) in outbox && outbox[Lookup(s)].pending))
      && (row.remote.Some? ==> KnownJobOf(outbox, s, row.remote.value))
  }

  ghost predicate CustodyExcept(t: Tables, exempt: set<string>) {
    forall s :: s in t.sessions && s !in exempt ==> CustodyOf(s, t.sessions[s], t.attempts, t.outbox)
  }

  ghost predicate Inv(t: Tables) {
    Core(t) && CustodyExcept(t, {})
  }

  // ----- cleanup custody -----

  /** t' adds cleanup work to t and touches nothing else; no job is lost, rebound or, if known, reopened. */
  ghost predicate AddsCleanup(t: Tables, t': Tables) {
    && t' == t.(outbox := t'.outbox, revokes := t'.revokes)
    && (forall j | j in t.outbox ::
          && j in t'.outbox && t'.outbox[j].session == t.outbox[j].session && t'.outbox[j].remote == t.outbox[j].remote
          && (j.Known? || t.outbox[j].pending ==> t'.outbox[j] == t.outbox[j]))
    && (forall j :: j in t'.outbox && j !in t.outbox ==> t'.outbox[j].pending)
    && (forall j :: j in t.revokes ==> j in t'.revokes && t'.revokes[j] == t.revokes[j])
  }

  ghost predicate Denied(t: Tables, id: string) {
    id in t.sessions && t.sessions[id].state.Revoked? && id in t.attempts
  }

  lemma OpenKnownKeeps(t: Tables, id: string, r: string)
    requires Core(t) && Denied(t, id) && Identifier(r)
    requires !OwnedElsewhere(t.sessions, t.outbox, id, r) && Known(r) !in t.outbox
    ensures var t' := t.(outbox := t.outbox[Known(r) := Job(id, Some(r), true)], revokes := t.revokes[Known(r) := 0]);
            Core(t') && AddsCleanup(t, t')
  {
    hide TicketsSingle, TicketsFit, AttemptsPaid, AttemptsFit, SessionsFit, LookupsFit;
  }

  lemma OpenLookupKeeps(t: Tables, id: string, pending: bool)
    requires Core(t) && Denied(t, id)
    ensures var t' := t.(outbox := t.outbox[Lookup(id) := Job(id, None, pending)]);
            Core(t') && (pending ==> AddsCleanup(t, t'))
  {
    hide TicketsSingle, TicketsFit, AttemptsPaid, AttemptsFit, SessionsFit, LookupsFit;
  }

  /** The guard of _queue_revoke against a job bound elsewhere can never fire. */
  lemma QueueRevokeNeverFaults(t: Tables, id: string, remote: Option<string>)
    requires JobsFit(t.outbox) && RevokesFit(t.revokes, t.outbox, t.revokeLimit)
    ensures QueueRevoke(t, id, remote).Queued?
  {
  }

  /** Custody of remote was taken for session id: as its own job unless another local session owns it. */
  ghost predicate TakesCustody(t: Tables, id: string, remote: Option<string>, t': Tables, job: JobId) {
    && AddsCleanup(t, t')
    && job in t'.outbox && t'.outbox[job].session == id
    && (job.Lookup? ==> job == Lookup(id) && t'.outbox[job].pending)
    && (job.Known? ==> remote == Some(job.remote))
    && (remote.Some? && !OwnedElsewhere(t.sessions, t.outbox, id, remote.value) ==> job.Known?)
    && (forall j :: j in t'.outbox && j !in t.outbox ==> j == job)
  }

  lemma QueueRevokeKeeps(t: Tables, id: string, remote: Option<string>, q: Queued)
    requires q == QueueRevoke(t, id, remote)
    requires Core(t) && Denied(t, id)
    requires remote.Some? ==> Identifier(remote.value)
    ensures q.Queued? && Core(q.tables) && TakesCustody(t, id, remote, q.tables, q.job)
  {
    hide TicketsSingle, TicketsFit, AttemptsPaid, AttemptsFit, SessionsFit, LookupsFit, ExclusiveOwners, JobSessionsFit;
    QueueRevokeNeverFaults(t, id, remote);
    if remote.Some? && !OwnedElsewhere(t.sessions, t.outbox, id, remote.value) {
      if Known(remote.value) !in t.outbox { OpenKnownKeeps(t, id, remote.value); }
    } else {
      OpenLookupKeeps(t, id, true);
      hide RevokesFit, OwnedElsewhere;
    }
  }

  lemma CleanupKeepsCustody(t: Tables, t': Tables, exempt: set<string>)
    requires CustodyExcept(t, exempt) && AddsCleanup(t, t')
    ensures CustodyExcept(t', exempt)
  {
    forall s | s in t'.sessions && s !in exempt ensures CustodyOf(s, t'.sessions[s], t'.attempts, t'.outbox) {
      assert CustodyOf(s, t.sessions[s], t.attempts, t.outbox);
      assert forall r :: KnownJobOf(t.outbox, s, r) ==> KnownJobOf(t'.outbox, s, r);
    }
  }

  ghost predicate NoIssued(tickets: map<string, Ticket>, id: string) {
    forall d :: d in tickets && tickets[d].session == id ==> !tickets[d].state.Issued?
  }

  /** Replacing one session row keeps the other tables in agreement. */
  lemma SetRowKeeps(t: Tables, id: string, row: Session)
    requires Core(t) && id in t.sessions && NoIssued(t.tickets, id)
    requires SessionFit(id, row, t.attempts) && row.subject == t.sessions[id].subject
    requires t.sessions[id].state.Revoked? ==> row.state.Revoked?
    requires row.remote == t.sessions[id].remote
          || (row.remote.Some? && !OwnedElsewhere(t.sessions, t.outbox, id, row.remote.value))
    ensures Core(WithSession(t, id, row))
  {
    SetRowKeepsOwners(t, id, row);
    SetRowKeepsTickets(t, id, row);
    SetRowKeepsSessions(t, id, row);
    hide ExclusiveOwners, OwnedElsewhere, NoIssued, TicketsSingle, TicketsFit, AttemptsPaid, RevokesFit, SessionFit,
      JobsFit, SessionsFit, LookupsFit, JobSessionsFit, AttemptsFit;
  }

  lemma SetRowKeepsSessions(t: Tables, id: string, row: Session)
    requires SessionsFit(t.sessions, t.attempts) && LookupsFit(t.lookups, t.sessions, t.lookupLimit)
    requires JobSessionsFit(t.outbox, t.sessions, t.attempts) && AttemptsFit(t.attempts, t.sessions)
    requires id in t.sessions && SessionFit(id, row, t.attempts) && row.subject == t.sessions[id].subject
    requires t.sessions[id].state.Revoked? ==> row.state.Revoked?
    ensures SessionsFit(t.sessions[id := row], t.attempts)
    ensures LookupsFit(t.lookups, t.sessions[id := row], t.lookupLimit)
    ensures JobSessionsFit(t.outbox, t.sessions[id := row], t.attempts)
    ensures AttemptsFit(t.attempts, t.sessions[id := row])
  {
    hide SessionFit;
  }

  lemma SetRowKeepsOwners(t: Tables, id: string, row: Session)
    requires ExclusiveOwners(t.sessions, t.outbox) && JobsFit(t.outbox) && id in t.sessions
    requires row.remote == t.sessions[id].remote
          || (row.remote.Some? && !OwnedElsewhere(t.sessions, t.outbox, id, row.remote.value))
    ensures ExclusiveOwners(t.sessions[id := row], t.outbox)
  {
  }

  lemma SetRowKeepsTickets(t: Tables, id: string, row: Session)
    requires TicketsFit(t.tickets, t.sessions, t.attempts) && AttemptsPaid(t.attempts, t.tickets, t.sessions)
    requires id in t.sessions && NoIssued(t.tickets, id) && row.subject == t.sessions[id].subject
    ensures TicketsFit(t.tickets, t.sessions[id := row], t.attempts)
    ensures AttemptsPaid(t.attempts, t.tickets, t.sessions[id := row])
  {
    var sessions := t.sessions[id := row];
    forall s | s in t.attempts ensures exists d :: ConsumedFor(t.tickets, sessions, d, s) {
      var d :| ConsumedFor(t.tickets, t.sessions, d, s);
      assert ConsumedFor(t.tickets, sessions, d, s);
    }
  }

  lemma CloseIssuedKeeps(t: Tables, id: string, state: TicketState)
    requires Core(t) && state in {Superseded, TicketRevoked}
    ensures Core(t.(tickets := CloseIssued(t.tickets, id, state)))
    ensures NoIssued(CloseIssued(t.tickets, id, state), id)
  {
    CloseIssuedKeepsTickets(t, id, state);
    hide ExclusiveOwners, SessionsFit, AttemptsFit, JobsFit, RevokesFit, JobSessionsFit, LookupsFit, TicketsFit,
      TicketsSingle, AttemptsPaid, CloseIssued;
  }

  lemma CloseIssuedKeepsTickets(t: Tables, id: string, state: TicketState)
    requires TicketsFit(t.tickets, t.sessions, t.attempts) && TicketsSingle(t.tickets)
    requires AttemptsPaid(t.attempts, t.tickets, t.sessions) && state in {Superseded, TicketRevoked}
    ensures var tickets := CloseIssued(t.tickets, id, state);
      && TicketsFit(tickets, t.sessions, t.attempts) && TicketsSingle(tickets)
      && AttemptsPaid(t.attempts, tickets, t.sessions) && NoIssued(tickets, id)
  {
    var tickets := CloseIssued(t.tickets, id, state);
    assert forall d, s :: ConsumedFor(t.tickets, t.sessions, d, s) ==> ConsumedFor(tickets, t.sessions, d, s);
  }
}
