/**
 * The realtime store's tables and its transactions, one function for each.
 *
 * A transaction is all or nothing: Raised carries the tables it started from, except in the few
 * places where the store commits a denial first and raises afterwards. Clock readings, deadlines
 * that have or have not passed, adapter checks and provider answers are inputs.
 */
module RealtimeTables {
  import opened Base

  datatype TicketState = Issued | Superseded | Consumed | TicketRevoked
  datatype Ticket = Ticket(subject: string, session: string, expires: int, state: TicketState)

  datatype SessionState = New | Activating | Indeterminate | Active | Revoked
  datatype Session = Session(subject: string, state: SessionState, generation: int,
                             remote: Option<string>, receipt: Option<string>)

  datatype Attempt = Attempt(id: string, subject: string, generation: int)

  /** The outbox key: "provider:" + remote id, or "lookup:" + session id. */
  datatype JobId = Known(remote: string) | Lookup(session: string) {
    function Text(): string {
      match this
      case Known(r) => "provider:" + r
      case Lookup(s) => "lookup:" + s
    }
  }
  datatype Job = Job(session: string, remote: Option<string>, pending: bool)

  /** lookups and revokes are the two spent-attempt counters; the limits are the persisted policy row. */
  datatype Tables = Tables(
    tickets: map<string, Ticket>, sessions: map<string, Session>, attempts: map<string, Attempt>,
    outbox: map<JobId, Job>, lookups: map<string, int>, revokes: map<JobId, int>,
    lookupLimit: int, revokeLimit: int)

  datatype Code =
    | BindingInvalid | AdapterMismatch | IntegrityError | CounterInvalid
    | ClockInvalid | ClockRollback | TicketExpired | DeadlineExpired | TicketExpiryInvalid
    | SubjectConflict | SessionNotNew | CapacityExhausted | TicketInvalid | TicketReplayed
    | SessionUnknown | SessionNotActive | StaleGeneration | RevokedOrStale | AttemptTicketInvalid
    | ReconcileInvalid | AttemptMissing | ReadbackExhausted | CleanupBindingInvalid
    | OwnerConflict | IdentityConflict | JobMissing

  /** What a transaction leaves behind: committed with a result, or the error its caller sees. */
  datatype Tx =
    | Committed(tables: Tables)
    | Raised(tables: Tables, code: Code)

  datatype Activation = Activation(remote: string, receipt: string)

  /** Readings one transaction takes: up to two clock values, two deadline checks, two adapter checks. */
  datatype Readings = Readings(now: int, later: int, late: bool, laterLate: bool, adapter: bool, laterAdapter: bool)

  function EmptyTables(lookupLimit: int, revokeLimit: int): Tables {
    Tables(map[], map[], map[], map[], map[], map[], lookupLimit, revokeLimit)
  }

  // ----- queries -----

  datatype Check = Fresh(now: int) | Unfit(code: Code)

  /** The admission window: a valid clock, not run backwards, before expiry, before the deadline. */
  function Window(expires: int, earliest: int, now: int, late: bool): Check {
    if !Timestamp(now) then Unfit(ClockInvalid)
    else if now < earliest then Unfit(ClockRollback)
    else if !Timestamp(expires) || now >= expires then Unfit(TicketExpired)
    else if late then Unfit(DeadlineExpired)
    else Fresh(now)
  }

  predicate ConsumedFor(tickets: map<string, Ticket>, sessions: map<string, Session>, digest: string, id: string) {
    && digest in tickets && id in sessions
    && tickets[digest].session == id && tickets[digest].subject == sessions[id].subject
    && tickets[digest].state.Consumed?
  }

  /** The expiry of the one ticket the session consumed; None when that is not exactly one. */
  function AttemptExpiry(t: Tables, id: string): Option<int> {
    var spent := set d | d in t.tickets && ConsumedFor(t.tickets, t.sessions, d, id);
    if |spent| != 1 then None else
    SingletonElements(spent);
    var d :| d in spent;
    if Timestamp(t.tickets[d].expires) then Some(t.tickets[d].expires) else None
  }

  /** The window of a pending session; a missing or duplicated ticket is unfit too. */
  function AttemptWindow(t: Tables, id: string, earliest: int, now: int, late: bool): Check {
    match AttemptExpiry(t, id)
    case None => Unfit(AttemptTicketInvalid)
    case Some(expires) => Window(expires, earliest, now, late)
  }

  predicate OwnedElsewhere(sessions: map<string, Session>, outbox: map<JobId, Job>, id: string, remote: string) {
    || (exists s :: s in sessions && sessions[s].remote == Some(remote) && s != id)
    || (exists j :: j in outbox && outbox[j].remote == Some(remote) && outbox[j].session != id)
  }

  /** The attempt row is this attempt, for the session's subject and current generation. */
  predicate Exact(t: Tables, id: string, attempt: string) {
    && id in t.attempts && id in t.sessions
    && t.attempts[id] == Attempt(attempt, t.sessions[id].subject, t.sessions[id].generation)
  }

  predicate CounterFit<K>(counters: map<K, int>, key: K, limit: int) {
    key in counters && 0 <= counters[key] <= limit
  }

  predicate ValidActivation(a: Activation) {
    Identifier(a.remote) && Identifier(a.receipt)
  }

  // ----- table updates -----

  /** UPDATE tickets SET state=? WHERE session_id=? AND state='issued'. */
  function CloseIssued(tickets: map<string, Ticket>, id: string, state: TicketState): map<string, Ticket> {
    map d | d in tickets ::
      if tickets[d].session == id && tickets[d].state.Issued? then tickets[d].(state := state) else tickets[d]
  }

  function WithSession(t: Tables, id: string, row: Session): Tables {
    t.(sessions := t.sessions[id := row])
  }

  /** Terminal local denial: one more generation, whatever the state was. */
  function RevokeRow(row: Session): Session {
    row.(state := Revoked, generation := row.generation + 1)
  }

  // ----- cleanup custody -----

  datatype Queued = Queued(tables: Tables, job: JobId) | QueueFault(code: Code)

  /** Take custody of one remote session, or of the need to look one up. */
  function QueueRevoke(t: Tables, id: string, remote: Option<string>): Queued {
    var target := if remote.Some? && OwnedElsewhere(t.sessions, t.outbox, id, remote.value) then None else remote;
    var job := if target.Some? then Known(target.value) else Lookup(id);
    if job !in t.outbox then
      var inserted := t.(outbox := t.outbox[job := Job(id, target, true)]);
      if target.None? then Queued(inserted, job)
      else if job in t.revokes then QueueFault(IntegrityError)
      else Queued(inserted.(revokes := t.revokes[job := 0]), job)
    else if t.outbox[job].session != id || t.outbox[job].remote != target then QueueFault(CleanupBindingInvalid)
    else if target.None? then Queued(t.(outbox := t.outbox[job := t.outbox[job].(pending := true)]), job)
    else if CounterFit(t.revokes, job, t.revokeLimit) then Queued(t, job)
    else QueueFault(CounterInvalid)
  }

  /** The identities a refused result leaves to clean up, in the order the store visits them. */
  function Identities(observed: string, stored: Option<string>): seq<string> {
    if stored.None? || stored.value == observed then [observed]
    else if Precedes(observed, stored.value) then [observed, stored.value]
    else [stored.value, observed]
  }

  datatype Cleanup = Cleanup(tables: Tables, unresolved: bool) | CleanupFault(code: Code)

  /** Queue every identity; if each became a known job the session's lookup job is settled. */
  function QueueAll(t: Tables, id: string, identities: seq<string>): Cleanup
    decreases |identities|
  {
    if identities == [] then Cleanup(t, false) else
    match QueueRevoke(t, id, Some(identities[0]))
    case QueueFault(code) => CleanupFault(code)
    case Queued(next, job) =>
      match QueueAll(next, id, identities[1..])
      case CleanupFault(code) => CleanupFault(code)
      case Cleanup(last, unresolved) => Cleanup(last, unresolved || job.Lookup?)
  }

  function SettleLookup(t: Tables, id: string): Tables {
    if Lookup(id) in t.outbox
    then t.(outbox := t.outbox[Lookup(id) := t.outbox[Lookup(id)].(pending := false)])
    else t
  }

  /** Commit a refusal of an observed result with all its cleanup, then raise it to the caller. */
  function Refuse(start: Tables, t: Tables, id: string, observed: string, stored: Option<string>, code: Code): Tx {
    match QueueAll(t, id, Identities(observed, stored))
    case CleanupFault(fault) => Raised(start, fault)
    case Cleanup(last, unresolved) => Raised(if unresolved then last else SettleLookup(last, id), code)
  }

  // ----- transactions -----

  /** DurableRealtimeStore.issue_ticket. */
  function IssueTicket(t: Tables, digest: string, subject: string, id: string, ttl: int, capacity: int,
                       r: Readings): Tx {
    var expires := r.now + ttl;
    if !Identifier(subject) || !Identifier(id) then Raised(t, BindingInvalid)
    else if !r.adapter then Raised(t, AdapterMismatch)
    else if !Timestamp(r.now) then Raised(t, ClockInvalid)
    else if !Timestamp(expires) then Raised(t, TicketExpiryInvalid)
    else if id in t.sessions && t.sessions[id].subject != subject then Raised(t, SubjectConflict)
    else if id in t.sessions && !t.sessions[id].state.New? then Raised(t, SessionNotNew)
    else if |t.tickets| >= capacity then Raised(t, CapacityExhausted)
    else if id !in t.sessions && id in t.lookups then Raised(t, IntegrityError)
    else if id in t.sessions && !CounterFit(t.lookups, id, t.lookupLimit) then Raised(t, CounterInvalid)
    else if digest in t.tickets then Raised(t, IntegrityError)
    else match Window(expires, r.now, r.later, false)
      case Unfit(code) => Raised(t, code)
      case Fresh(_) =>
        if !r.laterAdapter then Raised(t, AdapterMismatch) else
        var present := if id in t.sessions then t
                      else t.(sessions := t.sessions[id := Session(subject, New, 1, None, None)],
                              lookups := t.lookups[id := 0]);
        Committed(present.(tickets :=
          CloseIssued(t.tickets, id, Superseded)[digest := Ticket(subject, id, expires, Issued)]))
  }

  /** The reserving transaction of DurableRealtimeStore.activate. */
  function BeginActivate(t: Tables, digest: string, subject: string, id: string, attempt: string, r: Readings): Tx {
    if !r.adapter then Raised(t, AdapterMismatch)
    else if !Timestamp(r.now) then Raised(t, ClockInvalid)
    else if digest !in t.tickets || t.tickets[digest].subject != subject || t.tickets[digest].session != id
      then Raised(t, TicketInvalid)
    else if t.tickets[digest].expires <= r.now then Raised(t, TicketExpired)
    else if !t.tickets[digest].state.Issued? then Raised(t, TicketReplayed)
    else if id !in t.sessions then Raised(t, SessionUnknown)
    else if t.sessions[id].subject != subject || !t.sessions[id].state.New? then Raised(t, SessionNotNew)
    else if !CounterFit(t.lookups, id, t.lookupLimit) then Raised(t, CounterInvalid)
    else if id in t.attempts || exists s :: s in t.attempts && t.attempts[s].id == attempt
      then Raised(t, IntegrityError)
    else match Window(t.tickets[digest].expires, r.now, r.later, r.late)
      case Unfit(code) => Raised(t, code)
      case Fresh(_) =>
        if !r.laterAdapter then Raised(t, AdapterMismatch) else
        var row := t.sessions[id];
        var spent := t.tickets[digest := t.tickets[digest].(state := Consumed)];
        Committed(t.(tickets := CloseIssued(spent, id, Superseded),
                     attempts := t.attempts[id := Attempt(attempt, subject, row.generation)],
                     sessions := t.sessions[id := row.(state := Activating)]))
  }

  /** The check a worker makes before provider.activate; it changes nothing. */
  predicate MayDispatch(t: Tables, id: string, attempt: string, earliest: int, r: Readings) {
    && id in t.sessions && t.sessions[id].state.Activating?
    && Exact(t, id, attempt)
    && AttemptWindow(t, id, earliest, r.now, r.late).Fresh?
    && r.adapter
  }

  /** A pending session whose window cannot be shown open is denied for good, keeping cleanup custody. */
  function ExpirePending(start: Tables, t: Tables, id: string, now: int): Tx
    requires id in t.sessions
  {
    var row := t.sessions[id];
    if !row.state.Activating? && !row.state.Indeterminate? then Committed(t)
    else if AttemptWindow(t, id, 0, now, false).Fresh? then Committed(t)
    else match QueueRevoke(WithSession(t, id, RevokeRow(row)), id, row.remote)
      case QueueFault(code) => Raised(start, code)
      case Queued(next, _) => Committed(next)
  }

  /** DurableRealtimeStore._indeterminate: no result in time. */
  function GiveUp(t: Tables, id: string, attempt: string, now: int): Tx {
    if id !in t.sessions then Raised(t, SessionUnknown) else
    var row := t.sessions[id];
    var marked := if row.state.Activating? && id in t.attempts && t.attempts[id].id == attempt
                  then WithSession(t, id, row.(state := Indeterminate)) else t;
    ExpirePending(t, marked, id, now)
  }

  /** Reconciling an active session, or a revoked one that never dispatched, answers without a lookup. */
  predicate AnswersAtOnce(t: Tables, id: string) {
    id in t.sessions && (t.sessions[id].state.Active? || (t.sessions[id].state.Revoked? && id !in t.attempts))
  }

  /** The admitting transaction of DurableRealtimeStore.reconcile: deny if expired, then pay for the lookup. */
  function BeginReconcile(t: Tables, id: string, r: Readings): Tx {
    if id !in t.sessions then Raised(t, SessionUnknown)
    else if t.sessions[id].state.Active? && !r.adapter then Raised(t, AdapterMismatch)
    else if AnswersAtOnce(t, id) then Committed(t)
    else if t.sessions[id].state.New? then Raised(t, ReconcileInvalid)
    else if id !in t.attempts then Raised(t, AttemptMissing)
    else match ExpirePending(t, t, id, r.later)
      case Raised(_, code) => Raised(t, code)
      case Committed(next) =>
        if !CounterFit(next.lookups, id, next.lookupLimit) then Raised(t, CounterInvalid)
        else if next.lookups[id] == next.lookupLimit then Raised(next, ReadbackExhausted)
        else Committed(next.(lookups := next.lookups[id := next.lookups[id] + 1]))
  }

  /** Terminal local denial: the session is revoked, unless it was, and its issued tickets with it. */
  function DenyLocally(t: Tables, id: string): Tables
    requires id in t.sessions
  {
    var row := t.sessions[id];
    var denied := if row.state.Revoked? then t else WithSession(t, id, RevokeRow(row));
    denied.(tickets := CloseIssued(t.tickets, id, TicketRevoked))
  }

  /** DurableRealtimeStore._commit_activation for a well-formed result. */
  function CommitActivation(t: Tables, id: string, attempt: string, a: Activation, earliest: int, r: Readings): Tx {
    if !r.adapter then Raised(t, AdapterMismatch)
    else if id !in t.sessions then Raised(t, SessionUnknown) else
    var row := t.sessions[id];
    var other := OwnedElsewhere(t.sessions, t.outbox, id, a.remote);
    var conflicting := row.remote.Some? && (row.remote != Some(a.remote) || row.receipt != Some(a.receipt));
    if other || conflicting then
      Refuse(t, DenyLocally(t, id), id, a.remote, row.remote, if other then OwnerConflict else IdentityConflict)
    else if row.state.Active? then
      if !Exact(t, id, attempt) then Raised(t, RevokedOrStale)
      else if r.late then Raised(t, DeadlineExpired)
      else Committed(t)
    else if Exact(t, id, attempt) && (row.state.Activating? || row.state.Indeterminate?) then
      Admit(t, id, a, earliest, r)
    else Refuse(t, t, id, a.remote, row.remote, RevokedOrStale)
  }

  /** The exact branch of _commit_activation: the window is checked before and after the row is made active. */
  function Admit(t: Tables, id: string, a: Activation, earliest: int, r: Readings): Tx
    requires id in t.sessions
  {
    var row := t.sessions[id];
    var active := WithSession(t, id, row.(state := Active, remote := Some(a.remote), receipt := Some(a.receipt)));
    match AttemptWindow(t, id, earliest, r.now, r.late)
    case Unfit(code) => Reject(t, t, id, a, row.remote, code)
    case Fresh(first) =>
      match AttemptWindow(t, id, first, r.later, r.laterLate)
      case Unfit(code) => Reject(t, active, id, a, row.remote, code)
      case Fresh(_) => if r.laterAdapter then Committed(active) else Raised(t, AdapterMismatch)
  }

  /** A missed deadline leaves the session indeterminate; any other failed window denies it with cleanup. */
  function Reject(start: Tables, t: Tables, id: string, a: Activation, stored: Option<string>, code: Code): Tx
    requires id in t.sessions
  {
    if code.DeadlineExpired? then Raised(WithSession(t, id, t.sessions[id].(state := Indeterminate)), code)
    else Refuse(start, WithSession(t, id, RevokeRow(t.sessions[id])), id, a.remote, stored, code)
  }

  /** DurableRealtimeStore.interrupt. */
  function Interrupt(t: Tables, id: string, generation: int, adapter: bool): Tx {
    if !adapter then Raised(t, AdapterMismatch)
    else if id !in t.sessions then Raised(t, SessionUnknown)
    else if !t.sessions[id].state.Active? then Raised(t, SessionNotActive)
    else if t.sessions[id].generation != generation then Raised(t, StaleGeneration)
    else Committed(WithSession(t, id, t.sessions[id].(generation := generation + 1)))
  }

  /** The denying transaction of DurableRealtimeStore.revoke. */
  function Revoke(t: Tables, id: string): Tx {
    if id !in t.sessions then Raised(t, SessionUnknown) else
    var row := t.sessions[id];
    var closed := DenyLocally(t, id);
    if row.remote.None? && !row.state.Activating? && !row.state.Indeterminate? then Committed(closed)
    else match QueueRevoke(closed, id, row.remote)
      case QueueFault(code) => Raised(t, code)
      case Queued(next, _) => Committed(next)
  }

  /** Whether _drain_known goes on to a worker once its reservation is committed. */
  predicate DrainDispatches(t: Tables, job: JobId) {
    && job in t.outbox && t.outbox[job].pending && t.outbox[job].remote.Some?
    && CounterFit(t.revokes, job, t.revokeLimit) && t.revokes[job] < t.revokeLimit
    && !OwnedElsewhere(t.sessions, t.outbox, t.outbox[job].session, t.outbox[job].remote.value)
  }

  /** The reserving transaction of _drain_known. */
  function BeginDrain(t: Tables, job: JobId): Tx {
    if job !in t.outbox then Raised(t, JobMissing)
    else if !t.outbox[job].pending || t.outbox[job].remote.None? then Committed(t)
    else if !CounterFit(t.revokes, job, t.revokeLimit) then Raised(t, CounterInvalid)
    else if t.revokes[job] == t.revokeLimit then Committed(t)
    else Committed(t.(revokes := t.revokes[job := t.revokes[job] + 1]))
  }

  /** The binding check a cleanup worker and its caller both make on the job they hold. */
  predicate JobBound(t: Tables, job: JobId, id: string, remote: string) {
    job in t.outbox && t.outbox[job].session == id && t.outbox[job].remote == Some(remote)
  }

  /** The completing transaction of _drain_known, after provider.revoke returned None. */
  function FinishDrain(t: Tables, job: JobId, id: string, remote: string, adapter: bool): Tx {
    if !adapter then Raised(t, AdapterMismatch)
    else if !JobBound(t, job, id, remote) then Raised(t, CleanupBindingInvalid)
    else Committed(t.(outbox := t.outbox[job := t.outbox[job].(pending := false)]))
  }

  // ----- opening -----

  /** realtime_recovery.validate_budgets: one counter for every session and known job, within the policy's limits. */
  predicate BudgetsValid(t: Tables) {
    && t.lookups.Keys == t.sessions.Keys
    && (forall s :: s in t.lookups ==> 0 <= t.lookups[s] <= t.lookupLimit)
    && t.revokes.Keys == (set j | j in t.outbox && t.outbox[j].remote.Some?)
    && (forall j :: j in t.revokes ==> 0 <= t.revokes[j] <= t.revokeLimit)
  }

  /** What a host opens a store with; declared is the binding its adapter declares, if it declares any. */
  datatype Opening = Opening(ttl: int, records: int, workers: int, lookups: int, revokes: int, binding: string,
                             declared: Option<string>)

  datatype OpenCode =
    | TtlInvalid | RecordsInvalid | ConfigurationInvalid | LimitsInvalid | ScopeInvalid | ScopeMismatch
    | MigrationRequired | CountersInvalid

  predicate Limits(lookups: int, revokes: int) {
    1 <= lookups <= 32 && 1 <= revokes <= 32
  }

  function ConfigurationFault(o: Opening): Option<OpenCode> {
    if !(1 <= o.ttl <= 300) then Some(TtlInvalid)
    else if !(1 <= o.records <= 1000000) then Some(RecordsInvalid)
    else if !(1 <= o.workers <= 16) then Some(ConfigurationInvalid)
    else if !Limits(o.lookups, o.revokes) then Some(LimitsInvalid)
    else if !Label(o.binding, 128) then Some(ScopeInvalid)
    else if o.declared.Some? && o.declared.value != o.binding then Some(ScopeMismatch)
    else None
  }

  /** The checks of opening a store that exists, under its persisted limits and provider scope. */
  function ReopenFault(t: Tables, scope: string, o: Opening): Option<OpenCode> {
    if ConfigurationFault(o).Some? then ConfigurationFault(o)
    else if !Limits(t.lookupLimit, t.revokeLimit) then Some(LimitsInvalid)
    else if t.lookupLimit != o.lookups || t.revokeLimit != o.revokes then Some(MigrationRequired)
    else if !BudgetsValid(t) then Some(CountersInvalid)
    else if scope != o.binding then Some(ScopeMismatch)
    else None
  }
}
