/**
 * The durable capability gateway's ledger and its transactions, one function for each.
 *
 * Digests are injective, so a digest is represented by what it digests: an operation key by subject and
 * idempotency key, an argument digest by the arguments, a fingerprint by request and registration.
 */
module CapabilityLedger {
  import opened Base

  datatype Risk = R0 | R1 | R2 | R3 | R4
  datatype Trust = System | User | Untrusted

  type Arguments = map<string, string>

  datatype Spec = Spec(risk: Risk, required: set<string>, optional: set<string>)
  datatype Registration = Registration(spec: Spec, provider: string)

  /** What is offered for registration: a contract under a name, and what the adapter itself claims to be pinned to. */
  datatype Contract = Contract(name: string, mutating: bool, spec: Spec, reconciles: bool)
  datatype Adapter = Adapter(usable: bool, provider: Option<string>, contract: Option<Contract>, authorizes: bool)

  datatype Request = Request(id: string, task: string, subject: string, device: string, name: string,
                             arguments: Arguments, key: string, deadline: int, origin: Trust,
                             confirmation: Option<Arguments>)

  datatype Lease = Lease(id: string, subject: string, device: string, task: string, action: string,
                         arguments: Arguments, expires: int, biometric: bool, singleUse: bool)

  datatype Key = Key(subject: string, key: string)
  datatype Fingerprint = Fingerprint(request: Request, registration: Registration)

  datatype State = Dispatching | Indeterminate | Succeeded | Failed | Denied

  datatype Denial =
    | SubjectRevoked | DeadlineExpired | R4Disabled | FieldsMissing | FieldsUnknown | UntrustedContent | LeaseRequired
    | LeaseInvalid | LeaseExpired | LeaseMismatch | BiometricRequired | ConfirmationMismatch | LeaseConsumed

  datatype Reason =
    | Reserved | DispatchNotStarted | AuthorityExpired | Unavailable | TerminalApplied | TerminalNotApplied
    | Nonterminal | TerminalConflict | DeniedFor(denial: Denial)

  datatype Operation = Operation(fingerprint: Fingerprint, id: string, provider: string, arguments: Arguments,
                                 state: State, reason: Reason, external: Option<string>, prepared: Option<nat>,
                                 completed: Option<nat>, reconciled: bool, readbacks: nat, created: int)

  datatype Kind = Prepared | Closed(state: State)
  datatype Event = Event(key: Key, kind: Kind, at: int)

  datatype Suspension = RevocationCapacity | ClockUnavailable

  /** suspended is the control singleton; an event's sequence number is its position, counted from one. */
  datatype Ledger = Ledger(operations: map<Key, Operation>, leases: map<string, Key>, revoked: map<string, int>,
                           events: seq<Event>, suspended: Option<Suspension>)

  datatype Disposition = Applied | NotApplied | Unknown | Unrecognized
  datatype Observation = Observation(operation: string, provider: string, arguments: Arguments,
                                     disposition: Disposition, terminal: bool, external: Option<string>)

  datatype Code =
    | RequestInvalid | CapabilityUnknown | IdempotencyConflict | DispatchSuspended | CapacityExhausted | ClockInvalid
    | IntegrityError | OperationUnknown | ReceiptConflict | ReadbackExhausted | SubjectInvalid | RevocationExhausted
    | DispatchFenced | DispatchExpired | SpecInvalid | AdapterMismatch | AlreadyRegistered

  datatype Tx = Committed(ledger: Ledger) | Raised(ledger: Ledger, code: Code)

  const EMPTY := Ledger(map[], map[], map[], [], None)

  // ----- validation -----

  predicate ValidRequest(q: Request) {
    && Identifier(q.id) && Identifier(q.task) && Identifier(q.subject) && Identifier(q.device) && Identifier(q.name)
    && Identifier(q.key) && Timestamp(q.deadline)
  }

  /** register: the contract is well formed, its fields disjoint, and the adapter pinned to nothing else. */
  function RegisterFault(known: set<string>, c: Contract, provider: string, adapter: Adapter): Option<Code> {
    if !Identifier(c.name) || !c.mutating || !Identifier(provider, 128)
       || (exists f :: f in c.spec.required + c.spec.optional && !Identifier(f, 128))
       || c.spec.required * c.spec.optional != {} || !adapter.usable
    then Some(SpecInvalid)
    else if (adapter.provider.Some? && adapter.provider.value != provider) || !adapter.authorizes
         || (adapter.contract.Some? && adapter.contract.value != c)
    then Some(AdapterMismatch)
    else if c.name in known then Some(AlreadyRegistered)
    else None
  }

  function KeyOf(q: Request): Key {
    Key(q.subject, q.key)
  }

  /** External ids are 1 to 256 characters of a small alphabet. */
  predicate Opaque(s: string) {
    && 1 <= |s| <= 256
    && forall i :: 0 <= i < |s| ==> 'A' <= s[i] <= 'Z' || 'a' <= s[i] <= 'z' || '0' <= s[i] <= '9' || s[i] in "_.:-"
  }

  predicate Terminal(state: State) {
    state.Succeeded? || state.Failed? || state.Denied?
  }

  /** Why a new operation may not be dispatched, checked in the source's order. */
  function DenialOf(l: Ledger, q: Request, spec: Spec, lease: Option<Lease>, now: int): Option<Denial> {
    if q.subject in l.revoked then Some(SubjectRevoked)
    else if now >= q.deadline then Some(DeadlineExpired)
    else if spec.risk.R4? then Some(R4Disabled)
    else if !(spec.required <= q.arguments.Keys) then Some(FieldsMissing)
    else if q.arguments.Keys - spec.required - spec.optional != {} then Some(FieldsUnknown)
    else if q.origin.Untrusted? && q.confirmation.None? then Some(UntrustedContent)
    else if lease.None? then Some(LeaseRequired)
    else if !Identifier(lease.value.id) || !Timestamp(lease.value.expires) || !lease.value.singleUse
      then Some(LeaseInvalid)
    else if now >= lease.value.expires then Some(LeaseExpired)
    else if lease.value.subject != q.subject || lease.value.device != q.device || lease.value.task != q.task
         || lease.value.action != q.name || lease.value.arguments != q.arguments then Some(LeaseMismatch)
    else if spec.risk.R3? && !lease.value.biometric then Some(BiometricRequired)
    else if q.confirmation.Some? && q.confirmation.value != lease.value.arguments then Some(ConfirmationMismatch)
    else if lease.value.id in l.leases then Some(LeaseConsumed)
    else None
  }

  /** The observation names this operation, its provider and its arguments. */
  predicate Bound(row: Operation, o: Observation) {
    o.operation == row.id && o.provider == row.provider && o.arguments == row.arguments
  }

  predicate ValidObservation(row: Operation, o: Observation) {
    && Bound(row, o)
    && !o.disposition.Unrecognized?
    && (o.external.Some? ==> Opaque(o.external.value))
    && (row.external.Some? && o.external.Some? ==> o.external == row.external)
  }

  // ----- updates -----

  /** _finish: append the event, close the row with it; None when the clock is unusable and the transaction raises. */
  function Finish(l: Ledger, key: Key, state: State, reason: Reason, external: Option<string>, reconciled: bool,
                  now: int): Tx
    requires key in l.operations
  {
    if !Timestamp(now) then Raised(l, ClockInvalid) else
    var row := l.operations[key];
    Committed(l.(
      events := l.events + [Event(key, Closed(state), now)],
      operations := l.operations[key := row.(state := state, reason := reason,
        external := if external.Some? then external else row.external,
        completed := Some(|l.events| + 1), reconciled := row.reconciled || reconciled)]))
  }

  /** _observe: only a valid terminal observation closes the operation. */
  function Observe(l: Ledger, key: Key, observation: Option<Observation>, reconciled: bool, now: int): Tx
    requires key in l.operations
  {
    if observation.None? || !ValidObservation(l.operations[key], observation.value) then
      Finish(l, key, Indeterminate, Unavailable, None, reconciled, now)
    else
      var o := observation.value;
      if o.terminal && o.disposition.Applied?
        then Finish(l, key, Succeeded, TerminalApplied, o.external, reconciled, now)
      else if o.terminal && o.disposition.NotApplied?
        then Finish(l, key, Failed, TerminalNotApplied, o.external, reconciled, now)
      else Finish(l, key, Indeterminate, Nonterminal, o.external, reconciled, now)
  }

  /** A bound terminal observation that contradicts a closed operation. */
  predicate Contradicts(row: Operation, o: Observation) {
    && Bound(row, o) && o.terminal
    && ((row.state.Failed? && o.disposition.Applied?) || (row.state.Succeeded? && o.disposition.NotApplied?))
  }

  /** _record_conflict. */
  function RecordConflict(l: Ledger, key: Key, observation: Option<Observation>, now: int): Tx
    requires key in l.operations
  {
    if observation.Some? && Contradicts(l.operations[key], observation.value)
    then Finish(l, key, Indeterminate, TerminalConflict, None, true, now)
    else Committed(l)
  }

  predicate Open(row: Operation) {
    !Terminal(row.state) && !row.reason.TerminalConflict?
  }

  // ----- transactions -----

  /** What execute writes for a new operation: its row, its first event and the lease it consumes. */
  function Written(l: Ledger, q: Request, registration: Registration, used: Option<Lease>, id: string,
                   denial: Option<Denial>, now: int, later: int): Ledger {
    var key, sequence := KeyOf(q), |l.events| + 1;
    var row := Operation(Fingerprint(q, registration), id, registration.provider, q.arguments,
      if denial.Some? then Denied else Dispatching, if denial.Some? then DeniedFor(denial.value) else Reserved, None,
      if denial.Some? then None else Some(sequence), if denial.Some? then Some(sequence) else None, false, 0, now);
    l.(operations := l.operations[key := row],
       events := l.events + [Event(key, if denial.Some? then Closed(Denied) else Prepared, later)],
       leases := if used.Some? then l.leases[used.value.id := key] else l.leases)
  }

  /** The reserving transaction of execute: a replay or an error changes nothing. */
  function Reserve(l: Ledger, q: Request, registration: Option<Registration>, lease: Option<Lease>, id: string,
                   capacity: int, now: int, later: int): Tx {
    var key := KeyOf(q);
    if !ValidRequest(q) then Raised(l, RequestInvalid)
    else if registration.None? then Raised(l, CapabilityUnknown)
    else if key in l.operations then
      if l.operations[key].fingerprint != Fingerprint(q, registration.value) then Raised(l, IdempotencyConflict)
      else Committed(l)
    else if l.suspended.Some? then Raised(l, DispatchSuspended)
    else if |l.operations| >= capacity then Raised(l, CapacityExhausted)
    else if !Timestamp(now) then Raised(l, ClockInvalid)
    else
      var denial := DenialOf(l, q, registration.value.spec, lease, now);
      if exists k :: k in l.operations && l.operations[k].id == id then Raised(l, IntegrityError)
      else if !Timestamp(later) then Raised(l, ClockInvalid)
      else Committed(Written(l, q, registration.value, if denial.None? then lease else None, id, denial, now, later))
  }

  /** Whether execute goes on to a worker: this call itself reserved the operation. */
  predicate Dispatches(l: Ledger, q: Request, registration: Option<Registration>, lease: Option<Lease>, id: string,
                       capacity: int, now: int, later: int) {
    var x := Reserve(l, q, registration, lease, id, capacity, now, later);
    x.Committed? && KeyOf(q) !in l.operations && x.ledger.operations[KeyOf(q)].state.Dispatching?
  }

  /** What the check immediately before the provider must see. */
  predicate Cleared(l: Ledger, key: Key, limit: int, now: int, late: bool) {
    && key in l.operations && l.operations[key].state.Dispatching?
    && l.suspended.None? && key.subject !in l.revoked
    && Timestamp(now) && now < limit && !late
  }

  /** The transaction that begins dispatch: an operation that lost its authority is failed here. */
  function CheckDispatch(l: Ledger, key: Key, limit: int, now: int, late: bool, later: int): Tx
    requires key in l.operations
  {
    if !l.operations[key].state.Dispatching? || Cleared(l, key, limit, now, late) then Committed(l)
    else if !Timestamp(now) then Raised(l, ClockInvalid)
    else Finish(l, key, Failed, AuthorityExpired, None, false, later)
  }

  datatype Outcome = NotStarted | Completed(value: Option<Observation>) | NoAnswer

  function Answer(outcome: Outcome): Option<Observation> {
    if outcome.Completed? then outcome.value else None
  }

  /** The closing transaction of execute. */
  function Close(l: Ledger, key: Key, outcome: Outcome, now: int): Tx
    requires key in l.operations
  {
    if Open(l.operations[key]) then
      if outcome.NotStarted? then Finish(l, key, Failed, DispatchNotStarted, None, false, now)
      else Observe(l, key, Answer(outcome), false, now)
    else if outcome.Completed? then RecordConflict(l, key, outcome.value, now)
    else Committed(l)
  }

  /** The reserving transaction of reconcile. */
  function ReserveReadback(l: Ledger, q: Request, registration: Option<Registration>, limit: int): Tx {
    var key := KeyOf(q);
    if !ValidRequest(q) then Raised(l, RequestInvalid)
    else if registration.None? then Raised(l, CapabilityUnknown)
    else if key !in l.operations then Raised(l, OperationUnknown)
    else
      var row := l.operations[key];
      if row.fingerprint != Fingerprint(q, registration.value) then Raised(l, IdempotencyConflict)
      else if row.reason.TerminalConflict? then Raised(l, ReceiptConflict)
      else if Terminal(row.state) then Committed(l)
      else if row.readbacks >= limit then Raised(l, ReadbackExhausted)
      else Committed(l.(operations := l.operations[key := row.(readbacks := row.readbacks + 1)]))
  }

  /** The closing transaction of reconcile. */
  function CloseReadback(l: Ledger, key: Key, outcome: Outcome, now: int): Tx
    requires key in l.operations
  {
    if Open(l.operations[key]) then Observe(l, key, Answer(outcome), true, now)
    else if outcome.Completed? then RecordConflict(l, key, outcome.value, now)
    else Committed(l)
  }

  /** capability_suspension.suspend: the first reason is kept. */
  function Suspend(l: Ledger, reason: Suspension): Ledger {
    if l.suspended.None? then l.(suspended := Some(reason)) else l
  }

  /** revoke_subject: the denial or a suspension is committed first, then a failure is raised. */
  function RevokeSubject(l: Ledger, subject: string, capacity: int, now: int): Tx {
    if !Identifier(subject) then Raised(l, SubjectInvalid)
    else if l.suspended.Some?
      then Raised(l, if l.suspended.value.RevocationCapacity? then RevocationExhausted else ClockInvalid)
    else if subject in l.revoked then Committed(l)
    else if |l.revoked| >= capacity then Raised(Suspend(l, RevocationCapacity), RevocationExhausted)
    else if !Timestamp(now) then Raised(Suspend(l, ClockUnavailable), ClockInvalid)
    else Committed(l.(revoked := l.revoked[subject := now]))
  }

  // ----- receipts -----

  datatype Receipt = Receipt(status: State, id: string, external: Option<string>, reason: Reason, mayHaveOccurred: bool,
                             prepared: Option<nat>, completed: Option<nat>, reconciled: bool)

  function ReceiptOf(row: Operation): Receipt {
    Receipt(if row.state.Dispatching? then Indeterminate else row.state, row.id, row.external, row.reason,
            row.state in {Dispatching, Indeterminate, Succeeded}, row.prepared, row.completed, row.reconciled)
  }
}
