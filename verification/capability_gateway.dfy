/**
 * The durable capability gateway as it runs: ledger tables updated row by row inside transactions, put back when
 * one raises. Each method is one transaction of durable_capabilities.py, proved against its function.
 */
module CapabilityGateway {
  import opened Base
  import opened CapabilityLedger

  function ErrorOf(x: Tx): Option<Code> {
    match x
    case Committed(_) => None
    case Raised(_, code) => Some(code)
  }

  class DurableCapabilityGateway {
    var operations: map<Key, Operation>
    var leases: map<string, Key>
    var revoked: map<string, int>
    var events: seq<Event>
    var suspended: Option<Suspension>
    var registrations: map<string, Registration>

    function View(): Ledger
      reads this
    {
      Ledger(operations, leases, revoked, events, suspended)
    }

    constructor ()
      ensures View() == EMPTY && registrations == map[]
    {
      operations, leases, revoked, events, suspended, registrations := map[], map[], map[], [], None, map[];
    }

    function Registered(name: string): Option<Registration>
      reads this
    {
      if name in registrations then Some(registrations[name]) else None
    }

    /** register: a refused offer, of a taken name among others, changes nothing; every other name keeps what it had. */
    method Register(c: Contract, provider: string, adapter: Adapter) returns (error: Option<Code>)
      modifies this`registrations
      ensures error == RegisterFault(old(registrations).Keys, c, provider, adapter)
      ensures registrations == if error.None? then old(registrations)[c.name := Registration(c.spec, provider)]
                               else old(registrations)
      ensures forall name :: name in old(registrations) ==> Registered(name) == old(Registered(name))
    {
      hide Identifier;
      var fields := c.spec.required + c.spec.optional;
      if !Identifier(c.name) || !c.mutating || !Identifier(provider, 128) { return Some(SpecInvalid); }
      if exists f :: f in fields && !Identifier(f, 128) { return Some(SpecInvalid); }
      if c.spec.required * c.spec.optional != {} || !adapter.usable { return Some(SpecInvalid); }
      if adapter.provider.Some? && adapter.provider.value != provider { return Some(AdapterMismatch); }
      if adapter.contract.Some? && adapter.contract.value != c { return Some(AdapterMismatch); }
      if !adapter.authorizes { return Some(AdapterMismatch); }
      if c.name in registrations { return Some(AlreadyRegistered); }
      registrations := registrations[c.name := Registration(c.spec, provider)];
      error := None;
    }

    method Rollback(saved: Ledger)
      modifies this`operations, this`leases, this`revoked, this`events, this`suspended
      ensures View() == saved
    {
      operations, leases, revoked := saved.operations, saved.leases, saved.revoked;
      events, suspended := saved.events, saved.suspended;
    }

    /** _finish: the event first, then the row that points at it. */
    method Finish(key: Key, state: State, reason: Reason, external: Option<string>, reconciled: bool, now: int)
      returns (error: Option<Code>)
      requires key in operations
      modifies this`operations, this`events
      ensures var x := CapabilityLedger.Finish(old(View()), key, state, reason, external, reconciled, now);
        View() == x.ledger && error == ErrorOf(x)
    {
      if !Timestamp(now) { return Some(ClockInvalid); }
      events := events + [Event(key, Closed(state), now)];
      var row := operations[key];
      operations := operations[key := row.(state := state, reason := reason,
        external := if external.Some? then external else row.external, completed := Some(|events|),
        reconciled := row.reconciled || reconciled)];
      return None;
    }

    method Observe(key: Key, observation: Option<Observation>, reconciled: bool, now: int) returns (error: Option<Code>)
      requires key in operations
      modifies this`operations, this`events
      ensures var x := CapabilityLedger.Observe(old(View()), key, observation, reconciled, now);
        View() == x.ledger && error == ErrorOf(x)
    {
      hide CapabilityLedger.Finish, ValidObservation;
      var state, reason, external := Indeterminate, Unavailable, None;
      if observation.Some? && ValidObservation(operations[key], observation.value) {
        var o := observation.value;
        external := o.external;
        if o.terminal && o.disposition.Applied? {
          state, reason := Succeeded, TerminalApplied;
        } else if o.terminal && o.disposition.NotApplied? {
          state, reason := Failed, TerminalNotApplied;
        } else {
          reason := Nonterminal;
        }
      }
      error := Finish(key, state, reason, external, reconciled, now);
    }

    method RecordConflict(key: Key, observation: Option<Observation>, now: int) returns (error: Option<Code>)
      requires key in operations
      modifies this`operations, this`events
      ensures var x := CapabilityLedger.RecordConflict(old(View()), key, observation, now);
        View() == x.ledger && error == ErrorOf(x)
    {
      hide CapabilityLedger.Finish;
      error := None;
      if observation.Some? && Contradicts(operations[key], observation.value) {
        error := Finish(key, Indeterminate, TerminalConflict, None, true, now);
      }
    }

    /** execute up to the commit of intent, audit and consumed lease. */
    method Execute(q: Request, lease: Option<Lease>, id: string, capacity: int, now: int, later: int)
      returns (error: Option<Code>, dispatches: bool)
      modifies this`operations, this`leases, this`revoked, this`events, this`suspended
      ensures var x := Reserve(old(View()), q, old(Registered(q.name)), lease, id, capacity, now, later);
        View() == x.ledger && error == ErrorOf(x)
      ensures dispatches == Dispatches(old(View()), q, old(Registered(q.name)), lease, id, capacity, now, later)
    {
      hide ValidRequest, DenialOf, Written;
      dispatches := false;
      if !ValidRequest(q) { return Some(RequestInvalid), false; }
      if q.name !in registrations { return Some(CapabilityUnknown), false; }
      var registration, key := registrations[q.name], KeyOf(q);
      if key in operations {
        return if operations[key].fingerprint != Fingerprint(q, registration) then Some(IdempotencyConflict)
          else None, false;
      }
      if suspended.Some? { return Some(DispatchSuspended), false; }
      if |operations| >= capacity { return Some(CapacityExhausted), false; }
      if !Timestamp(now) { return Some(ClockInvalid), false; }
      var saved := View();
      var denial := DenialOf(View(), q, registration.spec, lease, now);
      LeaseWhenAllowed(View(), q, registration.spec, lease, now);
      if exists k :: k in operations && operations[k].id == id { return Some(IntegrityError), false; }
      error := Write(q, registration, if denial.None? then lease else None, id, denial, now, later);
      WrittenRow(saved, q, registration, if denial.None? then lease else None, id, denial, now, later);
      dispatches := error.None? && denial.None?;
    }

    /** Row, event, sequence number and consumed lease, one statement after the other. */
    method Write(q: Request, registration: Registration, used: Option<Lease>, id: string, denial: Option<Denial>,
                 now: int, later: int) returns (error: Option<Code>)
      modifies this`operations, this`leases, this`revoked, this`events, this`suspended
      ensures error == if Timestamp(later) then None else Some(ClockInvalid)
      ensures View() == if error.None? then Written(old(View()), q, registration, used, id, denial, now, later)
        else old(View())
    {
      var key, saved := KeyOf(q), View();
      var row := Operation(Fingerprint(q, registration), id, registration.provider, q.arguments,
        if denial.Some? then Denied else Dispatching, if denial.Some? then DeniedFor(denial.value) else Reserved,
        None, None, None, false, 0, now);
      operations := operations[key := row];
      if !Timestamp(later) {
        Rollback(saved);
        return Some(ClockInvalid);
      }
      events := events + [Event(key, if denial.Some? then Closed(Denied) else Prepared, later)];
      row := if denial.Some? then row.(completed := Some(|events|)) else row.(prepared := Some(|events|));
      operations := operations[key := row];
      if used.Some? { leases := leases[used.value.id := key]; }
      error := None;
    }

    /** The worker's transaction before the provider; go tells whether it may ask. */
    method CheckDispatch(key: Key, limit: int, now: int, late: bool, later: int) returns (error: Option<Code>, go: bool)
      requires key in operations
      modifies this`operations, this`events
      ensures var x := CapabilityLedger.CheckDispatch(old(View()), key, limit, now, late, later);
        View() == x.ledger && error == ErrorOf(x)
      ensures go == Cleared(old(View()), key, limit, now, late)
    {
      hide CapabilityLedger.Finish;
      if !operations[key].state.Dispatching? { return None, false; }
      if !Timestamp(now) { return Some(ClockInvalid), false; }
      if suspended.Some? || key.subject in revoked || now >= limit || late {
        error := Finish(key, Failed, AuthorityExpired, None, false, later);
        return error, false;
      }
      return None, true;
    }

    method Close(key: Key, outcome: Outcome, now: int) returns (error: Option<Code>, receipt: Receipt)
      requires key in operations
      modifies this`operations, this`events
      ensures var x := CapabilityLedger.Close(old(View()), key, outcome, now);
        && View() == x.ledger && error == ErrorOf(x) && key in operations && receipt == ReceiptOf(operations[key])
    {
      hide CapabilityLedger.Finish, CapabilityLedger.Observe, CapabilityLedger.RecordConflict, ReceiptOf;
      error := None;
      KeysKept(View(), key, outcome, now);
      if Open(operations[key]) {
        if outcome.NotStarted? {
          error := Finish(key, Failed, DispatchNotStarted, None, false, now);
        } else {
          error := Observe(key, if outcome.Completed? then outcome.value else None, false, now);
        }
      } else if outcome.Completed? {
        error := RecordConflict(key, outcome.value, now);
      }
      receipt := ReceiptOf(operations[key]);
    }

    method ReserveReadback(q: Request, limit: int) returns (error: Option<Code>)
      modifies this`operations
      ensures var x := CapabilityLedger.ReserveReadback(old(View()), q, old(Registered(q.name)), limit);
        View() == x.ledger && error == ErrorOf(x)
    {
      hide ValidRequest;
      if !ValidRequest(q) { return Some(RequestInvalid); }
      if q.name !in registrations { return Some(CapabilityUnknown); }
      var key := KeyOf(q);
      if key !in operations { return Some(OperationUnknown); }
      var row := operations[key];
      if row.fingerprint != Fingerprint(q, registrations[q.name]) { return Some(IdempotencyConflict); }
      if row.reason.TerminalConflict? { return Some(ReceiptConflict); }
      if Terminal(row.state) { return None; }
      if row.readbacks >= limit { return Some(ReadbackExhausted); }
      operations := operations[key := row.(readbacks := row.readbacks + 1)];
      return None;
    }

    method CloseReadback(key: Key, outcome: Outcome, now: int) returns (error: Option<Code>)
      requires key in operations
      modifies this`operations, this`events
      ensures var x := CapabilityLedger.CloseReadback(old(View()), key, outcome, now);
        View() == x.ledger && error == ErrorOf(x)
    {
      hide CapabilityLedger.Observe, CapabilityLedger.RecordConflict;
      error := None;
      if Open(operations[key]) {
        error := Observe(key, if outcome.Completed? then outcome.value else None, true, now);
      } else if outcome.Completed? {
        error := RecordConflict(key, outcome.value, now);
      }
    }

    /** The failure of an emergency denial is raised only after the suspension it fell back to is committed. */
    method RevokeSubject(subject: string, capacity: int, now: int) returns (error: Option<Code>)
      modifies this`revoked, this`suspended
      ensures var x := CapabilityLedger.RevokeSubject(old(View()), subject, capacity, now);
        View() == x.ledger && error == ErrorOf(x)
    {
      if !Identifier(subject) { return Some(SubjectInvalid); }
      if suspended.None? {
        if subject in revoked { return None; }
        if |revoked| >= capacity {
          suspended := Some(RevocationCapacity);
        } else if !Timestamp(now) {
          suspended := Some(ClockUnavailable);
        } else {
          revoked := revoked[subject := now];
          return None;
        }
      }
      return if suspended.value.RevocationCapacity? then Some(RevocationExhausted) else Some(ClockInvalid);
    }
  }

  lemma WrittenRow(l: Ledger, q: Request, registration: Registration, used: Option<Lease>, id: string,
                   denial: Option<Denial>, now: int, later: int)
    ensures var l' := Written(l, q, registration, used, id, denial, now, later);
      KeyOf(q) in l'.operations && (l'.operations[KeyOf(q)].state.Dispatching? <==> denial.None?)
  {
  }

  lemma LeaseWhenAllowed(l: Ledger, q: Request, spec: Spec, lease: Option<Lease>, now: int)
    ensures DenialOf(l, q, spec, lease, now).None? ==> lease.Some?
  {
  }

  lemma KeysKept(l: Ledger, key: Key, outcome: Outcome, now: int)
    requires key in l.operations
    ensures key in CapabilityLedger.Close(l, key, outcome, now).ledger.operations
  {
    hide ValidObservation, Contradicts;
  }
}
