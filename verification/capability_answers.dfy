/**
 * What the capability gateway answers, said of the request, the lease and the rows alone: who is dispatched and on what
 * authority, why others are denied, and what an observation leaves. Steps of a run are named by their place in it.
 */
module CapabilityAnswers {
  import opened Base
  import opened CapabilityLedger
  import opened CapabilityRuns
  import opened CapabilityTheorems

  // ----- registration -----

  /** An offer is taken exactly when its contract is sound and new and its adapter claims nothing else. */
  lemma RegisteredIff(known: set<string>, c: Contract, provider: string, adapter: Adapter)
    ensures RegisterFault(known, c, provider, adapter) == None <==>
      && Identifier(c.name) && c.name !in known && c.mutating && Identifier(provider, 128)
      && (forall f :: f in c.spec.required || f in c.spec.optional ==> Identifier(f, 128))
      && (forall f :: f in c.spec.required ==> f !in c.spec.optional)
      && adapter.usable && adapter.authorizes
      && (adapter.provider == None || adapter.provider == Some(provider))
      && (adapter.contract == None || adapter.contract == Some(c))
  {
    hide Identifier;
    var both := c.spec.required * c.spec.optional;
    if both == {} {
      forall f | f in c.spec.required ensures f !in c.spec.optional { assert f !in both; }
    }
    if exists f :: f in c.spec.required + c.spec.optional && !Identifier(f, 128) {
      var f :| f in c.spec.required + c.spec.optional && !Identifier(f, 128);
      assert f in c.spec.required || f in c.spec.optional;
    }
    assert forall f :: f in c.spec.required || f in c.spec.optional ==> f in c.spec.required + c.spec.optional;
  }

  // ----- authority -----

  /** The lease is for exactly this act of this person, here, once, and still runs. */
  ghost predicate LeaseFor(q: Request, lease: Lease, now: int) {
    && lease.subject == q.subject && lease.device == q.device && lease.task == q.task
    && lease.action == q.name && lease.arguments == q.arguments
    && lease.singleUse && Identifier(lease.id) && Timestamp(lease.expires) && now < lease.expires
  }

  /** The capability allows the request: its fields, its risk and the trust of its origin. */
  ghost predicate Permitted(q: Request, spec: Spec, lease: Lease) {
    && spec.risk != R4 && (spec.risk == R3 ==> lease.biometric)
    && (forall f :: f in spec.required ==> f in q.arguments)
    && (forall f :: f in q.arguments ==> f in spec.required || f in spec.optional)
    && (q.origin == Untrusted ==> q.confirmation != None)
    && (q.confirmation.Some? ==> q.confirmation.value == q.arguments)
  }

  /** Full authority for a request at this instant. */
  ghost predicate Authorized(l: Ledger, q: Request, spec: Spec, lease: Lease, now: int) {
    && LeaseFor(q, lease, now) && Permitted(q, spec, lease)
    && now < q.deadline && q.subject !in l.revoked && lease.id !in l.leases
  }

  /** A request is denied exactly when there is no lease or the authority is not full. */
  lemma DeniedIff(l: Ledger, q: Request, spec: Spec, lease: Option<Lease>, now: int)
    ensures DenialOf(l, q, spec, lease, now).None? <==> lease.Some? && Authorized(l, q, spec, lease.value, now)
  {
    hide Identifier;
    var unknown := q.arguments.Keys - spec.required - spec.optional;
    if unknown == {} {
      forall f | f in q.arguments ensures f in spec.required || f in spec.optional {
        assert f !in unknown;
      }
    }
  }

  /** The reason of a denial is a fact of the request, its lease or the ledger. */
  ghost predicate Real(l: Ledger, q: Request, spec: Spec, lease: Option<Lease>, now: int, denial: Denial) {
    match denial
    case SubjectRevoked => q.subject in l.revoked
    case DeadlineExpired => q.deadline <= now
    case R4Disabled => spec.risk == R4
    case FieldsMissing => exists f :: f in spec.required && f !in q.arguments
    case FieldsUnknown => exists f :: f in q.arguments && f !in spec.required && f !in spec.optional
    case UntrustedContent => q.origin == Untrusted && q.confirmation == None
    case LeaseRequired => lease == None
    case LeaseInvalid =>
      && lease.Some?
      && (!lease.value.singleUse || !Identifier(lease.value.id) || !Timestamp(lease.value.expires))
    case LeaseExpired => lease.Some? && lease.value.expires <= now
    case LeaseMismatch => lease.Some? && !LeaseFor(q, lease.value, now)
    case BiometricRequired => lease.Some? && spec.risk == R3 && !lease.value.biometric
    case ConfirmationMismatch => q.confirmation.Some? && q.confirmation.value != q.arguments
    case LeaseConsumed => lease.Some? && lease.value.id in l.leases
  }

  lemma ReasonIsReal(l: Ledger, q: Request, spec: Spec, lease: Option<Lease>, now: int)
    ensures var denial := DenialOf(l, q, spec, lease, now);
      denial.Some? ==> Real(l, q, spec, lease, now, denial.value)
  {
    hide Identifier;
  }

  // ----- one execute -----

  /** The request's names are names and its deadline is a time. */
  ghost predicate Wellformed(q: Request) {
    && (forall name :: name in [q.id, q.task, q.subject, q.device, q.name, q.key] ==> Identifier(name, 256))
    && 0 <= q.deadline <= 253402300799
  }

  lemma WellformedIff(q: Request)
    ensures ValidRequest(q) <==> Wellformed(q)
  {
    hide Identifier;
    var names := [q.id, q.task, q.subject, q.device, q.name, q.key];
    assert names[0] == q.id && names[1] == q.task && names[2] == q.subject && names[3] == q.device
      && names[4] == q.name && names[5] == q.key;
  }

  /** The request may be reserved at all: well formed, of a known capability, new, and there is room for it. */
  ghost predicate Admissible(l: Ledger, q: Request, registration: Option<Registration>, id: string, capacity: int) {
    && Wellformed(q) && registration.Some? && l.suspended == None
    && Key(q.subject, q.key) !in l.operations && |l.operations| < capacity
    && (forall k :: k in l.operations ==> l.operations[k].id != id)
  }

  /** What a dispatched request leaves: its open row, one event, one consumed lease. */
  ghost predicate Dispatched(l: Ledger, q: Request, registration: Registration, lease: Lease, id: string, now: int,
                             later: int, l': Ledger) {
    var key, place := Key(q.subject, q.key), |l.events| + 1;
    && l'.operations == l.operations[key := Operation(Fingerprint(q, registration), id, registration.provider,
                          q.arguments, Dispatching, Reserved, None, Some(place), None, false, 0, now)]
    && l'.events == l.events + [Event(key, Prepared, later)]
    && l'.leases == l.leases[lease.id := key]
    && l'.revoked == l.revoked && l'.suspended == l.suspended
  }

  /** What a denied one leaves: its closed row and one event; no lease is touched. */
  ghost predicate TurnedAway(l: Ledger, q: Request, registration: Registration, denial: Denial, id: string, now: int,
                             later: int, l': Ledger) {
    var key, place := Key(q.subject, q.key), |l.events| + 1;
    && l'.operations == l.operations[key := Operation(Fingerprint(q, registration), id, registration.provider,
                          q.arguments, Denied, DeniedFor(denial), None, None, Some(place), false, 0, now)]
    && l'.events == l.events + [Event(key, Closed(Denied), later)]
    && l'.leases == l.leases && l'.revoked == l.revoked && l'.suspended == l.suspended
  }

  /**
   * A request is dispatched exactly when it is admissible under good clocks and its authority is full; an admissible
   * one without full authority is denied for a real reason; and nothing else changes the ledger.
   */
  lemma ExecuteDecides(l: Ledger, q: Request, registration: Option<Registration>, lease: Option<Lease>, id: string,
                       capacity: int, now: int, later: int)
    ensures var x := Reserve(l, q, registration, lease, id, capacity, now, later);
      var admitted := Admissible(l, q, registration, id, capacity) && Timestamp(now) && Timestamp(later);
      && (Dispatches(l, q, registration, lease, id, capacity, now, later) <==>
            admitted && lease.Some? && Authorized(l, q, registration.value.spec, lease.value, now))
      && (Dispatches(l, q, registration, lease, id, capacity, now, later) ==>
            && x.Committed? && admitted && lease.Some?
            && Dispatched(l, q, registration.value, lease.value, id, now, later, x.ledger))
      && (admitted && !Dispatches(l, q, registration, lease, id, capacity, now, later) ==>
            && x.Committed?
            && exists denial ::
                 && Real(l, q, registration.value.spec, lease, now, denial)
                 && TurnedAway(l, q, registration.value, denial, id, now, later, x.ledger))
      && (!admitted ==> x.ledger == l)
  {
    hide ValidRequest, Wellformed, DenialOf, Authorized, Real;
    WellformedIff(q);
    if registration.Some? {
      DeniedIff(l, q, registration.value.spec, lease, now);
      ReasonIsReal(l, q, registration.value.spec, lease, now);
      var denial := DenialOf(l, q, registration.value.spec, lease, now);
      var x := Reserve(l, q, registration, lease, id, capacity, now, later);
      if Admissible(l, q, registration, id, capacity) && Timestamp(now) && Timestamp(later) {
        if denial.Some? {
          assert TurnedAway(l, q, registration.value, denial.value, id, now, later, x.ledger);
        }
      }
    }
  }

  // ----- the authority of every dispatch and every effect of a run -----

  lemma {:induction false} RunLast(s: Sys, steps: seq<Step>)
    requires steps != []
    ensures Run(s, steps) == Next(Run(s, steps[..|steps| - 1]), steps[|steps| - 1])
    decreases |steps|
  {
    hide Next;
    if |steps| > 1 {
      RunLast(Next(s, steps[0]), steps[1..]);
      assert steps[1..][..|steps| - 2] == steps[..|steps| - 1][1..];
    }
  }

  /** This step, taken in s, dispatched the operation of row k under full authority and the lease of this id. */
  ghost predicate Granted(s: Sys, step: Step, k: Key, row: Operation, lease: string, limit: int) {
    && step.Execute? && step.registration.Some? && step.lease.Some? && Key(step.q.subject, step.q.key) == k
    && Wellformed(step.q) && Timestamp(step.now) && s.ledger.suspended == None && k !in s.ledger.operations
    && Authorized(s.ledger, step.q, step.registration.value.spec, step.lease.value, step.now)
    && row.fingerprint == Fingerprint(step.q, step.registration.value) && row.id == step.id
    && row.provider == step.registration.value.provider && row.arguments == step.q.arguments && row.created == step.now
    && lease == step.lease.value.id
    && limit <= step.q.deadline && limit <= step.lease.value.expires
    && limit in {step.q.deadline, step.lease.value.expires}
  }

  /** One step makes a call only by granting it, and leaves the lease and the limit of every other. */
  lemma CallsAreGranted(s: Sys, step: Step, k: Key)
    requires Inv(s) && k in Next(s, step).calls
    ensures k in Next(s, step).ledger.operations
    ensures var s' := Next(s, step); var row, call := s'.ledger.operations[k], s'.calls[k];
      || (k in s.calls && k in s.ledger.operations && s.calls[k].lease == call.lease && s.calls[k].limit == call.limit)
      || Granted(s, step, k, row, call.lease, call.limit)
  {
    NextKeeps(s, step);
    CalledRows(s, k);
    CalledRows(Next(s, step), k);
    hide Inv;
    if step.Execute? { ExecuteGrants(s, step, k); } else { OthersGrantNothing(s, step, k); }
  }

  lemma OthersGrantNothing(s: Sys, step: Step, k: Key)
    requires !step.Execute? && k in Next(s, step).calls
    ensures k in s.calls
    ensures s.calls[k].lease == Next(s, step).calls[k].lease && s.calls[k].limit == Next(s, step).calls[k].limit
  {
    hide CheckDispatch, Cleared, Close, CloseReadback, ReserveReadback, RevokeSubject, Learned, Handed;
  }

  lemma ExecuteGrants(s: Sys, step: Step, k: Key)
    requires step.Execute? && k in Next(s, step).calls && (k in s.calls ==> k in s.ledger.operations)
    ensures var s' := Next(s, step);
      || (k in s.calls && s.calls[k] == s'.calls[k])
      || (k in s'.ledger.operations
          && Granted(s, step, k, s'.ledger.operations[k], s'.calls[k].lease, s'.calls[k].limit))
  {
    hide Reserve, Dispatches, Authorized, ValidRequest, Wellformed, Real;
    ExecuteDecides(s.ledger, step.q, step.registration, step.lease, step.id, step.capacity, step.now, step.later);
  }

  lemma CalledRows(s: Sys, k: Key)
    requires Inv(s)
    ensures k in s.calls <==> k in s.ledger.operations && !s.ledger.operations[k].state.Denied?
  {
    hide LedgerFit, EffectsFit, Honest, ReadersFit, Cleared;
  }

  /**
   * Over every run: each operation that is not denied was dispatched by one execute, under a lease for just that act
   * of that person, with everything the capability asks for; its worker may act till the earlier of the two deadlines.
   */
  lemma {:induction false} DispatchedUnderAuthority(steps: seq<Step>, k: Key)
    requires var s := Run(START, steps); k in s.ledger.operations && s.ledger.operations[k].state != Denied
    ensures var s := Run(START, steps); k in s.calls
    ensures var s := Run(START, steps);
      exists i :: 0 <= i < |steps| && Granted(Run(START, steps[..i]), steps[i], k, s.ledger.operations[k],
                                              s.calls[k].lease, s.calls[k].limit)
    decreases |steps|
  {
    hide Inv, Granted, Next;
    StartFits();
    RunKeeps(START, steps);
    var s' := Run(START, steps);
    CalledRows(s', k);
    if steps == [] {
      assert false;
    } else {
      var n := |steps| - 1;
      var s := Run(START, steps[..n]);
      RunKeeps(START, steps[..n]);
      RunLast(START, steps);
      CallsAreGranted(s, steps[n], k);
      if k in s.calls && !Granted(s, steps[n], k, s'.ledger.operations[k], s'.calls[k].lease, s'.calls[k].limit) {
        CalledRows(s, k);
        DispatchedUnderAuthority(steps[..n], k);
        NextForward(s, steps[n]);
        SameIdentity(s.ledger, s'.ledger, k);
        var i :| 0 <= i < n && Granted(Run(START, steps[..n][..i]), steps[..n][i], k, s.ledger.operations[k],
                                       s.calls[k].lease, s.calls[k].limit);
        assert steps[..n][..i] == steps[..i];
        GrantStays(Run(START, steps[..i]), steps[i], k, s.ledger.operations[k], s'.ledger.operations[k],
                   s.calls[k].lease, s.calls[k].limit);
      }
    }
  }

  ghost predicate SameRow(row: Operation, row': Operation) {
    && row'.fingerprint == row.fingerprint && row'.id == row.id && row'.provider == row.provider
    && row'.arguments == row.arguments && row'.created == row.created
  }

  lemma SameIdentity(l: Ledger, l': Ledger, k: Key)
    requires LedgerForward(l, l') && k in l.operations
    ensures k in l'.operations && SameRow(l.operations[k], l'.operations[k])
  {
  }

  lemma GrantStays(s: Sys, step: Step, k: Key, row: Operation, row': Operation, lease: string, limit: int)
    requires Granted(s, step, k, row, lease, limit) && SameRow(row, row')
    ensures Granted(s, step, k, row', lease, limit)
  {
  }

  /**
   * Over every run: each mutation asked of a provider was granted in that way, and the last check before it saw the
   * operation dispatching, nothing suspended, the subject not revoked, and a clock before both deadlines.
   */
  lemma EffectsUnderAuthority(steps: seq<Step>, e: nat)
    requires e < |Run(START, steps).effects|
    ensures var s := Run(START, steps); var effect := s.effects[e]; var seen := effect.clearance.seen;
      && effect.key in s.ledger.operations && effect.key in seen.operations
      && seen.operations[effect.key].state == Dispatching && seen.suspended == None
      && effect.key.subject !in seen.revoked
      && exists i :: 0 <= i < |steps| && Granted(Run(START, steps[..i]), steps[i], effect.key,
                                                 s.ledger.operations[effect.key], effect.lease, effect.limit)
                     && 0 <= effect.clearance.at < steps[i].q.deadline
                     && effect.clearance.at < steps[i].lease.value.expires
  {
    hide LedgerFit, Honest, ReadersFit, LogFit, Next, Run, Granted;
    StartFits();
    RunKeeps(START, steps);
    var s := Run(START, steps);
    var effect := s.effects[e];
    CalledRows(s, effect.key);
    DispatchedUnderAuthority(steps, effect.key);
    var i :| 0 <= i < |steps| && Granted(Run(START, steps[..i]), steps[i], effect.key,
                                         s.ledger.operations[effect.key], effect.lease, effect.limit);
    InTime(Run(START, steps[..i]), steps[i], effect.key, s.ledger.operations[effect.key], effect.lease, effect.limit,
           effect.clearance.at);
  }

  lemma InTime(s: Sys, step: Step, k: Key, row: Operation, lease: string, limit: int, at: int)
    requires Granted(s, step, k, row, lease, limit) && at < limit
    ensures step.Execute? && step.lease.Some? && at < step.q.deadline && at < step.lease.value.expires
  {
  }

  // ----- what an answer leaves -----

  /** One row closed or left open by one event; what it already knew of its provider is kept. */
  ghost predicate ClosedAs(l: Ledger, key: Key, state: State, reason: Reason, external: Option<string>,
                           reconciled: bool, now: int, l': Ledger)
    requires key in l.operations
  {
    var row := l.operations[key];
    && Timestamp(now)
    && l'.operations == l.operations[key := row.(state := state, reason := reason,
                          external := if external == None then row.external else external,
                          completed := Some(|l.events| + 1), reconciled := row.reconciled || reconciled)]
    && l'.events == l.events + [Event(key, Closed(state), now)]
    && l'.leases == l.leases && l'.revoked == l.revoked && l'.suspended == l.suspended
  }

  /** The observation speaks of this operation. */
  ghost predicate Names(row: Operation, o: Observation) {
    o.operation == row.id && o.provider == row.provider && o.arguments == row.arguments
  }

  /** An external id: up to 256 letters, digits and marks. */
  lemma OpaqueIff(s: string)
    ensures Opaque(s) <==> && 1 <= |s| <= 256
                           && forall c :: c in s ==> || 'A' <= c <= 'Z' || 'a' <= c <= 'z' || '0' <= c <= '9'
                                                     || c in {'_', '.', ':', '-'}
  {
    var marks := "_.:-";
    assert |marks| == 4 && marks[0] == '_' && marks[1] == '.' && marks[2] == ':' && marks[3] == '-';
    assert forall c :: c in marks <==> c in {'_', '.', ':', '-'};
    assert forall i :: 0 <= i < |s| ==> s[i] in s;
  }

  /** And can be taken for what it says: of a known kind, with a well-formed external id that is not another one. */
  ghost predicate Readable(row: Operation, o: Observation) {
    && Names(row, o) && o.disposition != Unrecognized
    && (o.external.Some? ==> Opaque(o.external.value) && row.external in {None, o.external})
  }

  /** The row still waits for its outcome. */
  predicate Waits(row: Operation) {
    (row.state == Dispatching || row.state == Indeterminate) && row.reason != TerminalConflict
  }

  /** What an observation, or the lack of one, makes of a row that waits. */
  ghost predicate Concluded(l: Ledger, key: Key, o: Option<Observation>, reconciled: bool, now: int, l': Ledger)
    requires key in l.operations
  {
    var row := l.operations[key];
    if o == None || !Readable(row, o.value) then ClosedAs(l, key, Indeterminate, Unavailable, None, reconciled, now, l')
    else if !o.value.terminal || o.value.disposition == Unknown then
      ClosedAs(l, key, Indeterminate, Nonterminal, o.value.external, reconciled, now, l')
    else if o.value.disposition == Applied then
      ClosedAs(l, key, Succeeded, TerminalApplied, o.value.external, reconciled, now, l')
    else ClosedAs(l, key, Failed, TerminalNotApplied, o.value.external, reconciled, now, l')
  }

  /** A terminal observation of a closed operation that says the opposite. */
  ghost predicate Contrary(row: Operation, o: Observation) {
    && Names(row, o) && o.terminal
    && ((row.state == Failed && o.disposition == Applied) || (row.state == Succeeded && o.disposition == NotApplied))
  }

  /** An observation of a row that no longer waits: a contradiction is recorded, everything else is ignored. */
  ghost predicate Weighed(l: Ledger, key: Key, o: Option<Observation>, now: int, l': Ledger)
    requires key in l.operations
  {
    if o.Some? && Contrary(l.operations[key], o.value)
    then ClosedAs(l, key, Indeterminate, TerminalConflict, None, true, now, l')
    else l' == l
  }

  lemma ObserveDecides(l: Ledger, key: Key, o: Option<Observation>, reconciled: bool, now: int)
    requires key in l.operations
    ensures var x := Observe(l, key, o, reconciled, now);
      if Timestamp(now) then x.Committed? && Concluded(l, key, o, reconciled, now, x.ledger)
      else x == Raised(l, Code.ClockInvalid)
  {
    hide Opaque;
  }

  lemma ConflictDecides(l: Ledger, key: Key, o: Option<Observation>, now: int)
    requires key in l.operations
    ensures var x := RecordConflict(l, key, o, now);
      || (x.Committed? && Weighed(l, key, o, now, x.ledger))
      || (x == Raised(l, Code.ClockInvalid) && !Timestamp(now) && o.Some? && Contrary(l.operations[key], o.value))
  {
  }

  /** How the caller of a dispatched operation closes it. */
  lemma CloseDecides(l: Ledger, key: Key, outcome: Outcome, now: int)
    requires key in l.operations
    ensures var x := Close(l, key, outcome, now);
      var o := match outcome case Completed(value) => value case _ => None;
      if Waits(l.operations[key]) then
        if !Timestamp(now) then x == Raised(l, Code.ClockInvalid)
        else && x.Committed?
             && (if outcome == NotStarted
                 then ClosedAs(l, key, Failed, DispatchNotStarted, None, false, now, x.ledger)
                 else Concluded(l, key, o, false, now, x.ledger))
      else if x.Raised? then x.ledger == l && !Timestamp(now)
      else Weighed(l, key, o, now, x.ledger)
  {
    hide Observe, RecordConflict, Concluded, Contrary;
    ObserveDecides(l, key, Answer(outcome), false, now);
    ConflictDecides(l, key, Answer(outcome), now);
  }

  /** How a reconciler closes it: the same, marked reconciled. */
  lemma CloseReadbackDecides(l: Ledger, key: Key, outcome: Outcome, now: int)
    requires key in l.operations
    ensures var x := CloseReadback(l, key, outcome, now);
      var o := match outcome case Completed(value) => value case _ => None;
      if Waits(l.operations[key]) then
        if Timestamp(now) then x.Committed? && Concluded(l, key, o, true, now, x.ledger)
        else x == Raised(l, Code.ClockInvalid)
      else if x.Raised? then x.ledger == l && !Timestamp(now)
      else Weighed(l, key, o, now, x.ledger)
  {
    hide Observe, RecordConflict, Concluded, Contrary;
    ObserveDecides(l, key, Answer(outcome), true, now);
    ConflictDecides(l, key, Answer(outcome), now);
  }

  /** A worker's check passes with the ledger as it was, or closes an operation whose authority has ended. */
  lemma CheckDecides(l: Ledger, key: Key, limit: int, now: int, late: bool, later: int)
    requires key in l.operations
    ensures var x := CheckDispatch(l, key, limit, now, late, later);
      var ended := l.suspended != None || key.subject in l.revoked || limit <= now || late;
      if l.operations[key].state != Dispatching then x == Committed(l)
      else if !Timestamp(now) then x == Raised(l, Code.ClockInvalid)
      else if !ended then x == Committed(l)
      else if Timestamp(later)
      then x.Committed? && ClosedAs(l, key, Failed, AuthorityExpired, None, false, later, x.ledger)
      else x == Raised(l, Code.ClockInvalid)
  {
  }

  /** A readback is paid exactly for an operation that waits and has budget left; nothing else changes. */
  lemma ReadbackDecides(l: Ledger, q: Request, registration: Option<Registration>, limit: int)
    ensures var x := ReserveReadback(l, q, registration, limit); var key := Key(q.subject, q.key);
      if && Wellformed(q) && registration.Some? && key in l.operations
         && l.operations[key].fingerprint == Fingerprint(q, registration.value)
         && Waits(l.operations[key]) && l.operations[key].readbacks < limit
      then x == Committed(l.(operations := l.operations[key :=
             l.operations[key].(readbacks := l.operations[key].readbacks + 1)]))
      else x.ledger == l
  {
    hide ValidRequest, Wellformed;
    WellformedIff(q);
  }

  /** A revocation adds one subject, or, where there is no room or no clock, suspends everything. */
  lemma RevokeDecides(l: Ledger, subject: string, capacity: int, now: int)
    ensures var x := RevokeSubject(l, subject, capacity, now);
      if !Identifier(subject) || l.suspended.Some? || subject in l.revoked then
        x.ledger == l && (x.Committed? <==> Identifier(subject) && l.suspended == None)
      else if |l.revoked| < capacity && Timestamp(now) then
        x == Committed(l.(revoked := l.revoked[subject := now]))
      else
        x.Raised? && x.ledger == l.(suspended :=
          Some(if |l.revoked| < capacity then ClockUnavailable else RevocationCapacity))
  {
  }

  // ----- the reason of every denial of a run -----

  /** This step, taken in s, denied the operation of row k for a reason that was real. */
  ghost predicate Refused(s: Sys, step: Step, k: Key, row: Operation) {
    && step.Execute? && step.registration.Some? && Key(step.q.subject, step.q.key) == k && row.reason.DeniedFor?
    && row.fingerprint == Fingerprint(step.q, step.registration.value) && row.id == step.id
    && (step.lease.Some? ==> !Authorized(s.ledger, step.q, step.registration.value.spec, step.lease.value, step.now))
    && Real(s.ledger, step.q, step.registration.value.spec, step.lease, step.now, row.reason.denial)
  }

  lemma ExecuteRefuses(s: Sys, step: Step, k: Key)
    requires step.Execute? && k in Next(s, step).ledger.operations && k !in s.ledger.operations
    requires Next(s, step).ledger.operations[k].state.Denied?
    ensures Refused(s, step, k, Next(s, step).ledger.operations[k])
  {
    hide Dispatches, ValidRequest, DenialOf, Authorized, Real;
    var l := s.ledger;
    ExecuteDecides(l, step.q, step.registration, step.lease, step.id, step.capacity, step.now, step.later);
    if step.lease.Some? && step.registration.Some? {
      DeniedIff(l, step.q, step.registration.value.spec, step.lease, step.now);
    }
    hide Reserve;
  }

  /** A row appears by an execute alone, and a denied one never changes. */
  lemma DenialsRest(s: Sys, step: Step, k: Key)
    requires Inv(s) && k in Next(s, step).ledger.operations && Next(s, step).ledger.operations[k].state.Denied?
    ensures k in s.ledger.operations || step.Execute?
    ensures k in s.ledger.operations ==> Next(s, step).ledger.operations[k] == s.ledger.operations[k]
  {
    hide Inv, Next, LedgerForward;
    if k in s.ledger.operations {
      NextForward(s, step);
      DeniedBefore(s.ledger, Next(s, step).ledger, k);
      DeniedStays(s, step, k);
    } else if !step.Execute? {
      NoNewRow(s, step, k);
    }
  }

  lemma NoNewRow(s: Sys, step: Step, k: Key)
    requires k !in s.ledger.operations && !step.Execute?
    ensures k !in Next(s, step).ledger.operations
  {
    hide Dispatches, Cleared, CheckDispatch, ReserveReadback, RevokeSubject, Close, CloseReadback, Learned, Handed;
    var l := s.ledger;
    match step
    case Check(key, now, late, later) =>
      if key in l.operations && key in s.calls { CheckSpares(l, key, s.calls[key].limit, now, late, later, k); }
    case CloseCall(key, patient, now) =>
      if key in l.operations && key in s.calls { CloseSpares(l, key, Learned(s.calls[key].worker, patient), now, k); }
    case CloseReader(token, outcome, now) =>
      if token.key in l.operations { CloseReadbackSpares(l, token.key, outcome, now, k); }
    case Reconcile(q, registration, limit) => ReadbackDecides(l, q, registration, limit);
    case Revoke(subject, capacity, now) => RevokeForward(l, subject, capacity, now);
    case _ =>
  }

  lemma DeniedStays(s: Sys, step: Step, k: Key)
    requires Inv(s) && k in s.ledger.operations && s.ledger.operations[k].state.Denied?
    ensures k in Next(s, step).ledger.operations && Next(s, step).ledger.operations[k] == s.ledger.operations[k]
  {
    hide Inv, Reserve, Dispatches, Cleared, CheckDispatch, ReserveReadback, RevokeSubject, Close, CloseReadback,
      Learned, Handed;
    CalledRows(s, k);
    var l := s.ledger;
    match step
    case Execute(q, registration, lease, id, capacity, now, later, checked) =>
      ExecuteAdds(l, q, registration, lease, id, capacity, now, later, k);
    case Check(key, now, late, later) =>
      if key in l.operations && key in s.calls { CheckSpares(l, key, s.calls[key].limit, now, late, later, k); }
    case CloseCall(key, patient, now) =>
      if key in l.operations && key in s.calls { CloseSpares(l, key, Learned(s.calls[key].worker, patient), now, k); }
    case CloseReader(token, outcome, now) =>
      if token.key in l.operations { CloseReadbackSpares(l, token.key, outcome, now, k); }
    case Reconcile(q, registration, limit) => ReadbackSpares(l, q, registration, limit, k);
    case Revoke(subject, capacity, now) => RevokeForward(l, subject, capacity, now);
    case _ =>
  }

  lemma ReadbackSpares(l: Ledger, q: Request, registration: Option<Registration>, limit: int, k: Key)
    requires k in l.operations && l.operations[k].state.Denied?
    ensures var l' := ReserveReadback(l, q, registration, limit).ledger;
      k in l'.operations && l'.operations[k] == l.operations[k]
  {
    hide ValidRequest;
  }

  lemma CheckSpares(l: Ledger, key: Key, limit: int, now: int, late: bool, later: int, k: Key)
    requires key in l.operations && k != key
    ensures var l' := CheckDispatch(l, key, limit, now, late, later).ledger;
      && (k in l.operations ==> k in l'.operations && l'.operations[k] == l.operations[k])
      && (k in l'.operations ==> k in l.operations)
  {
    CheckDecides(l, key, limit, now, late, later);
    hide CheckDispatch;
  }

  lemma CloseSpares(l: Ledger, key: Key, outcome: Outcome, now: int, k: Key)
    requires key in l.operations && k != key
    ensures var l' := Close(l, key, outcome, now).ledger;
      && (k in l.operations ==> k in l'.operations && l'.operations[k] == l.operations[k])
      && (k in l'.operations ==> k in l.operations)
  {
    CloseDecides(l, key, outcome, now);
    hide Close, Readable, Contrary;
  }

  lemma CloseReadbackSpares(l: Ledger, key: Key, outcome: Outcome, now: int, k: Key)
    requires key in l.operations && (k != key || l.operations[k].state.Denied?)
    ensures var l' := CloseReadback(l, key, outcome, now).ledger;
      && (k in l.operations ==> k in l'.operations && l'.operations[k] == l.operations[k])
      && (k in l'.operations ==> k in l.operations)
  {
    CloseReadbackDecides(l, key, outcome, now);
    if k == key { DeniedIsShut(l, k); }
    hide CloseReadback, Readable, Contrary;
  }

  lemma DeniedBefore(l: Ledger, l': Ledger, k: Key)
    requires LedgerForward(l, l') && k in l.operations && k in l'.operations && l'.operations[k].state.Denied?
    ensures l.operations[k].state.Denied?
  {
  }

  lemma DeniedIsShut(l: Ledger, k: Key)
    requires k in l.operations && l.operations[k].state.Denied?
    ensures !Waits(l.operations[k]) && forall o :: !Contrary(l.operations[k], o)
  {
  }

  lemma ExecuteAdds(l: Ledger, q: Request, registration: Option<Registration>, lease: Option<Lease>, id: string,
                    capacity: int, now: int, later: int, k: Key)
    requires k in l.operations
    ensures var l' := Reserve(l, q, registration, lease, id, capacity, now, later).ledger;
      k in l'.operations && l'.operations[k] == l.operations[k]
  {
    hide ValidRequest, DenialOf;
  }

  /** Over every run each denied operation was denied by one execute, for a reason that was real. */
  lemma {:induction false} DeniedForAReason(steps: seq<Step>, k: Key)
    requires var s := Run(START, steps); k in s.ledger.operations && s.ledger.operations[k].state == Denied
    ensures var s := Run(START, steps);
      exists i :: 0 <= i < |steps| && Refused(Run(START, steps[..i]), steps[i], k, s.ledger.operations[k])
    decreases |steps|
  {
    hide Inv, Refused, Next;
    if steps == [] {
      assert false;
    } else {
      var n := |steps| - 1;
      var s := Run(START, steps[..n]);
      StartFits();
      RunKeeps(START, steps[..n]);
      RunLast(START, steps);
      DenialsRest(s, steps[n], k);
      if k in s.ledger.operations {
        DeniedForAReason(steps[..n], k);
        var i :| 0 <= i < n && Refused(Run(START, steps[..n][..i]), steps[..n][i], k, s.ledger.operations[k]);
        assert steps[..n][..i] == steps[..i];
      } else {
        ExecuteRefuses(s, steps[n], k);
      }
    }
  }

  // ----- the external id of every operation of a run -----

  /** An observation handed in for this operation gave this external id. */
  ghost predicate WasTold(observed: set<(Key, Observation)>, k: Key, row: Operation) {
    exists o :: (k, o) in observed && Names(row, o) && o.external == row.external
  }

  lemma ConcludedTells(l: Ledger, key: Key, o: Option<Observation>, reconciled: bool, now: int, l': Ledger,
                       observed: set<(Key, Observation)>)
    requires key in l.operations
    requires Concluded(l, key, o, reconciled, now, l') || Weighed(l, key, o, now, l')
    requires o.Some? ==> (key, o.value) in observed
    ensures key in l'.operations
    ensures l'.operations[key].external == l.operations[key].external || WasTold(observed, key, l'.operations[key])
  {
    hide Opaque;
  }

  lemma ExternalStep(s: Sys, step: Step, k: Key)
    requires k in Next(s, step).ledger.operations && Next(s, step).ledger.operations[k].external.Some?
    ensures var s' := Next(s, step); var row := s'.ledger.operations[k];
      || (k in s.ledger.operations && s.ledger.operations[k].external == row.external)
      || WasTold(s'.observed, k, row)
  {
    hide Reserve, Dispatches, Cleared, CheckDispatch, ReserveReadback, RevokeSubject, Close, CloseReadback,
      WasTold, Learned;
    var l := s.ledger;
    match step
    case Execute(q, registration, lease, id, capacity, now, later, checked) =>
      ExecuteTellsNothing(l, q, registration, lease, id, capacity, now, later, k);
    case Check(key, now, late, later) =>
      if key in l.operations && key in s.calls { CheckTellsNothing(l, key, s.calls[key].limit, now, late, later, k); }
    case CloseCall(key, patient, now) =>
      if key in l.operations && key in s.calls { CloseTells(s, key, Learned(s.calls[key].worker, patient), now, k); }
    case CloseReader(token, outcome, now) =>
      if token.key in l.operations { CloseReadbackTells(s, token.key, outcome, now, k); }
    case Reconcile(q, registration, limit) => ReadbackDecides(l, q, registration, limit);
    case Revoke(subject, capacity, now) => RevokeForward(l, subject, capacity, now);
    case _ =>
  }

  lemma ExecuteTellsNothing(l: Ledger, q: Request, registration: Option<Registration>, lease: Option<Lease>,
                            id: string, capacity: int, now: int, later: int, k: Key)
    requires var l' := Reserve(l, q, registration, lease, id, capacity, now, later).ledger;
      k in l'.operations && l'.operations[k].external.Some?
    ensures k in l.operations
    ensures Reserve(l, q, registration, lease, id, capacity, now, later).ledger.operations[k] == l.operations[k]
  {
    hide ValidRequest, DenialOf;
  }

  lemma CheckTellsNothing(l: Ledger, key: Key, limit: int, now: int, late: bool, later: int, k: Key)
    requires key in l.operations
    ensures var l' := CheckDispatch(l, key, limit, now, late, later).ledger;
      k in l'.operations ==> k in l.operations && l'.operations[k].external == l.operations[k].external
  {
    CheckDecides(l, key, limit, now, late, later);
    hide CheckDispatch;
  }

  lemma CloseTells(s: Sys, key: Key, outcome: Outcome, now: int, k: Key)
    requires key in s.ledger.operations
    ensures var x := Close(s.ledger, key, outcome, now);
      k in x.ledger.operations && x.ledger.operations[k].external.Some? ==>
        || (k in s.ledger.operations && s.ledger.operations[k].external == x.ledger.operations[k].external)
        || WasTold(Handed(s, key, outcome, x), k, x.ledger.operations[k])
  {
    hide Close, Concluded, Weighed, WasTold;
    CloseDecides(s.ledger, key, outcome, now);
    var x := Close(s.ledger, key, outcome, now);
    if k != key {
      CloseSpares(s.ledger, key, outcome, now, k);
    } else if x.Committed? && !(Waits(s.ledger.operations[key]) && outcome == NotStarted) {
      ConcludedTells(s.ledger, key, Answer(outcome), false, now, x.ledger, Handed(s, key, outcome, x));
    }
  }

  lemma CloseReadbackTells(s: Sys, key: Key, outcome: Outcome, now: int, k: Key)
    requires key in s.ledger.operations
    ensures var x := CloseReadback(s.ledger, key, outcome, now);
      k in x.ledger.operations && x.ledger.operations[k].external.Some? ==>
        || (k in s.ledger.operations && s.ledger.operations[k].external == x.ledger.operations[k].external)
        || WasTold(Handed(s, key, outcome, x), k, x.ledger.operations[k])
  {
    hide CloseReadback, Concluded, Weighed, WasTold;
    CloseReadbackDecides(s.ledger, key, outcome, now);
    var x := CloseReadback(s.ledger, key, outcome, now);
    if k != key {
      CloseReadbackSpares(s.ledger, key, outcome, now, k);
    } else if x.Committed? {
      ConcludedTells(s.ledger, key, Answer(outcome), true, now, x.ledger, Handed(s, key, outcome, x));
    }
  }

  /** Over every run an external id is one an observation of that very operation gave. */
  lemma {:induction false} ExternalIdsWereTold(steps: seq<Step>, k: Key)
    requires var s := Run(START, steps); k in s.ledger.operations && s.ledger.operations[k].external.Some?
    ensures var s := Run(START, steps); WasTold(s.observed, k, s.ledger.operations[k])
    decreases |steps|
  {
    hide Inv, Next, WasTold;
    if steps == [] {
      assert false;
    } else {
      var n := |steps| - 1;
      var s := Run(START, steps[..n]);
      StartFits();
      RunKeeps(START, steps[..n]);
      RunLast(START, steps);
      var s' := Next(s, steps[n]);
      ExternalStep(s, steps[n], k);
      if !WasTold(s'.observed, k, s'.ledger.operations[k]) {
        ExternalIdsWereTold(steps[..n], k);
        NextForward(s, steps[n]);
        SameIdentity(s.ledger, s'.ledger, k);
        ObservedGrows(s, steps[n]);
        ToldStays(s.observed, s'.observed, k, s.ledger.operations[k], s'.ledger.operations[k]);
      }
    }
  }

  lemma ToldStays(observed: set<(Key, Observation)>, observed': set<(Key, Observation)>, k: Key, row: Operation,
                  row': Operation)
    requires WasTold(observed, k, row) && observed <= observed' && SameRow(row, row') && row'.external == row.external
    ensures WasTold(observed', k, row')
  {
    var o :| (k, o) in observed && Names(row, o) && o.external == row.external;
    assert (k, o) in observed' && Names(row', o);
  }

  lemma ObservedGrows(s: Sys, step: Step)
    ensures s.observed <= Next(s, step).observed
  {
    hide Reserve, Dispatches, Cleared, CheckDispatch, ReserveReadback, RevokeSubject, Close, CloseReadback, Learned;
  }

  // ----- refusals -----

  /** An error of execute says what is so: of the request, of the rows or of the clock. */
  lemma ExecuteRefusals(l: Ledger, q: Request, registration: Option<Registration>, lease: Option<Lease>, id: string,
                        capacity: int, now: int, later: int)
    ensures var x, key := Reserve(l, q, registration, lease, id, capacity, now, later), Key(q.subject, q.key);
      x.Raised? ==> match x.code
        case RequestInvalid => !Wellformed(q)
        case CapabilityUnknown => registration == None
        case IdempotencyConflict =>
          && registration.Some? && key in l.operations
          && l.operations[key].fingerprint != Fingerprint(q, registration.value)
        case DispatchSuspended => l.suspended.Some? && key !in l.operations
        case CapacityExhausted => |l.operations| >= capacity && key !in l.operations
        case ClockInvalid => !Timestamp(now) || !Timestamp(later)
        case IntegrityError => exists k :: k in l.operations && l.operations[k].id == id
        case _ => false
  {
    hide ValidRequest, Wellformed, DenialOf, Written;
    WellformedIff(q);
  }

  /** So does one of a readback. */
  lemma ReadbackRefusals(l: Ledger, q: Request, registration: Option<Registration>, limit: int)
    ensures var x, key := ReserveReadback(l, q, registration, limit), Key(q.subject, q.key);
      x.Raised? ==> match x.code
        case RequestInvalid => !Wellformed(q)
        case CapabilityUnknown => registration == None
        case OperationUnknown => key !in l.operations
        case IdempotencyConflict =>
          && registration.Some? && key in l.operations
          && l.operations[key].fingerprint != Fingerprint(q, registration.value)
        case ReceiptConflict => key in l.operations && l.operations[key].reason == TerminalConflict
        case ReadbackExhausted => key in l.operations && l.operations[key].readbacks >= limit
        case _ => false
  {
    hide ValidRequest, Wellformed;
    WellformedIff(q);
  }
}
