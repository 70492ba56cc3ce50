/** Every run of the capability gateway keeps its invariants, and what follows for its callers. */
module CapabilityTheorems {
  import opened Base
  import opened CapabilityLedger
  import opened CapabilityRuns

  // ----- each step -----

  lemma SettleCalls(s: Sys, key: Key, s': Sys)
    requires Inv(s) && key in s.calls && s'.ledger == s.ledger && CallsSettle(s.calls, s'.calls)
    requires s'.effects == s.effects && s'.observed == s.observed && s'.readers == s.readers
    requires s'.readbacks == s.readbacks && s'.widest == s.widest
    ensures Inv(s')
  {
    hide LedgerFit, HonestRow, OneRow, CallsSettle, ReadersFit, EffectsFit;
    assert key in s.ledger.operations;
    RestingRow(s.ledger, key);
    SettleStep(s, s', key, None);
  }

  lemma WorkerStep(s: Sys, key: Key, worker: Worker)
    requires Inv(s) && key in s.calls && (s.calls[key].worker.Idle? || s.calls[key].worker.Admitted?)
    requires worker.Ended? || (worker.Never? && s.calls[key].worker.Idle?)
    ensures Inv(WithWorker(s, key, worker))
  {
    hide Inv;
    SettleCalls(s, key, WithWorker(s, key, worker));
  }

  lemma CheckStep(s: Sys, key: Key, now: int, late: bool, later: int)
    requires Inv(s)
    ensures Inv(Next(s, Check(key, now, late, later)))
  {
    hide LedgerFit, Honest, ReadersFit, EffectsFit, Cleared, CallsFit, CheckDispatch;
    if key in s.calls && s.calls[key].worker.Idle? && key in s.ledger.operations {
      if Cleared(s.ledger, key, s.calls[key].limit, now, late) {
        AdmitStep(s, key, now, late);
      } else {
        FailStep(s, key, now, late, later);
      }
    }
  }

  lemma AdmitStep(s: Sys, key: Key, now: int, late: bool)
    requires Inv(s) && key in s.calls && s.calls[key].worker.Idle?
    requires Cleared(s.ledger, key, s.calls[key].limit, now, late)
    ensures Inv(Enter(s, key, Clearance(s.ledger, now)))
  {
    hide LedgerFit, HonestRow, ReadersFit;
    var s' := Enter(s, key, Clearance(s.ledger, now));
    forall k | k in s'.ledger.operations ensures HonestRow(s', k) { AdmitHonest(s, key, now, k); }
  }

  lemma AdmitHonest(s: Sys, key: Key, now: int, k: Key)
    requires Honest(s) && LedgerFit(s.ledger) && key in s.calls && key in s.ledger.operations
    requires s.ledger.operations[key].state.Dispatching?
    requires k in s.ledger.operations
    ensures HonestRow(Enter(s, key, Clearance(s.ledger, now)), k)
  {
    hide LogFit, LeasesFit, Evidence;
    assert HonestRow(s, k) && RowFit(k, s.ledger.operations[k]);
  }

  lemma FailStep(s: Sys, key: Key, now: int, late: bool, later: int)
    requires Inv(s) && key in s.calls && s.calls[key].worker.Idle? && key in s.ledger.operations
    requires !Cleared(s.ledger, key, s.calls[key].limit, now, late)
    ensures Inv(Next(s, Check(key, now, late, later)))
  {
    hide Inv, LedgerFit, OneRow, Cleared, LedgerForward, RowFit, CheckDispatch;
    var x := CheckDispatch(s.ledger, key, s.calls[key].limit, now, late, later);
    InvParts(s, key);
    CheckKeeps(s, key, now, late, later, x);
    FailedSettles(s.calls, key, x.Committed?);
    hide CallsSettle, NeverAsked, CallsFit, Honest;
    SettleStep(s, Next(s, Check(key, now, late, later)), key, None);
  }

  lemma FailedSettles(calls: map<Key, Call>, key: Key, answered: bool)
    requires key in calls && calls[key].worker.Idle? && !calls[key].entered && !calls[key].mutated
    ensures var calls' := calls[key := calls[key].(worker := Ended(answered, None))];
      CallsSettle(calls, calls') && NeverAsked(calls', key)
  {
  }

  lemma InvParts(s: Sys, key: Key)
    requires Inv(s)
    ensures LedgerFit(s.ledger) && Honest(s) && CallsFit(s.calls, s.ledger)
    ensures key in s.calls ==>
      key in s.ledger.operations
        && (s.calls[key].worker.Idle? || s.calls[key].worker.Never? ==> !s.calls[key].entered && !s.calls[key].mutated)
    ensures key in s.ledger.operations ==> RowFit(key, s.ledger.operations[key])
  {
    hide LogFit, LeasesFit, EffectsFit, ReadersFit, HonestRow, Cleared, RowFit;
  }

  lemma CheckKeeps(s: Sys, key: Key, now: int, late: bool, later: int, x: Tx)
    requires LedgerFit(s.ledger) && key in s.ledger.operations && key in s.calls
    requires RowFit(key, s.ledger.operations[key])
    requires x == CheckDispatch(s.ledger, key, s.calls[key].limit, now, late, later)
    ensures LedgerFit(x.ledger) && OneRow(s.ledger, key, x.ledger) && key in x.ledger.operations
    ensures x.ledger.operations[key].readbacks == s.ledger.operations[key].readbacks
    ensures x.ledger.operations[key] == s.ledger.operations[key]
         || (x.ledger.operations[key].state.Failed? && !x.ledger.operations[key].reason.TerminalConflict?)
  {
    hide LedgerFit, OneRow, Cleared;
    RestingRow(s.ledger, key);
    if s.ledger.operations[key].state.Dispatching? && !Cleared(s.ledger, key, s.calls[key].limit, now, late)
      && Timestamp(now) {
      FinishKeeps(s.ledger, key, Failed, AuthorityExpired, None, false, later, x);
    }
    SameKeys(s.ledger, key, x.ledger);
  }

  lemma MutateStep(s: Sys, key: Key, now: int, late: bool)
    requires Inv(s)
    ensures Inv(Next(s, Mutate(key, now, late)))
  {
    var s' := Next(s, Mutate(key, now, late));
    hide LedgerFit, ReadersFit, HonestRow, Cleared, CallsFit, EffectsFit;
    if s' != s {
      var call := s.calls[key];
      assert Cleared(call.worker.clearance.seen, key, call.limit, call.worker.clearance.at, false) by {
        AdmittedCleared(s, key);
      }
      var clearance := if call.checked then Clearance(s.ledger, now) else call.worker.clearance;
      ClearedInTime(s.ledger, key, call.limit, now, late);
      MutatedCalls(s, key);
      MutatedEffects(s.effects, s.calls, key, clearance);
      forall k | k in s'.ledger.operations ensures HonestRow(s', k) { MutateHonest(s, key, now, late, k); }
    }
  }

  lemma ClearedInTime(l: Ledger, key: Key, limit: int, now: int, late: bool)
    ensures Cleared(l, key, limit, now, late) ==> Cleared(l, key, limit, now, false)
  {
  }

  lemma AdmittedCleared(s: Sys, key: Key)
    requires CallsFit(s.calls, s.ledger) && key in s.calls && s.calls[key].worker.Admitted?
    ensures var c := s.calls[key].worker.clearance; Cleared(c.seen, key, s.calls[key].limit, c.at, false)
  {
    hide Cleared;
  }

  lemma MutatedCalls(s: Sys, key: Key)
    requires CallsFit(s.calls, s.ledger) && key in s.calls && s.calls[key].worker.Admitted?
    ensures CallsFit(s.calls[key := s.calls[key].(mutated := true)], s.ledger)
  {
    hide Cleared;
  }

  lemma MutatedEffects(effects: seq<Effect>, calls: map<Key, Call>, key: Key, clearance: Clearance)
    requires EffectsFit(effects, calls) && key in calls && !calls[key].mutated
    requires Cleared(clearance.seen, key, calls[key].limit, clearance.at, false)
    ensures EffectsFit(effects + [Effect(key, calls[key].lease, calls[key].limit, clearance)],
                       calls[key := calls[key].(mutated := true)])
  {
    hide Cleared;
    var calls' := calls[key := calls[key].(mutated := true)];
    var effects' := effects + [Effect(key, calls[key].lease, calls[key].limit, clearance)];
    assert effects'[|effects|].key == key;
    forall k | k in calls' && calls'[k].mutated && k != key
      ensures exists i :: 0 <= i < |effects'| && effects'[i].key == k
    {
      var i :| 0 <= i < |effects| && effects[i].key == k;
      assert effects'[i].key == k;
    }
  }

  lemma MutateHonest(s: Sys, key: Key, now: int, late: bool, k: Key)
    requires k in s.ledger.operations && HonestRow(s, k)
    ensures var s' := Next(s, Mutate(key, now, late)); s'.ledger == s.ledger && HonestRow(s', k)
  {
    hide Cleared, Evidence;
  }

  lemma CloseStep(s: Sys, key: Key, patient: bool, now: int)
    requires Inv(s)
    ensures Inv(Next(s, CloseCall(key, patient, now)))
  {
    hide Inv, LedgerFit, OneRow, LedgerForward, RowFit, Settled, Close;
    if key in s.calls && s.calls[key].waiting && key in s.ledger.operations {
      InvParts(s, key);
      var outcome := Learned(s.calls[key].worker, patient);
      var x := Close(s.ledger, key, outcome, now);
      CloseKeepsBudget(s.ledger, key, outcome, now);
      NotDenied(s, key);
      CloseKeeps(s.ledger, key, outcome, now, x);
      SettledRests(s.ledger.operations[key], Answer(outcome));
      HeardSettles(s.calls, key, patient);
      hide CallsSettle, NeverAsked, CallsFit, Honest, Learned;
      SettleStep(s, Next(s, CloseCall(key, patient, now)), key, if x.Committed? then Answer(outcome) else None);
    }
  }

  /** The caller is done: nothing else of its call changes, and "not started" it only hears of an untouched adapter. */
  lemma HeardSettles(calls: map<Key, Call>, key: Key, patient: bool)
    requires key in calls && (calls[key].worker.Never? ==> !calls[key].entered && !calls[key].mutated)
    ensures var calls' := calls[key := calls[key].(waiting := false)];
      && CallsSettle(calls, calls')
      && (Learned(calls[key].worker, patient).NotStarted? ==> NeverAsked(calls', key))
  {
  }

  lemma NotDenied(s: Sys, key: Key)
    requires CallsFit(s.calls, s.ledger) && key in s.calls
    ensures key in s.ledger.operations && !s.ledger.operations[key].state.Denied?
  {
    hide Cleared;
  }

  lemma SettledRests(row: Operation, o: Option<Observation>)
    ensures Settled(row, o, row) && Settled(row, None, row)
  {
  }

  lemma CloseKeeps(l: Ledger, key: Key, outcome: Outcome, now: int, x: Tx)
    requires LedgerFit(l) && key in l.operations && x == Close(l, key, outcome, now)
    requires !l.operations[key].state.Denied?
    ensures LedgerFit(x.ledger) && OneRow(l, key, x.ledger) && key in x.ledger.operations
    ensures x.Raised? ==> x.ledger == l
    ensures || Settled(l.operations[key], Answer(outcome), x.ledger.operations[key])
            || (outcome.NotStarted? && x.ledger.operations[key].state.Failed?
              && !x.ledger.operations[key].reason.TerminalConflict?)
  {
    hide LedgerFit, OneRow, Observe, RecordConflict, Finish, Settled;
    RestingRow(l, key);
    SettledRests(l.operations[key], Answer(outcome));
    if Open(l.operations[key]) {
      if outcome.NotStarted? {
        FinishKeeps(l, key, Failed, DispatchNotStarted, None, false, now, x);
        SameKeys(l, key, x.ledger);
      } else {
        ObserveKeeps(l, key, Answer(outcome), false, now, x);
      }
    } else if outcome.Completed? {
      ConflictKeeps(l, key, outcome.value, now, x);
    }
  }

  lemma CloseReadbackKeeps(l: Ledger, key: Key, outcome: Outcome, now: int, x: Tx)
    requires LedgerFit(l) && key in l.operations && x == CloseReadback(l, key, outcome, now)
    ensures LedgerFit(x.ledger) && OneRow(l, key, x.ledger) && key in x.ledger.operations
    ensures Settled(l.operations[key], Answer(outcome), x.ledger.operations[key]) && (x.Raised? ==> x.ledger == l)
  {
    hide LedgerFit, OneRow, Observe, RecordConflict, Settled;
    RestingRow(l, key);
    SettledRests(l.operations[key], Answer(outcome));
    if Open(l.operations[key]) {
      ObserveKeeps(l, key, Answer(outcome), true, now, x);
    } else if outcome.Completed? {
      ConflictKeeps(l, key, outcome.value, now, x);
    }
  }

  lemma CloseReaderStep(s: Sys, token: Readback, outcome: Outcome, now: int)
    requires Inv(s)
    ensures Inv(Next(s, CloseReader(token, outcome, now)))
  {
    hide Inv, LedgerFit, OneRow, LedgerForward, RowFit, Settled, CloseReadback;
    if token in s.readers && s.readers[token] && token.key in s.ledger.operations {
      InvParts(s, token.key);
      var x := CloseReadback(s.ledger, token.key, outcome, now);
      CloseKeepsBudget(s.ledger, token.key, outcome, now);
      CloseReadbackKeeps(s.ledger, token.key, outcome, now, x);
      SettledRests(s.ledger.operations[token.key], None);
      SettleStep(s, Next(s, CloseReader(token, outcome, now)), token.key,
                 if x.Committed? then Answer(outcome) else None);
    }
  }

  // ----- admission -----

  /** What a fresh reservation writes: one row, one event and, unless denied, one consumed lease. */
  ghost predicate Admits(l: Ledger, key: Key, row: Operation, kind: Kind, lease: Option<string>, l': Ledger, at: int) {
    && key !in l.operations
    && l' == l.(operations := l.operations[key := row], events := l.events + [Event(key, kind, at)],
                leases := if lease.Some? then l.leases[lease.value := key] else l.leases)
    && RowFit(key, row) && row.readbacks == 0 && !row.reason.TerminalConflict?
    && (lease.Some? ==> lease.value !in l.leases)
    && (if lease.Some? then
          && kind.Prepared? && row.state.Dispatching?
          && row.prepared == Some(|l.events| + 1) && row.completed == None
        else
          && kind == Closed(Denied) && row.state.Denied?
          && row.prepared == None && row.completed == Some(|l.events| + 1))
  }

  lemma ReserveAdmits(l: Ledger, q: Request, registration: Option<Registration>, lease: Option<Lease>, id: string,
                      capacity: int, now: int, later: int, x: Tx)
    requires x == Reserve(l, q, registration, lease, id, capacity, now, later)
    ensures x.ledger == l || exists row, kind, used :: Admits(l, KeyOf(q), row, kind, used, x.ledger, later)
    ensures Dispatches(l, q, registration, lease, id, capacity, now, later) ==>
      lease.Some? && exists row :: Admits(l, KeyOf(q), row, Prepared, Some(lease.value.id), x.ledger, later)
    ensures x.ledger != l && !Dispatches(l, q, registration, lease, id, capacity, now, later) ==>
      exists row, kind :: Admits(l, KeyOf(q), row, kind, None, x.ledger, later)
  {
    hide ValidRequest, DenialOf, Reserve, Admits;
    ReserveWrites(l, q, registration, lease, id, capacity, now, later, x);
    if x.ledger != l {
      var denial := DenialOf(l, q, registration.value.spec, lease, now);
      if denial.None? {
        assert Admits(l, KeyOf(q), x.ledger.operations[KeyOf(q)], Prepared, Some(lease.value.id), x.ledger, later);
      } else {
        assert Admits(l, KeyOf(q), x.ledger.operations[KeyOf(q)], Closed(Denied), None, x.ledger, later);
      }
    }
  }

  /** An operation that is not denied has a lease nobody consumed. */
  lemma UndeniedLease(l: Ledger, q: Request, spec: Spec, lease: Option<Lease>, now: int)
    requires DenialOf(l, q, spec, lease, now).None?
    ensures lease.Some? && lease.value.id !in l.leases
  {
    hide Identifier;
  }

  lemma ReserveWrites(l: Ledger, q: Request, registration: Option<Registration>, lease: Option<Lease>, id: string,
                      capacity: int, now: int, later: int, x: Tx)
    requires x == Reserve(l, q, registration, lease, id, capacity, now, later)
    ensures x.ledger != l ==>
      && x.Committed? && registration.Some? && KeyOf(q) !in l.operations && KeyOf(q) in x.ledger.operations
      && (var denial, row := DenialOf(l, q, registration.value.spec, lease, now), x.ledger.operations[KeyOf(q)];
          if denial.None?
          then lease.Some? && row.state.Dispatching?
            && Admits(l, KeyOf(q), row, Prepared, Some(lease.value.id), x.ledger, later)
          else row.state.Denied? && Admits(l, KeyOf(q), row, Closed(Denied), None, x.ledger, later))
    ensures x.ledger == l ==> !Dispatches(l, q, registration, lease, id, capacity, now, later)
  {
    hide ValidRequest, DenialOf;
    if registration.Some? && DenialOf(l, q, registration.value.spec, lease, now).None? {
      UndeniedLease(l, q, registration.value.spec, lease, now);
    }
  }

  lemma OtherSequences(k: Key, row: Operation, events: seq<Event>, e: Event)
    requires SequencesFit(k, row, events) && e.key != k
    ensures SequencesFit(k, row, events + [e])
  {
  }

  lemma FirstSequences(l: Ledger, key: Key, row: Operation, kind: Kind, lease: Option<string>, l': Ledger, at: int)
    requires Admits(l, key, row, kind, lease, l', at) && forall i :: 0 <= i < |l.events| ==> l.events[i].key != key
    ensures SequencesFit(key, row, l'.events)
  {
    hide RowFit;
  }

  lemma AdmitLog(l: Ledger, key: Key, row: Operation, kind: Kind, lease: Option<string>, l': Ledger, at: int)
    requires Admits(l, key, row, kind, lease, l', at) && LogFit(l.operations, l.events)
    ensures LogFit(l'.operations, l'.events)
  {
    var e := Event(key, kind, at);
    ReplayAppend(l.events, e);
    NoEarlierEvents(l, key);
    FirstSequences(l, key, row, kind, lease, l', at);
    StatesUpdate(l.operations, key, row);
    hide SequencesFit, Replay, States, RowFit;
    forall k | k in l'.operations ensures SequencesFit(k, l'.operations[k], l'.events) {
      if k != key { OtherSequences(k, l.operations[k], l.events, e); }
    }
  }

  lemma {:induction false} ReplayKeys(events: seq<Event>)
    ensures forall i :: 0 <= i < |events| ==> events[i].key in Replay(events)
  {
    if events != [] {
      var rest := events[..|events| - 1];
      ReplayKeys(rest);
      forall i | 0 <= i < |events| ensures events[i].key in Replay(events) {
        if i < |rest| { assert rest[i] == events[i]; }
      }
    }
  }

  lemma NoEarlierEvents(l: Ledger, key: Key)
    requires LogFit(l.operations, l.events) && key !in l.operations
    ensures forall i :: 0 <= i < |l.events| ==> l.events[i].key != key
  {
    ReplayKeys(l.events);
    hide SequencesFit;
  }

  lemma AdmitForward(l: Ledger, key: Key, row: Operation, kind: Kind, lease: Option<string>, l': Ledger, at: int)
    requires Admits(l, key, row, kind, lease, l', at)
    ensures LedgerForward(l, l')
  {
    hide RowFit;
    Resting(l);
  }

  lemma AdmitTables(l: Ledger, key: Key, row: Operation, kind: Kind, lease: Option<string>, l': Ledger, at: int)
    requires Admits(l, key, row, kind, lease, l', at) && RowsFit(l.operations) && LeasesFit(l.leases, l.operations)
    ensures RowsFit(l'.operations) && LeasesFit(l'.leases, l'.operations)
  {
    hide RowFit;
  }

  lemma AdmitLedger(l: Ledger, key: Key, row: Operation, kind: Kind, lease: Option<string>, l': Ledger, at: int)
    requires Admits(l, key, row, kind, lease, l', at) && LedgerFit(l)
    ensures LedgerFit(l') && LedgerForward(l, l')
  {
    hide LogFit, RowsFit, LeasesFit, Admits, LedgerForward;
    AdmitLog(l, key, row, kind, lease, l', at);
    AdmitTables(l, key, row, kind, lease, l', at);
    AdmitForward(l, key, row, kind, lease, l', at);
  }

  lemma AdmitRows(s: Sys, s': Sys, key: Key, row: Operation, kind: Kind, lease: Option<string>, at: int)
    requires Admits(s.ledger, key, row, kind, lease, s'.ledger, at) && Inv(s) && s'.observed == s.observed
    requires forall k :: k in s.calls ==> k in s'.calls && s'.calls[k] == s.calls[k]
    requires forall k :: k in s'.calls && k != key ==> k in s.calls
    ensures Honest(s') && ReadersFit(s.readers, s.readbacks, s'.ledger.operations, s.widest)
  {
    hide LedgerFit, Evidence, EffectsFit, CallsFit, RowFit;
    forall k | k in s'.ledger.operations ensures HonestRow(s', k) {
      if k != key { assert HonestRow(s, k); }
    }
  }

  lemma AdmitCalls(calls: map<Key, Call>, effects: seq<Effect>, l: Ledger, key: Key, row: Operation, kind: Kind,
                   lease: Option<string>, l': Ledger, at: int, limit: int, checked: bool)
    requires Admits(l, key, row, kind, lease, l', at) && CallsFit(calls, l) && EffectsFit(effects, calls)
    ensures lease.None? ==> CallsFit(calls, l')
    ensures lease.Some? ==>
      var calls' := calls[key := Call(lease.value, limit, checked, Idle, false, false, true)];
        CallsFit(calls', l') && EffectsFit(effects, calls')
  {
    hide Cleared, RowFit, EffectsFit, CallsFit, Admits;
    AdmitCallsFit(calls, l, key, row, kind, lease, l', at, limit, checked);
    if lease.Some? {
      AdmitFresh(calls, l, key, row, kind, lease, l', at);
      EffectsWiden(effects, calls, key, Call(lease.value, limit, checked, Idle, false, false, true));
    }
  }

  lemma AdmitFresh(calls: map<Key, Call>, l: Ledger, key: Key, row: Operation, kind: Kind, lease: Option<string>,
                   l': Ledger, at: int)
    requires Admits(l, key, row, kind, lease, l', at) && CallsFit(calls, l)
    ensures key !in calls
  {
    hide Cleared, RowFit;
  }

  lemma EffectsWiden(effects: seq<Effect>, calls: map<Key, Call>, key: Key, call: Call)
    requires EffectsFit(effects, calls) && key !in calls && !call.mutated
    ensures EffectsFit(effects, calls[key := call])
  {
    hide Cleared;
  }

  lemma AdmitCallsFit(calls: map<Key, Call>, l: Ledger, key: Key, row: Operation, kind: Kind, lease: Option<string>,
                      l': Ledger, at: int, limit: int, checked: bool)
    requires Admits(l, key, row, kind, lease, l', at) && CallsFit(calls, l)
    ensures lease.None? ==> CallsFit(calls, l')
    ensures lease.Some? ==> CallsFit(calls[key := Call(lease.value, limit, checked, Idle, false, false, true)], l')
  {
    hide Cleared, RowFit;
  }

  lemma ExecuteStep(s: Sys, q: Request, registration: Option<Registration>, lease: Option<Lease>, id: string,
                    capacity: int, now: int, later: int, checked: bool)
    requires Inv(s)
    ensures Inv(Next(s, Execute(q, registration, lease, id, capacity, now, later, checked)))
    ensures LedgerForward(s.ledger, Next(s, Execute(q, registration, lease, id, capacity, now, later, checked)).ledger)
  {
    hide Reserve, Dispatches, CallsFit, EffectsFit, Honest, ReadersFit, LedgerFit, LedgerForward, Admits;
    var l := s.ledger;
    var x := Reserve(l, q, registration, lease, id, capacity, now, later);
    var s' := Next(s, Execute(q, registration, lease, id, capacity, now, later, checked));
    var key := KeyOf(q);
    Resting(l);
    ReserveAdmits(l, q, registration, lease, id, capacity, now, later, x);
    if Dispatches(l, q, registration, lease, id, capacity, now, later) {
      var row :| Admits(l, key, row, Prepared, Some(lease.value.id), x.ledger, later);
      NotCalled(s, key, row, Prepared, Some(lease.value.id), x.ledger, later);
      AdmitLedger(l, key, row, Prepared, Some(lease.value.id), x.ledger, later);
      AdmitRows(s, s', key, row, Prepared, Some(lease.value.id), later);
      AdmitCalls(s.calls, s.effects, l, key, row, Prepared, Some(lease.value.id), x.ledger, later, s'.calls[key].limit,
                 checked);
    } else if x.ledger != l {
      var row, kind :| Admits(l, key, row, kind, None, x.ledger, later);
      AdmitLedger(l, key, row, kind, None, x.ledger, later);
      AdmitRows(s, s', key, row, kind, None, later);
      AdmitCalls(s.calls, s.effects, l, key, row, kind, None, x.ledger, later, 0, checked);
    } else {
      assert s' == s;
    }
  }

  lemma NotCalled(s: Sys, key: Key, row: Operation, kind: Kind, lease: Option<string>, l': Ledger, at: int)
    requires CallsFit(s.calls, s.ledger) && Admits(s.ledger, key, row, kind, lease, l', at)
    ensures key !in s.calls
  {
    hide Cleared, RowFit;
  }

  // ----- readbacks, revocation, crashes -----

  function Charged(l: Ledger, key: Key): Ledger
    requires key in l.operations
  {
    l.(operations := l.operations[key := l.operations[key].(readbacks := l.operations[key].readbacks + 1)])
  }

  lemma ChargeLog(l: Ledger, key: Key)
    requires key in l.operations && LogFit(l.operations, l.events)
    ensures LogFit(Charged(l, key).operations, Charged(l, key).events)
  {
    hide LogFit;
    ChargedLog(l.operations, l.events, key, Charged(l, key).operations[key]);
  }

  lemma ChargedLog(operations: map<Key, Operation>, events: seq<Event>, key: Key, row: Operation)
    requires LogFit(operations, events) && key in operations
    requires row == operations[key].(readbacks := operations[key].readbacks + 1)
    ensures LogFit(operations[key := row], events)
  {
    hide SequencesFit, Replay;
    assert States(operations[key := row]) == States(operations);
    ChargedSequences(key, operations[key], events);
  }

  lemma ChargedSequences(k: Key, row: Operation, events: seq<Event>)
    requires SequencesFit(k, row, events)
    ensures SequencesFit(k, row.(readbacks := row.readbacks + 1), events)
  {
  }

  lemma ChargeRows(l: Ledger, key: Key)
    requires key in l.operations && RowsFit(l.operations) && LeasesFit(l.leases, l.operations)
    ensures RowsFit(Charged(l, key).operations) && LeasesFit(Charged(l, key).leases, Charged(l, key).operations)
  {
  }

  lemma ChargeForward(l: Ledger, key: Key)
    requires key in l.operations
    ensures OneRow(l, key, Charged(l, key))
  {
    Resting(l);
  }

  lemma ChargeLedger(l: Ledger, key: Key)
    requires key in l.operations && LedgerFit(l)
    ensures LedgerFit(Charged(l, key)) && OneRow(l, key, Charged(l, key))
  {
    hide LogFit, RowsFit, LeasesFit, OneRow, Charged;
    ChargeLog(l, key);
    ChargeRows(l, key);
    ChargeForward(l, key);
  }

  lemma ReconcileShape(l: Ledger, q: Request, registration: Option<Registration>, limit: nat)
    ensures var x := ReserveReadback(l, q, registration, limit);
      x.ledger == l
        || (KeyOf(q) in l.operations && l.operations[KeyOf(q)].readbacks < limit && x.ledger == Charged(l, KeyOf(q)))
  {
    hide ValidRequest;
  }

  lemma ReconcileStep(s: Sys, q: Request, registration: Option<Registration>, limit: nat)
    requires Inv(s)
    ensures Inv(Next(s, Reconcile(q, registration, limit)))
  {
    hide ReserveReadback, LedgerFit, OneRow, CallsFit, EffectsFit, Honest, ReadersFit, Charged;
    var s' := Next(s, Reconcile(q, registration, limit));
    var key := KeyOf(q);
    ReconcileShape(s.ledger, q, registration, limit);
    if s' != s {
      ChargeLedger(s.ledger, key);
      CallsRest(s, s.ledger, s'.ledger, key);
      ChargedReaders(s, key, limit);
      ChargedHonest(s, s', key);
    }
  }

  lemma CallsRest(s: Sys, l: Ledger, l': Ledger, key: Key)
    requires CallsFit(s.calls, l) && OneRow(l, key, l')
    ensures CallsFit(s.calls, l')
  {
    hide Cleared;
    CallsSettleFit(s.calls, s.calls, l, l', key);
  }

  lemma ChargedReaders(s: Sys, key: Key, limit: nat)
    requires ReadersFit(s.readers, s.readbacks, s.ledger.operations, s.widest) && key in s.ledger.operations
    requires s.ledger.operations[key].readbacks < limit
    ensures ReadersFit(s.readers[Readback(key, s.ledger.operations[key].readbacks) := true], s.readbacks,
                       Charged(s.ledger, key).operations, if limit > s.widest then limit else s.widest)
  {
  }

  lemma ChargedHonest(s: Sys, s': Sys, key: Key)
    requires Honest(s) && key in s.ledger.operations && s'.ledger == Charged(s.ledger, key)
    requires s'.calls == s.calls && s'.observed == s.observed
    ensures Honest(s')
  {
    forall k | k in s'.ledger.operations ensures HonestRow(s', k) {
      assert HonestRow(s, k);
      EvidenceStays(s, s', k, s.ledger.operations[k], s'.ledger.operations[k]);
    }
    hide Evidence;
  }

  lemma AskStep(s: Sys, token: Readback)
    requires Inv(s)
    ensures Inv(Next(s, AskReadback(token)))
  {
    hide LedgerFit, CallsFit, EffectsFit, HonestRow;
    var s' := Next(s, AskReadback(token));
    forall k | k in s'.ledger.operations ensures HonestRow(s', k) { SameHonest(s, s', k); }
  }

  lemma RevokeForward(l: Ledger, subject: string, capacity: int, now: int)
    ensures var x := RevokeSubject(l, subject, capacity, now);
      && LedgerForward(l, x.ledger)
      && x.ledger.operations == l.operations && x.ledger.events == l.events && x.ledger.leases == l.leases
  {
    hide Identifier;
    Resting(l);
  }

  lemma RevokeStep(s: Sys, subject: string, capacity: int, now: int)
    requires Inv(s)
    ensures Inv(Next(s, Revoke(subject, capacity, now)))
  {
    hide RevokeSubject, RowsFit, LogFit, LeasesFit, Cleared, EffectsFit, HonestRow, ReadersFit, LedgerForward;
    RevokeForward(s.ledger, subject, capacity, now);
    var s' := Next(s, Revoke(subject, capacity, now));
    forall k | k in s'.ledger.operations ensures HonestRow(s', k) { SameHonest(s, s', k); }
  }

  lemma SameHonest(s: Sys, s': Sys, k: Key)
    requires k in s.ledger.operations && HonestRow(s, k) && s'.ledger.operations == s.ledger.operations
    requires s'.calls == s.calls && s'.observed == s.observed
    ensures HonestRow(s', k)
  {
    hide Evidence;
  }

  lemma CrashStep(s: Sys)
    requires Inv(s)
    ensures Inv(Next(s, Crash))
  {
    hide LedgerFit, Cleared, HonestRow, ReadersFit, CallsFit, EffectsFit;
    var s' := Next(s, Crash);
    CrashReaders(s);
    CrashCalls(s);
    forall k | k in s'.ledger.operations ensures HonestRow(s', k) { CrashHonest(s, k); }
  }

  lemma CrashReaders(s: Sys)
    requires ReadersFit(s.readers, s.readbacks, s.ledger.operations, s.widest)
    ensures var s' := Next(s, Crash); ReadersFit(s'.readers, s'.readbacks, s'.ledger.operations, s'.widest)
  {
  }

  lemma CrashCalls(s: Sys)
    requires CallsFit(s.calls, s.ledger) && EffectsFit(s.effects, s.calls)
    ensures var s' := Next(s, Crash); CallsFit(s'.calls, s'.ledger) && EffectsFit(s'.effects, s'.calls)
  {
    hide Cleared;
    var s' := Next(s, Crash);
    assert CallsSettle(s.calls, s'.calls);
    EffectsSettleFit(s.effects, s.calls, s'.calls);
    Resting(s.ledger);
    CallsSettleFit(s.calls, s'.calls, s.ledger, s.ledger, Key("", ""));
    hide EffectsFit, CallsFit, CallsSettle;
  }

  lemma CrashHonest(s: Sys, k: Key)
    requires k in s.ledger.operations && HonestRow(s, k)
    ensures HonestRow(Next(s, Crash), k)
  {
    hide Evidence;
  }

  lemma NextKeeps(s: Sys, step: Step)
    requires Inv(s)
    ensures Inv(Next(s, step))
  {
    hide Inv;
    match step
    case Execute(q, registration, lease, id, capacity, now, later, checked) =>
      hide Next;
      ExecuteStep(s, q, registration, lease, id, capacity, now, later, checked);
    case NeverStarts(key) => if key in s.calls && s.calls[key].worker.Idle? { WorkerStep(s, key, Never); }
    case Check(key, now, late, later) => hide Next; CheckStep(s, key, now, late, later);
    case Mutate(key, now, late) => hide Next; MutateStep(s, key, now, late);
    case Return(key, value) => if key in s.calls && s.calls[key].worker.Admitted? {
      WorkerStep(s, key, Ended(true, value));
    }
    case Throw(key) =>
      if key in s.calls && (s.calls[key].worker.Idle? || s.calls[key].worker.Admitted?) {
        WorkerStep(s, key, Ended(false, None));
      }
    case CloseCall(key, patient, now) => hide Next; CloseStep(s, key, patient, now);
    case Reconcile(q, registration, limit) => hide Next; ReconcileStep(s, q, registration, limit);
    case AskReadback(token) => hide Next; AskStep(s, token);
    case CloseReader(token, outcome, now) => hide Next; CloseReaderStep(s, token, outcome, now);
    case Revoke(subject, capacity, now) => hide Next; RevokeStep(s, subject, capacity, now);
    case Crash => hide Next; CrashStep(s);
  }

  lemma {:induction false} RunKeeps(s: Sys, steps: seq<Step>)
    requires Inv(s)
    ensures Inv(Run(s, steps))
    decreases |steps|
  {
    hide Inv, Next;
    if steps != [] {
      NextKeeps(s, steps[0]);
      RunKeeps(Next(s, steps[0]), steps[1..]);
    }
  }

  lemma StartFits()
    ensures Inv(START)
  {
    assert Replay([]) == States(EMPTY.operations);
  }

  // ----- how runs move -----

  lemma OneRowForward(l: Ledger, key: Key, l': Ledger)
    requires OneRow(l, key, l')
    ensures LedgerForward(l, l')
  {
  }

  lemma NextForward(s: Sys, step: Step)
    requires Inv(s)
    ensures LedgerForward(s.ledger, Next(s, step).ledger)
  {
    hide Inv, LedgerForward, LedgerFit, OneRow, Reserve, Dispatches, CheckDispatch, Cleared, Close, CloseReadback,
      ReserveReadback, RevokeSubject, Charged, RowFit, Honest, CallsFit, Settled;
    var l := s.ledger;
    Resting(l);
    match step
    case Execute(q, registration, lease, id, capacity, now, later, checked) =>
      ExecuteStep(s, q, registration, lease, id, capacity, now, later, checked);
    case Check(key, now, late, later) =>
      InvParts(s, key);
      if key in s.calls && s.calls[key].worker.Idle? && key in l.operations {
        var x := CheckDispatch(l, key, s.calls[key].limit, now, late, later);
        CheckKeeps(s, key, now, late, later, x);
        OneRowForward(l, key, x.ledger);
      }
    case CloseCall(key, patient, now) =>
      InvParts(s, key);
      if key in s.calls && key in l.operations {
        NotDenied(s, key);
        var outcome := Learned(s.calls[key].worker, patient);
        CloseKeeps(l, key, outcome, now, Close(l, key, outcome, now));
        OneRowForward(l, key, Close(l, key, outcome, now).ledger);
      }
    case Reconcile(q, registration, limit) =>
      ReconcileShape(l, q, registration, limit);
      if KeyOf(q) in l.operations {
        ChargeForward(l, KeyOf(q));
        OneRowForward(l, KeyOf(q), Charged(l, KeyOf(q)));
      }
    case CloseReader(token, outcome, now) =>
      InvParts(s, token.key);
      if token.key in l.operations {
        CloseReadbackKeeps(l, token.key, outcome, now, CloseReadback(l, token.key, outcome, now));
        OneRowForward(l, token.key, CloseReadback(l, token.key, outcome, now).ledger);
      }
    case Revoke(subject, capacity, now) => RevokeForward(l, subject, capacity, now);
    case NeverStarts(_) =>
    case Mutate(_, _, _) =>
    case Return(_, _) =>
    case Throw(_) =>
    case AskReadback(_) =>
    case Crash =>
  }

  /**
   * Over any run no operation, lease or event is lost or rewritten, external ids are written once, a success never
   * becomes a failure or the reverse, and a terminal conflict, a denial and a suspension are never left.
   */
  lemma {:induction false} RunForward(s: Sys, steps: seq<Step>)
    requires Inv(s)
    ensures LedgerForward(s.ledger, Run(s, steps).ledger)
    decreases |steps|
  {
    hide Inv, Next, LedgerForward;
    if steps == [] {
      Resting(s.ledger);
    } else {
      var next := Next(s, steps[0]);
      NextKeeps(s, steps[0]);
      NextForward(s, steps[0]);
      RunForward(next, steps[1..]);
      ForwardTransitive(s.ledger, next.ledger, Run(s, steps).ledger);
    }
  }

  /** The systems some run reaches from an empty gateway. */
  ghost predicate Reachable(s: Sys) {
    exists steps :: s == Run(START, steps)
  }

  lemma ReachableFits(s: Sys)
    requires Reachable(s)
    ensures Inv(s)
  {
    hide Run, Inv;
    var steps :| s == Run(START, steps);
    StartFits();
    RunKeeps(START, steps);
  }

  /** The operations table is what replaying the event log gives, and its sequence fields point at the right events. */
  lemma TableIsProjection(s: Sys)
    requires Reachable(s)
    ensures Replay(s.ledger.events) == (map k | k in s.ledger.operations :: s.ledger.operations[k].state)
    ensures forall k :: k in s.ledger.operations ==> SequencesFit(k, s.ledger.operations[k], s.ledger.events)
  {
    hide Reachable, SequencesFit, Replay, CallsFit, EffectsFit, Honest, ReadersFit, RowsFit, LeasesFit;
    ReachableFits(s);
  }

  // ----- honest receipts -----

  lemma NeverAskedStep(s: Sys, step: Step, key: Key)
    requires Inv(s) && key in s.ledger.operations && NeverAsked(s.calls, key)
    requires forall i :: 0 <= i < |s.effects| ==> s.effects[i].key != key
    ensures var s' := Next(s, step); key in s'.ledger.operations && NeverAsked(s'.calls, key)
    ensures forall i :: 0 <= i < |Next(s, step).effects| ==> Next(s, step).effects[i].key != key
  {
    hide Inv, LedgerForward, Reserve, CheckDispatch, Cleared, Close, CloseReadback, ReserveReadback, RevokeSubject;
    NextForward(s, step);
    OperationsStay(s.ledger, Next(s, step).ledger, key);
    if step.Execute? { ReserveFresh(s.ledger, step, key); }
  }

  lemma OperationsStay(l: Ledger, l': Ledger, key: Key)
    requires LedgerForward(l, l') && key in l.operations
    ensures key in l'.operations
  {
  }

  lemma ReserveFresh(l: Ledger, step: Step, key: Key)
    requires step.Execute? && key in l.operations
    ensures Dispatches(l, step.q, step.registration, step.lease, step.id, step.capacity, step.now, step.later) ==>
      KeyOf(step.q) != key
  {
    hide Reserve;
  }

  lemma {:induction false} NeverAskedRun(s: Sys, steps: seq<Step>, key: Key)
    requires Inv(s) && key in s.ledger.operations && NeverAsked(s.calls, key)
    requires forall i :: 0 <= i < |s.effects| ==> s.effects[i].key != key
    ensures NeverAsked(Run(s, steps).calls, key)
    ensures forall i :: 0 <= i < |Run(s, steps).effects| ==> Run(s, steps).effects[i].key != key
    decreases |steps|
  {
    hide Inv, Next, NeverAsked;
    if steps != [] {
      NextKeeps(s, steps[0]);
      NeverAskedStep(s, steps[0], key);
      NeverAskedRun(Next(s, steps[0]), steps[1..], key);
    }
  }

  /** The adapter of this operation was never called, nor its provider asked for the mutation. */
  predicate Untouched(s: Sys, key: Key) {
    && (key in s.calls ==> !s.calls[key].entered)
    && (forall i :: 0 <= i < |s.effects| ==> s.effects[i].key != key)
  }

  /**
   * A receipt that says no effect may have occurred is honest: either a bound terminal not-applied observation was
   * recorded, or the adapter was never called for this operation, then or in any continuation. A receipt of success
   * rests on a bound terminal applied observation.
   */
  lemma HonestReceipts(s: Sys, later: seq<Step>, key: Key)
    requires Reachable(s) && key in s.ledger.operations
    ensures var row := s.ledger.operations[key];
      && (!ReceiptOf(row).mayHaveOccurred ==>
            Evidence(s.observed, key, row, NotApplied) || (Untouched(s, key) && Untouched(Run(s, later), key)))
      && (ReceiptOf(row).status.Succeeded? ==> Evidence(s.observed, key, row, Applied))
      && (ReceiptOf(row).mayHaveOccurred <==> row.state != Failed && row.state != Denied)
      && (ReceiptOf(row).status.Succeeded? <==> row.state == Succeeded)
  {
    hide Reachable, LedgerFit, ReadersFit, Evidence, Run;
    ReachableFits(s);
    assert HonestRow(s, key);
    hide Honest;
    var row := s.ledger.operations[key];
    if !ReceiptOf(row).mayHaveOccurred && !Evidence(s.observed, key, row, NotApplied) {
      NotAskedYet(s, key);
      NeverAskedRun(s, later, key);
    }
  }

  lemma NotAskedYet(s: Sys, key: Key)
    requires CallsFit(s.calls, s.ledger) && EffectsFit(s.effects, s.calls) && key in s.ledger.operations
    requires s.ledger.operations[key].state.Denied? || NeverAsked(s.calls, key)
    ensures NeverAsked(s.calls, key) && forall i :: 0 <= i < |s.effects| ==> s.effects[i].key != key
  {
    hide Cleared;
  }

  /** An operation whose worker was not started is such a one. */
  lemma NeverStartedUntouched(s: Sys, key: Key)
    requires Inv(s) && key in s.calls && s.calls[key].worker.Never?
    ensures key in s.ledger.operations && NeverAsked(s.calls, key)
    ensures forall i :: 0 <= i < |s.effects| ==> s.effects[i].key != key
  {
    hide LedgerFit, ReadersFit, HonestRow, Cleared;
  }

  // ----- at most one effect -----

  /**
   * Over any run, restarts included, a provider is asked for at most one mutation for an idempotency key and at most
   * one for a lease; and the last check before each saw the row dispatching, no suspension, no revocation of the
   * subject and a valid clock before both deadlines.
   */
  lemma AtMostOneEffect(s: Sys)
    requires Reachable(s)
    ensures forall i, j :: 0 <= i < j < |s.effects| ==>
      s.effects[i].key != s.effects[j].key && s.effects[i].lease != s.effects[j].lease
    ensures forall i :: 0 <= i < |s.effects| ==>
      var e := s.effects[i]; var seen := e.clearance.seen;
      && e.key in seen.operations && seen.operations[e.key].state == Dispatching && seen.suspended == None
      && e.key.subject !in seen.revoked && 0 <= e.clearance.at < e.limit
  {
    hide Reachable, LedgerFit, ReadersFit, Honest;
    ReachableFits(s);
    forall i, j | 0 <= i < j < |s.effects| ensures s.effects[i].lease != s.effects[j].lease {
      LeaseOwner(s, i);
      LeaseOwner(s, j);
    }
  }

  lemma LeaseOwner(s: Sys, i: nat)
    requires CallsFit(s.calls, s.ledger) && EffectsFit(s.effects, s.calls) && i < |s.effects|
    ensures s.effects[i].lease in s.ledger.leases && s.ledger.leases[s.effects[i].lease] == s.effects[i].key
  {
    hide Cleared;
  }

  /** A worker that reaches its check after the operation was closed is turned away: its adapter is never called. */
  lemma LateWorkerTurnedAway(s: Sys, key: Key, now: int, late: bool, later: int, steps: seq<Step>)
    requires Reachable(s) && key in s.calls && s.calls[key].worker.Idle?
    requires key in s.ledger.operations && !s.ledger.operations[key].state.Dispatching?
    ensures Untouched(Run(Next(s, Check(key, now, late, later)), steps), key)
  {
    hide Reachable, LedgerFit, ReadersFit, Honest, Run, LedgerForward;
    ReachableFits(s);
    var s' := Next(s, Check(key, now, late, later));
    NextForward(s, Check(key, now, late, later));
    OperationsStay(s.ledger, s'.ledger, key);
    NextKeeps(s, Check(key, now, late, later));
    assert NeverAsked(s'.calls, key);
    assert forall i :: 0 <= i < |s.effects| ==> s.effects[i].key != key;
    hide Inv, Next;
    NeverAskedRun(s', steps, key);
  }

  /**
   * Readbacks asked of a provider were each reserved first; for one operation they never exceed the widest limit in
   * force.
   */
  lemma ReadbacksBounded(s: Sys, key: Key)
    requires Reachable(s)
    ensures forall i, j :: 0 <= i < j < |s.readbacks| ==> s.readbacks[i] != s.readbacks[j]
    ensures forall i :: 0 <= i < |s.readbacks| && s.readbacks[i].key == key ==>
      key in s.ledger.operations && s.readbacks[i].ordinal < s.ledger.operations[key].readbacks <= s.widest
  {
    hide Reachable, LedgerFit, EffectsFit, CallsFit, Honest;
    ReachableFits(s);
  }

  // ----- denial or total stop -----

  /** The subject is denied by its own record or because everything is. */
  predicate Stopped(l: Ledger, subject: string) {
    subject in l.revoked || l.suspended.Some?
  }

  /** revoke_subject, whichever way it ends, leaves the subject denied or the gateway suspended. */
  lemma RevocationLands(l: Ledger, subject: string, capacity: int, now: int)
    requires Identifier(subject)
    ensures Stopped(RevokeSubject(l, subject, capacity, now).ledger, subject)
    ensures RevokeSubject(l, subject, capacity, now).Committed? ==>
      subject in RevokeSubject(l, subject, capacity, now).ledger.revoked
  {
  }

  lemma StoppedStays(l: Ledger, l': Ledger, subject: string)
    requires LedgerForward(l, l') && Stopped(l, subject)
    ensures Stopped(l', subject)
  {
  }

  /** No operation of the subject is dispatching anew, and no worker of it newly passes a check. */
  lemma StoppedStep(s: Sys, step: Step, key: Key)
    requires Inv(s) && Stopped(s.ledger, key.subject)
    ensures var s' := Next(s, step);
      && (key in s'.calls ==> key in s.calls)
      && (key in s'.calls && s'.calls[key].worker.Admitted? ==>
        s.calls[key].worker == s'.calls[key].worker && s'.calls[key].checked == s.calls[key].checked)
      && (forall i :: |s.effects| <= i < |s'.effects| && s'.effects[i].key == key ==>
            key in s.calls && !s.calls[key].checked && s.calls[key].worker.Admitted?)
  {
    hide Inv, LedgerForward, CheckDispatch, Close, CloseReadback, ReserveReadback, RevokeSubject, DenialOf;
    if step.Execute? && KeyOf(step.q) == key { StoppedReserve(s.ledger, step); }
    hide Reserve;
  }

  lemma StoppedReserve(l: Ledger, step: Step)
    requires step.Execute? && Stopped(l, step.q.subject)
    ensures !Dispatches(l, step.q, step.registration, step.lease, step.id, step.capacity, step.now, step.later)
  {
    hide ValidRequest;
  }

  /** No worker of this key stands between an admission and its provider without a further check. */
  ghost predicate Fenced(calls: map<Key, Call>, key: Key) {
    key in calls && calls[key].worker.Admitted? ==> calls[key].checked
  }

  /** A stopped subject stays stopped over every run. */
  lemma {:induction false} StoppedRun(s: Sys, steps: seq<Step>, key: Key)
    requires Inv(s) && Stopped(s.ledger, key.subject)
    ensures var s' := Run(s, steps);
      && Stopped(s'.ledger, key.subject)
      && (key in s'.calls ==> key in s.calls)
      && (Fenced(s.calls, key) ==> forall i :: |s.effects| <= i < |s'.effects| ==> s'.effects[i].key != key)
    ensures |s.effects| <= |Run(s, steps).effects|
    decreases |steps|
  {
    hide Inv, Next, LedgerForward;
    if steps != [] {
      var next := Next(s, steps[0]);
      NextKeeps(s, steps[0]);
      NextForward(s, steps[0]);
      StoppedStays(s.ledger, next.ledger, key.subject);
      StoppedStep(s, steps[0], key);
      EffectsGrow(s, steps[0]);
      StoppedRun(next, steps[1..], key);
      EffectsPrefix(next, steps[1..]);
    }
  }

  lemma EffectsGrow(s: Sys, step: Step)
    ensures s.effects <= Next(s, step).effects
  {
    hide Reserve, CheckDispatch, Close, CloseReadback, ReserveReadback, RevokeSubject, Dispatches, Cleared;
  }

  lemma {:induction false} EffectsPrefix(s: Sys, steps: seq<Step>)
    ensures s.effects <= Run(s, steps).effects
    decreases |steps|
  {
    hide Next;
    if steps != [] {
      EffectsGrow(s, steps[0]);
      EffectsPrefix(Next(s, steps[0]), steps[1..]);
    }
  }

  /**
   * Once revoke_subject has ended in any of its ways, whatever happens later the subject stays denied or the gateway
   * suspended, no new operation of the subject is ever dispatched, and, unless its worker had already passed the only
   * check an unchecked adapter gets, its provider is never asked again.
   */
  lemma DenialOrTotalStop(s: Sys, capacity: int, now: int, steps: seq<Step>, key: Key)
    requires Reachable(s) && Identifier(key.subject)
    ensures var stopped := Next(s, Revoke(key.subject, capacity, now)); var s' := Run(stopped, steps);
      && Stopped(s'.ledger, key.subject)
      && (key in s'.calls ==> key in stopped.calls)
      && (Fenced(stopped.calls, key) ==> forall i :: |stopped.effects| <= i < |s'.effects| ==> s'.effects[i].key != key)
  {
    hide Reachable, Inv, Run, RevokeSubject, Identifier;
    ReachableFits(s);
    RevocationLands(s.ledger, key.subject, capacity, now);
    NextKeeps(s, Revoke(key.subject, capacity, now));
    StoppedRun(Next(s, Revoke(key.subject, capacity, now)), steps, key);
  }
}
