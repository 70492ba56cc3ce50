/**
 * Whole runs of the durable capability gateway: callers, bounded workers that may outlive them, reconcilers,
 * emergency revocations and crashes, interleaved in any order. CapabilityCalls ties its callers and workers to the
 * pool of BoundedCalls.
 */
module CapabilityRuns {
  import opened Base
  import opened CapabilityLedger

  /** The last check before the provider: what it saw, and when. */
  datatype Clearance = Clearance(seen: Ledger, at: int)

  /**
   * Idle has not reached its check. Admitted passed it and holds that clearance. Ended answered with a value or raised;
   * Never was not started.
   */
  datatype Worker = Idle | Admitted(clearance: Clearance) | Ended(answered: bool, value: Option<Observation>) | Never

  /**
   * checked: the adapter calls authorize again right before its mutation. entered: the adapter was called. mutated: it
   * made its mutation.
   */
  datatype Call = Call(lease: string, limit: int, checked: bool, worker: Worker, entered: bool, mutated: bool,
                       waiting: bool)

  datatype Effect = Effect(key: Key, lease: string, limit: int, clearance: Clearance)

  /** A paid readback: the operation and which unit of its budget it spent. */
  datatype Readback = Readback(key: Key, ordinal: nat)

  /** effects lists the mutations asked of providers; observed is every observation the gateway was handed. */
  datatype Sys = Sys(ledger: Ledger, calls: map<Key, Call>, effects: seq<Effect>,
                     readers: map<Readback, bool>, readbacks: seq<Readback>, observed: set<(Key, Observation)>,
                       widest: nat)

  datatype Step =
    | Execute(q: Request, registration: Option<Registration>, lease: Option<Lease>, id: string, capacity: int,
              now: int, later: int, checked: bool)
    | NeverStarts(key: Key)
    | Check(key: Key, now: int, late: bool, later: int)
    | Mutate(key: Key, now: int, late: bool)
    | Return(key: Key, value: Option<Observation>)
    | Throw(key: Key)
    | CloseCall(key: Key, patient: bool, now: int)
    | Reconcile(q: Request, registration: Option<Registration>, limit: nat)
    | AskReadback(token: Readback)
    | CloseReader(token: Readback, outcome: Outcome, now: int)
    | Revoke(subject: string, capacity: int, now: int)
    | Crash

  const START := Sys(EMPTY, map[], [], map[], [], {}, 0)

  function WithWorker(s: Sys, key: Key, worker: Worker): Sys
    requires key in s.calls
  {
    s.(calls := s.calls[key := s.calls[key].(worker := worker)])
  }

  /** The check passed: the worker calls the adapter. */
  function Enter(s: Sys, key: Key, clearance: Clearance): Sys
    requires key in s.calls
  {
    s.(calls := s.calls[key := s.calls[key].(worker := Admitted(clearance), entered := true)])
  }

  /**
   * What the caller of a bounded call learns: the worker's end if there is one and it waited for it, else a timeout.
   */
  function Learned(worker: Worker, patient: bool): Outcome {
    match worker
    case Never => if patient then NotStarted else NoAnswer
    case Ended(answered, value) => if patient && answered then Completed(value) else NoAnswer
    case _ => NoAnswer
  }

  /** The observations recorded once a closing transaction committed. */
  function Handed(s: Sys, key: Key, outcome: Outcome, x: Tx): set<(Key, Observation)> {
    if Answer(outcome).Some? && x.Committed? then s.observed + {(key, Answer(outcome).value)} else s.observed
  }

  function Next(s: Sys, step: Step): Sys {
    var l := s.ledger;
    match step
    case Execute(q, registration, lease, id, capacity, now, later, checked) =>
      var x := Reserve(l, q, registration, lease, id, capacity, now, later);
      if !Dispatches(l, q, registration, lease, id, capacity, now, later) || lease.None? then
        s.(ledger := x.ledger)
      else
        var limit := if q.deadline <= lease.value.expires then q.deadline else lease.value.expires;
        s.(ledger := x.ledger,
           calls := s.calls[KeyOf(q) := Call(lease.value.id, limit, checked, Idle, false, false, true)])
    case NeverStarts(key) =>
      if key in s.calls && s.calls[key].worker.Idle? then WithWorker(s, key, Never) else s
    case Check(key, now, late, later) =>
      if key !in s.calls || !s.calls[key].worker.Idle? || key !in l.operations then s else
      if Cleared(l, key, s.calls[key].limit, now, late) then Enter(s, key, Clearance(l, now)) else
      var x := CheckDispatch(l, key, s.calls[key].limit, now, late, later);
      WithWorker(s, key, Ended(x.Committed?, None)).(ledger := x.ledger)
    case Mutate(key, now, late) =>
      if key !in s.calls || !s.calls[key].worker.Admitted? || s.calls[key].mutated then s else
      var call := s.calls[key];
      if call.checked && !Cleared(l, key, call.limit, now, late) then s else
      var clearance := if call.checked then Clearance(l, now) else call.worker.clearance;
      s.(calls := s.calls[key := call.(mutated := true)],
         effects := s.effects + [Effect(key, call.lease, call.limit, clearance)])
    case Return(key, value) =>
      if key in s.calls && s.calls[key].worker.Admitted? then WithWorker(s, key, Ended(true, value)) else s
    case Throw(key) =>
      if key in s.calls && (s.calls[key].worker.Idle? || s.calls[key].worker.Admitted?)
      then WithWorker(s, key, Ended(false, None)) else s
    case CloseCall(key, patient, now) =>
      if key !in s.calls || !s.calls[key].waiting || key !in l.operations then s else
      var outcome := Learned(s.calls[key].worker, patient);
      var x := Close(l, key, outcome, now);
      s.(ledger := x.ledger, calls := s.calls[key := s.calls[key].(waiting := false)],
         observed := Handed(s, key, outcome, x))
    case Reconcile(q, registration, limit) =>
      var x := ReserveReadback(l, q, registration, limit);
      var key := KeyOf(q);
      if x.ledger == l || key !in l.operations then s else
      s.(ledger := x.ledger, readers := s.readers[Readback(key, l.operations[key].readbacks) := true],
         widest := if limit > s.widest then limit else s.widest)
    case AskReadback(token) =>
      if token in s.readers && token !in s.readbacks then s.(readbacks := s.readbacks + [token]) else s
    case CloseReader(token, outcome, now) =>
      if token !in s.readers || !s.readers[token] || token.key !in l.operations then s else
      var x := CloseReadback(l, token.key, outcome, now);
      s.(ledger := x.ledger, readers := s.readers[token := false], observed := Handed(s, token.key, outcome, x))
    case Revoke(subject, capacity, now) => s.(ledger := RevokeSubject(l, subject, capacity, now).ledger)
    case Crash =>
      s.(calls := map k | k in s.calls :: s.calls[k].(waiting := false,
           worker := if s.calls[k].worker.Ended? || s.calls[k].worker.Never? then s.calls[k].worker
             else Ended(false, None)), readers := map k | k in s.readers :: false)
  }

  function Run(s: Sys, steps: seq<Step>): Sys
    decreases |steps|
  {
    if steps == [] then s else Run(Next(s, steps[0]), steps[1..])
  }

  // ----- invariants of the ledger -----

  /** The state an event log entry stands for. */
  function StateAfter(kind: Kind): State {
    if kind.Prepared? then Dispatching else kind.state
  }

  /** Replaying the log: the last event of each key decides. */
  function Replay(events: seq<Event>): map<Key, State> {
    if events == [] then map[] else
    var last := events[|events| - 1];
    Replay(events[..|events| - 1])[last.key := StateAfter(last.kind)]
  }

  /** A row's sequence fields point at its first and its last event. */
  ghost predicate SequencesFit(key: Key, row: Operation, events: seq<Event>) {
    && (row.prepared.Some? ==>
          && 1 <= row.prepared.value <= |events|
          && events[row.prepared.value - 1].key == key && events[row.prepared.value - 1].kind.Prepared?)
    && (row.completed.Some? ==>
          && 1 <= row.completed.value <= |events|
          && events[row.completed.value - 1].key == key && events[row.completed.value - 1].kind == Closed(row.state))
    && (row.completed.None? <==> row.state.Dispatching?)
    && (row.prepared.None? <==> row.state.Denied?)
    && (forall i :: 0 <= i < |events| && events[i].key == key && events[i].kind.Prepared? ==>
      row.prepared == Some(i + 1))
    && (forall i :: 0 <= i < |events| && events[i].key == key && !events[i].kind.Prepared? ==>
          row.completed.Some? && i < row.completed.value)
    && (row.prepared.Some? && row.completed.Some? ==> row.prepared.value < row.completed.value)
  }

  ghost predicate RowFit(key: Key, row: Operation) {
    && row.fingerprint.request.subject == key.subject && row.fingerprint.request.key == key.key
    && (row.reason.TerminalConflict? ==> row.state.Indeterminate?)
    && (row.state.Dispatching? ==> row.reason.Reserved?)
  }

  ghost predicate RowsFit(operations: map<Key, Operation>) {
    forall k :: k in operations ==> RowFit(k, operations[k])
  }

  function States(operations: map<Key, Operation>): map<Key, State> {
    map k | k in operations :: operations[k].state
  }

  lemma StatesUpdate(operations: map<Key, Operation>, key: Key, row: Operation)
    ensures States(operations[key := row]) == States(operations)[key := row.state]
  {
  }

  ghost predicate LogFit(operations: map<Key, Operation>, events: seq<Event>) {
    && (forall k :: k in operations ==> SequencesFit(k, operations[k], events))
    && Replay(events) == States(operations)
  }

  /** A lease is consumed by one operation that was reserved, and that operation by no other lease. */
  ghost predicate LeasesFit(leases: map<string, Key>, operations: map<Key, Operation>) {
    && (forall x :: x in leases ==> leases[x] in operations && !operations[leases[x]].state.Denied?)
    && (forall x, y :: x in leases && y in leases && leases[x] == leases[y] ==> x == y)
  }

  ghost predicate LedgerFit(l: Ledger) {
    RowsFit(l.operations) && LogFit(l.operations, l.events) && LeasesFit(l.leases, l.operations)
  }

  // ----- invariants of runs -----

  /** Calls are exactly the operations that were reserved, each with the lease it consumed. */
  ghost predicate CallsFit(calls: map<Key, Call>, l: Ledger) {
    && calls.Keys == (set k | k in l.operations && !l.operations[k].state.Denied?)
    && (forall k :: k in calls ==> calls[k].lease in l.leases && l.leases[calls[k].lease] == k)
    && (forall k :: k in calls ==> (calls[k].worker.Idle? || calls[k].worker.Never? ==> !calls[k].entered))
    && (forall k :: k in calls ==> (calls[k].mutated || calls[k].worker.Admitted? ==> calls[k].entered))
    && (forall k :: k in calls && calls[k].worker.Admitted? ==>
          Cleared(calls[k].worker.clearance.seen, k, calls[k].limit, calls[k].worker.clearance.at, false))
  }

  /** Mutations asked for: at most one an operation, each after a check that saw full authority. */
  ghost predicate EffectsFit(effects: seq<Effect>, calls: map<Key, Call>) {
    && (forall i :: 0 <= i < |effects| ==>
          && effects[i].key in calls && calls[effects[i].key].mutated
          && effects[i].lease == calls[effects[i].key].lease && effects[i].limit == calls[effects[i].key].limit
          && Cleared(effects[i].clearance.seen, effects[i].key, effects[i].limit, effects[i].clearance.at, false))
    && (forall i, j :: 0 <= i < j < |effects| ==> effects[i].key != effects[j].key)
    && (forall k :: k in calls && calls[k].mutated ==> exists i :: 0 <= i < |effects| && effects[i].key == k)
  }

  /** A bound terminal observation of this disposition was handed in for the operation. */
  ghost predicate Evidence(observed: set<(Key, Observation)>, key: Key, row: Operation, disposition: Disposition) {
    exists o ::
      && (key, o) in observed && o.terminal && o.disposition == disposition
      && o.operation == row.id && o.provider == row.provider && o.arguments == row.arguments
  }

  /** The adapter was not called and will not be. */
  ghost predicate NeverAsked(calls: map<Key, Call>, key: Key) {
    key in calls ==>
      !calls[key].entered && !calls[key].mutated && (calls[key].worker.Never? || calls[key].worker.Ended?)
  }

  ghost predicate HonestRow(s: Sys, key: Key)
    requires key in s.ledger.operations
  {
    var row := s.ledger.operations[key];
    && (row.state.Failed? ==> NeverAsked(s.calls, key) || Evidence(s.observed, key, row, NotApplied))
    && (row.state.Succeeded? ==> Evidence(s.observed, key, row, Applied))
    && (row.reason.TerminalConflict? ==>
          Evidence(s.observed, key, row, Applied)
            && (NeverAsked(s.calls, key) || Evidence(s.observed, key, row, NotApplied)))
  }

  ghost predicate Honest(s: Sys) {
    forall k :: k in s.ledger.operations ==> HonestRow(s, k)
  }

  /** Readbacks are paid for in advance and never asked twice. */
  ghost predicate ReadersFit(readers: map<Readback, bool>, readbacks: seq<Readback>, operations: map<Key, Operation>,
                             widest: nat) {
    && (forall t :: t in readers ==> t.key in operations && t.ordinal < operations[t.key].readbacks)
    && (forall i :: 0 <= i < |readbacks| ==> readbacks[i] in readers)
    && (forall i, j :: 0 <= i < j < |readbacks| ==> readbacks[i] != readbacks[j])
    && (forall k :: k in operations ==> operations[k].readbacks <= widest)
  }

  ghost predicate Inv(s: Sys) {
    && LedgerFit(s.ledger)
    && CallsFit(s.calls, s.ledger)
    && EffectsFit(s.effects, s.calls)
    && Honest(s)
    && ReadersFit(s.readers, s.readbacks, s.ledger.operations, s.widest)
  }

  // ----- how rows move -----

  /**
   * Identity is fixed, an external id is written once, readbacks are never refunded and a closed row only meets a
   * conflict.
   */
  ghost predicate RowForward(row: Operation, row': Operation) {
    && row'.fingerprint == row.fingerprint && row'.id == row.id && row'.provider == row.provider
    && row'.arguments == row.arguments && row'.created == row.created && row'.prepared == row.prepared
    && (row.external.Some? ==> row'.external == row.external)
    && row.readbacks <= row'.readbacks && (row.reconciled ==> row'.reconciled)
    && (row'.state.Dispatching? ==> row.state.Dispatching?)
    && (row.state.Denied? <==> row'.state.Denied?)
    && (row.reason.TerminalConflict? ==> row'.reason.TerminalConflict? && row'.state == row.state)
    && (row.state.Succeeded? || row.state.Failed? ==> row'.state == row.state || row'.reason.TerminalConflict?)
  }

  ghost predicate LedgerForward(l: Ledger, l': Ledger) {
    && (forall k :: k in l.operations ==> k in l'.operations && RowForward(l.operations[k], l'.operations[k]))
    && (forall x :: x in l.leases ==> x in l'.leases && l'.leases[x] == l.leases[x])
    && (forall u :: u in l.revoked ==> u in l'.revoked)
    && |l.events| <= |l'.events| && l'.events[..|l.events|] == l.events
    && (l.suspended.Some? ==> l'.suspended == l.suspended)
  }

  lemma ForwardTransitive(a: Ledger, b: Ledger, c: Ledger)
    requires LedgerForward(a, b) && LedgerForward(b, c)
    ensures LedgerForward(a, c)
  {
    assert c.events[..|a.events|] == b.events[..|a.events|];
  }

  lemma Resting(l: Ledger)
    ensures LedgerForward(l, l)
  {
  }

  // ----- one closed row -----

  lemma ReplayAppend(events: seq<Event>, e: Event)
    ensures Replay(events + [e]) == Replay(events)[e.key := StateAfter(e.kind)]
  {
    assert (events + [e])[..|events|] == events;
  }

  /** _finish may be applied: the row is open, or this is its first contradiction. */
  ghost predicate Closable(row: Operation, state: State, reason: Reason) {
    && !state.Denied? && !state.Dispatching? && !row.state.Denied? && !row.reason.TerminalConflict?
    && !reason.Reserved? && (reason.TerminalConflict? ==> state.Indeterminate?)
    && (row.state.Succeeded? || row.state.Failed? ==> reason.TerminalConflict?)
  }

  lemma FinishLog(l: Ledger, key: Key, state: State, reason: Reason, external: Option<string>, reconciled: bool,
                  now: int, x: Tx)
    requires key in l.operations && Closable(l.operations[key], state, reason)
    requires x == Finish(l, key, state, reason, external, reconciled, now)
    requires LogFit(l.operations, l.events)
    ensures LogFit(x.ledger.operations, x.ledger.events)
  {
    hide LogFit;
    if x.Committed? { LogGrows(l.operations, l.events, key, x.ledger.operations[key], Event(key, Closed(state), now)); }
  }

  lemma LogGrows(operations: map<Key, Operation>, events: seq<Event>, key: Key, row: Operation, e: Event)
    requires LogFit(operations, events) && key in operations && !operations[key].state.Denied?
    requires e.key == key && e.kind == Closed(row.state) && !row.state.Denied? && !row.state.Dispatching?
    requires row.prepared == operations[key].prepared && row.completed == Some(|events| + 1)
    ensures LogFit(operations[key := row], events + [e])
  {
    hide States, Replay;
    ReplayAppend(events, e);
    StatesUpdate(operations, key, row);
    forall k | k in operations ensures SequencesFit(k, operations[key := row][k], events + [e]) {
      assert SequencesFit(k, operations[k], events);
      SequencesGrow(k, operations[k], events, e, operations[key := row][k]);
    }
    hide SequencesFit;
  }

  lemma SequencesGrow(k: Key, row: Operation, events: seq<Event>, e: Event, row': Operation)
    requires SequencesFit(k, row, events) && e.kind.Closed? && row'.prepared == row.prepared
    requires e.key == k ==>
      row'.completed == Some(|events| + 1) && e.kind == Closed(row'.state) && !row'.state.Dispatching?
        && (row'.state.Denied? <==> row.state.Denied?)
    requires e.key != k ==> row' == row
    ensures SequencesFit(k, row', events + [e])
  {
  }

  /** What closing or charging one row leaves: a fit, later ledger with the same operations and leases. */
  ghost predicate OneRow(l: Ledger, key: Key, l': Ledger) {
    && LedgerForward(l, l') && l'.operations.Keys == l.operations.Keys && l'.leases == l.leases
    && l'.revoked == l.revoked && l'.suspended == l.suspended
    && (forall k :: k in l.operations && k != key ==> l'.operations[k] == l.operations[k])
  }

  lemma FinishForward(l: Ledger, key: Key, state: State, reason: Reason, external: Option<string>, reconciled: bool,
                      now: int, x: Tx)
    requires key in l.operations && Closable(l.operations[key], state, reason)
    requires x == Finish(l, key, state, reason, external, reconciled, now)
    requires external.Some? && l.operations[key].external.Some? ==> external == l.operations[key].external
    ensures OneRow(l, key, x.ledger)
  {
    Resting(l);
  }

  lemma FinishRows(l: Ledger, key: Key, state: State, reason: Reason, external: Option<string>, reconciled: bool,
                   now: int, x: Tx)
    requires key in l.operations && Closable(l.operations[key], state, reason)
    requires x == Finish(l, key, state, reason, external, reconciled, now)
    requires RowsFit(l.operations) && LeasesFit(l.leases, l.operations)
    ensures RowsFit(x.ledger.operations) && LeasesFit(x.ledger.leases, x.ledger.operations)
  {
  }

  lemma FinishKeeps(l: Ledger, key: Key, state: State, reason: Reason, external: Option<string>, reconciled: bool,
                    now: int, x: Tx)
    requires key in l.operations && Closable(l.operations[key], state, reason)
    requires x == Finish(l, key, state, reason, external, reconciled, now)
    requires external.Some? && l.operations[key].external.Some? ==> external == l.operations[key].external
    requires LedgerFit(l)
    ensures LedgerFit(x.ledger) && OneRow(l, key, x.ledger)
    ensures x.Committed? ==> x.ledger.operations[key].state == state && x.ledger.operations[key].reason == reason
    ensures x.Raised? ==> x.ledger == l
  {
    hide LogFit, RowsFit, LeasesFit, OneRow;
    FinishLog(l, key, state, reason, external, reconciled, now, x);
    FinishForward(l, key, state, reason, external, reconciled, now, x);
    FinishRows(l, key, state, reason, external, reconciled, now, x);
  }

  lemma RestingRow(l: Ledger, key: Key)
    ensures OneRow(l, key, l)
  {
    Resting(l);
  }

  /** What an observing transaction may leave in the row it was about. */
  ghost predicate Settled(row: Operation, o: Option<Observation>, row': Operation) {
    || row' == row
    || (row'.state.Indeterminate? && !row'.reason.TerminalConflict?)
    || (row'.state.Succeeded? && !row'.reason.TerminalConflict? && o.Some? && Bound(row, o.value) && o.value.terminal
      && o.value.disposition.Applied?)
    || (row'.state.Failed? && !row'.reason.TerminalConflict? && o.Some? && Bound(row, o.value) && o.value.terminal
      && o.value.disposition.NotApplied?)
    || (row'.reason.TerminalConflict? && o.Some? && Contradicts(row, o.value))
  }

  lemma ObserveKeeps(l: Ledger, key: Key, o: Option<Observation>, reconciled: bool, now: int, x: Tx)
    requires key in l.operations && LedgerFit(l) && Open(l.operations[key]) && x == Observe(l, key, o, reconciled, now)
    ensures LedgerFit(x.ledger) && OneRow(l, key, x.ledger) && key in x.ledger.operations
    ensures Settled(l.operations[key], o, x.ledger.operations[key]) && (x.Raised? ==> x.ledger == l)
  {
    hide LedgerFit, OneRow, Opaque, Finish;
    var row := l.operations[key];
    if o.None? || !ValidObservation(row, o.value) {
      FinishKeeps(l, key, Indeterminate, Unavailable, None, reconciled, now, x);
    } else if o.value.terminal && o.value.disposition.Applied? {
      FinishKeeps(l, key, Succeeded, TerminalApplied, o.value.external, reconciled, now, x);
    } else if o.value.terminal && o.value.disposition.NotApplied? {
      FinishKeeps(l, key, Failed, TerminalNotApplied, o.value.external, reconciled, now, x);
    } else {
      FinishKeeps(l, key, Indeterminate, Nonterminal, o.value.external, reconciled, now, x);
    }
    SameKeys(l, key, x.ledger);
  }

  lemma SameKeys(l: Ledger, key: Key, l': Ledger)
    requires OneRow(l, key, l')
    ensures l'.operations.Keys == l.operations.Keys
  {
  }

  lemma ConflictKeeps(l: Ledger, key: Key, o: Option<Observation>, now: int, x: Tx)
    requires key in l.operations && LedgerFit(l) && !Open(l.operations[key]) && x == RecordConflict(l, key, o, now)
    ensures LedgerFit(x.ledger) && OneRow(l, key, x.ledger) && key in x.ledger.operations
    ensures Settled(l.operations[key], o, x.ledger.operations[key]) && (x.Raised? ==> x.ledger == l)
  {
    hide LedgerForward, LogFit, LeasesFit, OneRow, Finish, Bound;
    RestingRow(l, key);
    if o.Some? && Contradicts(l.operations[key], o.value) {
      assert RowFit(key, l.operations[key]);
      hide LedgerFit;
      FinishKeeps(l, key, Indeterminate, TerminalConflict, None, true, now, x);
    }
    SameKeys(l, key, x.ledger);
  }

  // ----- steps on a reserved operation -----

  /** Calls that only lost their caller or reached an end; no mutation was asked for. */
  ghost predicate CallsSettle(calls: map<Key, Call>, calls': map<Key, Call>) {
    && calls'.Keys == calls.Keys
    && (forall k | k in calls ::
          && calls'[k].lease == calls[k].lease && calls'[k].limit == calls[k].limit
          && calls'[k].mutated == calls[k].mutated && calls'[k].entered == calls[k].entered
          && (calls'[k].worker == calls[k].worker || calls'[k].worker.Ended?
              || (calls[k].worker.Idle? && calls'[k].worker.Never?))
          && (calls[k].worker.Ended? || calls[k].worker.Never? ==> calls'[k].worker == calls[k].worker))
  }

  lemma CallsSettleFit(calls: map<Key, Call>, calls': map<Key, Call>, l: Ledger, l': Ledger, key: Key)
    requires CallsFit(calls, l) && CallsSettle(calls, calls') && OneRow(l, key, l')
    ensures CallsFit(calls', l')
  {
    hide Cleared;
  }

  lemma EffectsSettleFit(effects: seq<Effect>, calls: map<Key, Call>, calls': map<Key, Call>)
    requires EffectsFit(effects, calls) && CallsSettle(calls, calls')
    ensures EffectsFit(effects, calls')
  {
    hide Cleared;
  }

  lemma ReadersMove(s: Sys, s': Sys, key: Key)
    requires ReadersFit(s.readers, s.readbacks, s.ledger.operations, s.widest) && OneRow(s.ledger, key, s'.ledger)
    requires s'.readers.Keys == s.readers.Keys
    requires s'.readbacks == s.readbacks && s.widest <= s'.widest
    requires key in s.ledger.operations ==> s'.ledger.operations[key].readbacks == s.ledger.operations[key].readbacks
    ensures ReadersFit(s'.readers, s'.readbacks, s'.ledger.operations, s'.widest)
  {
    hide RowForward;
  }

  lemma HonestOther(s: Sys, s': Sys, key: Key, k: Key)
    requires k in s.ledger.operations && HonestRow(s, k) && k != key && OneRow(s.ledger, key, s'.ledger)
    requires s.observed <= s'.observed && CallsSettle(s.calls, s'.calls)
    ensures HonestRow(s', k)
  {
    assert s'.ledger.operations[k] == s.ledger.operations[k];
    EvidenceStays(s, s', k, s.ledger.operations[k], s'.ledger.operations[k]);
    hide Evidence, LedgerForward;
  }

  lemma EvidenceStays(s: Sys, s': Sys, k: Key, row: Operation, row': Operation)
    requires s.observed <= s'.observed && row'.id == row.id && row'.provider == row.provider
    requires row'.arguments == row.arguments
    ensures Evidence(s.observed, k, row, Applied) ==> Evidence(s'.observed, k, row', Applied)
    ensures Evidence(s.observed, k, row, NotApplied) ==> Evidence(s'.observed, k, row', NotApplied)
  {
  }

  /** A row closed by an observation is honest; so is one failed before its worker could ask. */
  lemma HonestSettled(s: Sys, s': Sys, key: Key, o: Option<Observation>)
    requires key in s.ledger.operations && key in s'.ledger.operations && HonestRow(s, key)
    requires RowForward(s.ledger.operations[key], s'.ledger.operations[key])
    requires s.observed <= s'.observed && CallsSettle(s.calls, s'.calls)
    requires var row, row' := s.ledger.operations[key], s'.ledger.operations[key];
      || (Settled(row, o, row') && (o.Some? ==> (key, o.value) in s'.observed))
      || (row'.state.Failed? && !row'.reason.TerminalConflict? && NeverAsked(s'.calls, key))
    ensures HonestRow(s', key)
  {
    var row, row' := s.ledger.operations[key], s'.ledger.operations[key];
    EvidenceStays(s, s', key, row, row');
    if o.Some? && (key, o.value) in s'.observed && Bound(row, o.value) && o.value.terminal {
      assert o.value.disposition.Applied? ==> Evidence(s'.observed, key, row', Applied);
      assert o.value.disposition.NotApplied? ==> Evidence(s'.observed, key, row', NotApplied);
    }
    hide Evidence;
  }

  /** A step that closes, or leaves, one reserved operation keeps every invariant. */
  lemma SettleStep(s: Sys, s': Sys, key: Key, o: Option<Observation>)
    requires Inv(s) && key in s.ledger.operations && LedgerFit(s'.ledger) && OneRow(s.ledger, key, s'.ledger)
    requires CallsSettle(s.calls, s'.calls) && s'.effects == s.effects && s.observed <= s'.observed
    requires s'.readers.Keys == s.readers.Keys && s'.readbacks == s.readbacks && s.widest <= s'.widest
    requires key in s'.ledger.operations && s'.ledger.operations[key].readbacks == s.ledger.operations[key].readbacks
    requires var row, row' := s.ledger.operations[key], s'.ledger.operations[key];
      || (Settled(row, o, row') && (o.Some? ==> (key, o.value) in s'.observed))
      || (row'.state.Failed? && !row'.reason.TerminalConflict? && NeverAsked(s'.calls, key))
    ensures Inv(s')
  {
    hide LedgerFit, Settled, NeverAsked, HonestRow, RowForward;
    CallsSettleFit(s.calls, s'.calls, s.ledger, s'.ledger, key);
    EffectsSettleFit(s.effects, s.calls, s'.calls);
    hide EffectsFit, CallsFit, CallsSettle;
    ReadersMove(s, s', key);
    hide ReadersFit;
    HonestSettled(s, s', key, o);
    forall k | k in s'.ledger.operations ensures HonestRow(s', k) {
      if k != key { HonestOther(s, s', key, k); }
    }
  }

  /** Closing transactions never touch the readback budget. */
  lemma CloseKeepsBudget(l: Ledger, key: Key, outcome: Outcome, now: int)
    requires key in l.operations
    ensures var x := Close(l, key, outcome, now);
      key in x.ledger.operations && x.ledger.operations[key].readbacks == l.operations[key].readbacks
    ensures var x := CloseReadback(l, key, outcome, now);
      key in x.ledger.operations && x.ledger.operations[key].readbacks == l.operations[key].readbacks
  {
    hide ValidObservation, Contradicts;
  }
}
