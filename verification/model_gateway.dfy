/**
 * The production model gateway as it runs: registry tables updated statement by statement inside a transaction, put
 * back when it raises. Each method is one transaction of production.py, proved against its function.
 */
module ModelGateway {
  import opened Base
  import opened JsonBounds
  import opened ModelRegistry

  function ErrorOf(x: Tx): Option<Code> {
    match x
    case Done(_) => None
    case Raised(_, code) => Some(code)
  }

  class ProductionModelGateway {
    const policy: Policy
    var rows: map<Key, Row>
    var sessions: set<Session>
    var cancellations: set<Key>
    var last: int
    var suspended: bool
    var events: seq<Event>

    function View(): Registry
      reads this
    {
      Registry(rows, sessions, cancellations, last, suspended, events)
    }

    constructor (policy: Policy, now: int)
      ensures this.policy == policy && View() == Registry(map[], {}, {}, now, false, [])
    {
      this.policy := policy;
      rows, sessions, cancellations, last, suspended, events := map[], {}, {}, now, false, [];
    }

    method Rollback(saved: Registry)
      modifies this
      ensures View() == saved
    {
      rows, sessions, cancellations := saved.rows, saved.sessions, saved.cancellations;
      last, suspended, events := saved.last, saved.suspended, saved.events;
    }

    method Log(kind: Kind, about: Subject, at: int)
      modifies this`events
      ensures events == old(events) + [Event(kind, about, at)]
    {
      events := events + [Event(kind, about, at)];
    }

    /** The second half of _transaction: check the clock again and keep it, or put everything back. */
    method Finish(saved: Registry, expires: int, t: Reading) returns (error: Option<Code>)
      modifies this
      ensures var x := Ending(saved, old(View()), expires, t); View() == x.registry && error == ErrorOf(x)
    {
      error :=
        if !Timestamp(t.final) then Some(ClockInvalid)
        else if t.final < t.now then Some(ClockRollback)
        else if t.final >= expires then Some(AuthorityExpired)
        else if t.late then Some(DeadlineExpired)
        else None;
      if error.Some? { Rollback(saved); } else { last := t.final; }
    }

    /** _authority. */
    function Authority(key: Key, session: string, expires: int, now: int): Option<Code>
      reads this
    {
      AuthorityFault(View(), key, session, expires, now)
    }

    /** execute up to the commit of its claim. */
    method Execute(ask: Ask, bound: bool, claim: string, t: Reading) returns (error: Option<Code>)
      modifies this
      ensures var x := Reserve(policy, old(View()), ask, bound, claim, t); View() == x.registry && error == ErrorOf(x)
    {
      hide AskFault, ContextFault, OfDay, Name, Ceiling, IsDenied, Ending;
      error := AskFault(policy, ask, bound);
      if error.Some? { return; }
      error := ClockFault(View(), t.now);
      if error.Some? { return; }
      var key, saved := KeyOf(ask), View();
      error := Authority(key, ask.session, ask.expires, t.now);
      if error.Some? { return; }
      if ask.expires - t.now > 300 { return Some(LifetimeInvalid); }
      var until := t.now + Ceiling(ask.timeout) + 1;
      if ask.expires <= until { until := ask.expires; }
      var material := FingerprintOf(policy, ask);
      if key in rows {
        var row := rows[key];
        if row.fingerprint != material { return Some(IdempotencyConflict); }
        if row.state.Committed? { return Some(DuplicateCommitted); }
        if row.state.Cancelled? { return Some(DeliveryRevoked); }
        if row.until > t.now { return Some(RequestInProgress); }
        if row.readbacks >= policy.readbacks { return Some(ReadbackExhausted); }
        rows := rows[key :=
          row.(state := Indeterminate, claim := claim, until := until, readbacks := row.readbacks + 1)];
        Log(ReadbackReserved, ForRequest(RequestKey(key, material)), t.now);
      } else {
        if |rows| >= policy.entries { return Some(CapacityExhausted); }
        var day := t.now / 86400;
        if |OfDay(rows, ask.subject, day)| >= policy.daily { return Some(QuotaExhausted); }
        rows := rows[key := Row(material, ask.session, day, Prepared, ask.expires, claim, until, 0, None)];
        Log(DispatchReserved, ForRequest(RequestKey(key, material)), t.now);
      }
      error := Finish(saved, ask.expires, t);
    }

    /** authorize, which the worker calls before the provider. */
    method Authorize(request: RequestKey, claim: string, bound: bool, t: Reading) returns (error: Option<Code>)
      modifies this
      ensures var x := ModelRegistry.Authorize(old(View()), request, claim, bound, t);
        View() == x.registry && error == ErrorOf(x)
    {
      hide IsDenied, Ending;
      var saved := View();
      error := ClockFault(View(), t.now);
      if error.Some? { return; }
      if !bound { return Some(ProviderMismatch); }
      error := Authority(request.key, request.fingerprint.session, request.fingerprint.expires, t.now);
      if error.Some? { return; }
      if !Current(View(), request, claim) { return Some(AttemptFenced); }
      error := Finish(saved, request.fingerprint.expires, t);
    }

    /** _uncertain. */
    method Uncertain(request: RequestKey, claim: string, release: bool)
      modifies this`rows
      ensures View() == ModelRegistry.Uncertain(old(View()), request, claim, release)
    {
      if Current(View(), request, claim) {
        var row := rows[request.key];
        rows := rows[request.key := row.(state := Indeterminate, until := if release then 0 else row.until)];
      }
    }

    /** _commit. */
    method Commit(request: RequestKey, claim: string, result: ProviderResult, bound: bool,
                  t: Reading) returns (error: Option<Code>)
      modifies this
      ensures var x := ModelRegistry.Commit(old(View()), request, claim, result, bound, t);
        View() == x.registry && error == ErrorOf(x)
    {
      hide IsDenied, Ending, ResultFault;
      error := ResultFault(request, result);
      if error.Some? { return; }
      if request.key !in rows || rows[request.key].fingerprint != request.fingerprint { return Some(AttemptFenced); }
      var expires, saved := rows[request.key].expires, View();
      error := ClockFault(View(), t.now);
      if error.Some? { return; }
      if !bound { return Some(ProviderMismatch); }
      if !Current(View(), request, claim) { return Some(AttemptFenced); }
      var row := rows[request.key];
      error := Authority(request.key, row.session, row.expires, t.now);
      if error.Some? { return; }
      ResultWhole(request, result);
      rows := rows[request.key :=
        row.(state := Committed, until := 0, answer := Some(Answer(result.answer, result.request, result.receipt)))];
      Log(AnswerCommitted, ForRequest(request), t.now);
      error := Finish(saved, expires, t);
    }

    /** _deny: the tombstone or the suspension, then the open requests it names. */
    method Deny(target: Target) returns (error: Option<Code>)
      modifies this
      ensures var x := ModelRegistry.Deny(policy, old(View()), target); View() == x.registry && error == ErrorOf(x)
    {
      hide Name;
      if !ValidTarget(target) { return Some(BindingInvalid); }
      if Tombstoned(View(), target) { return None; }
      if |sessions| + |cancellations| >= policy.entries {
        if !suspended {
          suspended := true;
          Log(RegistrySuspended, ForNone, last);
        }
      } else {
        match target
        case OneSession(s) =>
          sessions := sessions + {s};
          Log(SessionRevoked, ForSession(s), last);
        case OneRequest(k) =>
          cancellations := cancellations + {k};
          Log(RequestCancelled, ForKey(k), last);
      }
      rows := CancelRows(rows, target);
      error := None;
    }
  }

  lemma ResultWhole(request: RequestKey, result: ProviderResult)
    requires ResultFault(request, result).None?
    ensures result.ProviderResult?
  {
    hide Name, Blank;
  }
}
