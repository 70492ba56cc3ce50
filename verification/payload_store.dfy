/**
 * The encrypted payload store as it runs: tables updated statement by statement inside a transaction, put back when it
 * raises. Each method is one entry point of capability_payload_store.py, proved against its function.
 */
module PayloadStore {
  import opened Base
  import opened Sealing
  import opened PayloadVault

  function ErrorOf(x: Tx): Option<Code> {
    match x
    case Done(_, _) => None
    case Raised(_, code) => Some(code)
  }

  function ClaimIn(x: Tx): Option<Claim> {
    match x
    case Done(_, claim) => claim
    case Raised(_, _) => None
  }

  class EncryptedCapabilityPayloadStore {
    const config: Config
    var operations: map<string, Row>
    var revoked: map<string, int>
    var events: seq<Event>

    function View(): Tables
      reads this
    {
      Tables(operations, revoked, events)
    }

    constructor (config: Config)
      ensures this.config == config && View() == EMPTY
    {
      this.config := config;
      operations, revoked, events := map[], map[], [];
    }

    method Rollback(saved: Tables)
      modifies this
      ensures View() == saved
    {
      operations, revoked, events := saved.operations, saved.revoked, saved.events;
    }

    method Log(operation: string, kind: Kind, generation: nat, at: int)
      modifies this`events
      ensures events == old(events) + [Event(operation, kind, generation, at)]
    {
      events := events + [Event(operation, kind, generation, at)];
    }

    method Prepare(q: Intent, sealing: Sealing, now: int) returns (error: Option<Code>)
      modifies this
      ensures var x := PayloadVault.Prepare(config, old(View()), q, sealing, now);
        View() == x.tables && error == ErrorOf(x)
    {
      hide Name, Hex, Snapshot, DigestOf, Seal;
      if !Name(q.operation) || !Name(q.key) || !Name(q.subject) || !Name(q.provider) { return Some(BindingInvalid); }
      if !Hex(q.lease) { return Some(DigestInvalid); }
      var taken := Snapshot(config, q.payload);
      if taken.Err? { return Some(taken.code); }
      var argument := DigestOf(config, taken.value.0);
      if argument.Err? { return Some(argument.code); }
      var identity := Idempotency(q.subject, q.key);
      var fingerprint := Fingerprint(q.operation, q.subject, q.provider, argument.value, q.lease, q.deadline);
      if !Timestamp(now) { return Some(ClockInvalid); }
      if !(now < q.deadline <= 253402300799) { return Some(DeadlineInvalid); }
      if q.subject in revoked { return Some(SubjectIsRevoked); }
      if exists o :: o in operations && operations[o].idempotency == identity {
        if exists o ::
             && o in operations && operations[o].idempotency == identity
             && operations[o].fingerprint == fingerprint {
          return None;
        }
        return Some(IdempotencyConflict);
      }
      if |operations| >= config.maxOperations { return Some(CapacityExhausted); }
      var sealed :=
        Seal(config, q.subject, taken.value.1, Aad(q.operation, q.subject, q.provider, argument.value, 1, q.deadline),
             sealing);
      if sealed.Err? { return Some(sealed.code); }
      if sealed.value == "" { return Some(EncryptFailed); }
      if q.operation in operations { return Some(IntegrityError); }
      SealedKey(config, q.subject, taken.value.1,
                Aad(q.operation, q.subject, q.provider, argument.value, 1, q.deadline), sealing);
      operations :=
        operations[q.operation :=
          Row(identity, fingerprint, q.subject, q.provider, argument.value, q.lease, sealing.keyId.value, sealed.value,
              Digest(sealed.value), Prepared, 1, 0, q.deadline, None, now, now)];
      Log(q.operation, WasPrepared, 1, now);
      error := None;
    }

    method ClaimDispatch(operation: string, subject: string, lease: string, authority: Authority, sealing: Sealing,
                         now: int)
      returns (error: Option<Code>, claim: Option<Claim>)
      modifies this
      ensures var x :=
        PayloadVault.ClaimDispatch(config, old(View()), operation, subject, lease, authority, sealing, now);
        View() == x.tables && error == ErrorOf(x) && claim == ClaimIn(x)
    {
      hide Name, Hex, Decode, Seal;
      claim := None;
      var saved := View();
      if !Name(operation) || !Name(subject) { return Some(BindingInvalid), None; }
      if !Hex(lease) { return Some(DigestInvalid), None; }
      if !Timestamp(now) { return Some(ClockInvalid), None; }
      if operation !in operations || operations[operation].subject != subject { return Some(UnknownOperation), None; }
      var row := operations[operation];
      if !row.state.Prepared? { return Some(NotDispatchable), None; }
      if row.deadline <= now {
        operations := operations[operation := row.(state := Denied, updated := now)];
        Log(operation, DeadlineDenied, row.generation, now);
        Rollback(saved);
        return Some(Expired), None;
      }
      if row.lease != lease || subject in revoked { return Some(AuthorityDenied), None; }
      if !authority.before { return Some(Unauthorized), None; }
      var payload := Decode(config, operation, row);
      if payload.Err? { return Some(payload.code), None; }
      var raw := config.codec.dumps(payload.value);
      if raw.None? { return Some(PayloadInvalid), None; }
      var next := row.(state := Dispatching, generation := row.generation + 1, updated := now);
      var sealed := Seal(config, subject, raw.value, AadOf(operation, next), sealing);
      if sealed.Err? { return Some(sealed.code), None; }
      SealedKey(config, subject, raw.value, AadOf(operation, next), sealing);
      next := next.(keyId := sealing.keyId.value, ciphertext := sealed.value, digest := Digest(sealed.value));
      operations := operations[operation := next];
      Log(operation, DispatchClaimed, next.generation, now);
      if !authority.after {
        Rollback(saved);
        return Some(Unauthorized), None;
      }
      error, claim := None, Some(ClaimOf(operation, next, payload.value));
    }

    method MarkIndeterminate(operation: string, generation: int, now: int) returns (error: Option<Code>)
      modifies this
      ensures var x := PayloadVault.MarkIndeterminate(old(View()), operation, generation, now);
        View() == x.tables && error == ErrorOf(x)
    {
      hide Name;
      if !Name(operation) { return Some(BindingInvalid); }
      if generation < 1 { return Some(GenerationInvalid); }
      if !Timestamp(now) { return Some(ClockInvalid); }
      if operation !in operations || operations[operation].generation != generation
        || !operations[operation].state.Dispatching? {
        return Some(StateConflict);
      }
      operations := operations[operation := operations[operation].(state := Indeterminate, updated := now)];
      Log(operation, MarkedIndeterminate, generation, now);
      error := None;
    }

    method ClaimReadback(operation: string, subject: string, authority: Authority, now: int)
      returns (error: Option<Code>, claim: Option<Claim>)
      modifies this
      ensures var x := PayloadVault.ClaimReadback(config, old(View()), operation, subject, authority, now);
        View() == x.tables && error == ErrorOf(x) && claim == ClaimIn(x)
    {
      hide Name, Decode;
      claim := None;
      var saved := View();
      if !Name(operation) || !Name(subject) { return Some(BindingInvalid), None; }
      if !Timestamp(now) { return Some(ClockInvalid), None; }
      if operation !in operations || operations[operation].subject != subject { return Some(NotRecoverable), None; }
      var row := operations[operation];
      if !row.state.Dispatching? && !row.state.Indeterminate? { return Some(NotRecoverable), None; }
      if row.readbacks >= config.maxReadbacks { return Some(ReadbackExhausted), None; }
      if subject in revoked { return Some(SubjectIsRevoked), None; }
      if !authority.before { return Some(Unauthorized), None; }
      var payload := Decode(config, operation, row);
      if payload.Err? { return Some(payload.code), None; }
      operations := operations[operation := row.(readbacks := row.readbacks + 1, updated := now)];
      Log(operation, ReadbackClaimed, row.generation, now);
      if !authority.after {
        Rollback(saved);
        return Some(Unauthorized), None;
      }
      error, claim := None, Some(ClaimOf(operation, row, payload.value));
    }

    method CommitObservation(report: Report, now: int) returns (error: Option<Code>)
      modifies this
      ensures var x := PayloadVault.CommitObservation(old(View()), report, now);
        View() == x.tables && error == ErrorOf(x)
    {
      hide Name;
      if !Name(report.operation) || !Name(report.provider) { return Some(BindingInvalid); }
      if report.argument.None? { return Some(DigestInvalid); }
      if report.generation < 1 || report.disposition.Unrecognized?
        || (report.external.Some? && !Name(report.external.value)) {
        return Some(ObservationInvalid);
      }
      if !Timestamp(now) { return Some(ClockInvalid); }
      if report.operation !in operations { return Some(ObservationConflict); }
      var row := operations[report.operation];
      if row.generation != report.generation || row.provider != report.provider || row.argument != report.argument.value
         || (!row.state.Dispatching? && !row.state.Indeterminate?) {
        return Some(ObservationConflict);
      }
      var state := After(report);
      operations := operations[report.operation := row.(state := state, external := report.external, updated := now)];
      Log(report.operation, Observed(state), row.generation, now);
      error := None;
    }

    /** revoke_subject: the rows are selected first, closed together, then logged one by one. */
    method RevokeSubject(subject: string, listing: seq<string>, now: int) returns (error: Option<Code>)
      modifies this
      ensures var x := PayloadVault.RevokeSubject(old(View()), subject, listing, now);
        View() == x.tables && error == ErrorOf(x)
    {
      hide Name;
      if !Name(subject) { return Some(BindingInvalid); }
      if !Timestamp(now) { return Some(ClockInvalid); }
      if subject !in revoked { revoked := revoked[subject := now]; }
      var rows, logged := operations, events;
      operations := RevokeRows(operations, subject, now);
      for n := 0 to |listing|
        invariant events == logged + RevokeEvents(rows, subject, listing[..n], now)
        invariant operations == RevokeRows(rows, subject, now) && revoked == if subject in old(revoked)
          then old(revoked) else old(revoked)[subject := now]
      {
        assert listing[..n + 1][..n] == listing[..n];
        if Revocable(rows, subject, listing[n]) { Log(listing[n], SubjectRevoked, rows[listing[n]].generation, now); }
      }
      assert listing[..|listing|] == listing;
      error := None;
    }
  }

  lemma SealedKey(c: Config, subject: string, text: string, aad: Aad, sealing: Sealing)
    requires Seal(c, subject, text, aad, sealing).Ok?
    ensures sealing.keyId.Some?
  {
    hide Name;
  }
}
