/**
 * The encrypted capability payload store's tables and transactions, one function for each.
 *
 * The cipher and the JSON codec are parameters; what is asked of them is in Lawful. Digests are injective: a digest is
 * the text it digests.
 */
module PayloadVault {
  import opened Base
  import opened JsonBounds
  import opened Sealing

  datatype Aad = Aad(operation: string, subject: string, provider: string, argument: Digest, generation: nat,
                     deadline: int)
  datatype Digest = Digest(text: string)

  /** dumps is the canonical serialization; None is an exception. */
  datatype Codec = Codec(dumps: Json -> Option<string>, loads: string -> Option<Json>)

  /** What was parsed from a serialization serializes again, and parses to itself. */
  ghost predicate LawfulCodec(j: Codec) {
    forall text :: j.loads(text).Some? && (exists v :: j.dumps(v) == Some(text)) ==>
      var w := j.loads(text).value; j.dumps(w).Some? && j.loads(j.dumps(w).value) == Some(w)
  }

  datatype Config = Config(cipher: Cipher<Aad>, codec: Codec, maxOperations: nat, maxBytes: nat, maxReadbacks: nat)

  ghost predicate Lawful(c: Config) {
    LawfulCipher(c.cipher) && LawfulCodec(c.codec)
  }

  datatype State = Prepared | Dispatching | Indeterminate | Applied | NotApplied | Denied | Quarantined | Revoked
  datatype Idempotency = Idempotency(subject: string, key: string)
  datatype Fingerprint = Fingerprint(operation: string, subject: string, provider: string, argument: Digest,
                                     lease: string, deadline: int)

  datatype Row = Row(idempotency: Idempotency, fingerprint: Fingerprint, subject: string, provider: string,
                     argument: Digest, lease: string, keyId: string, ciphertext: string, digest: Digest, state: State,
                     generation: nat, readbacks: nat, deadline: int, external: Option<string>, created: int,
                     updated: int)

  datatype Kind = WasPrepared | DeadlineDenied | DispatchClaimed | MarkedIndeterminate | ReadbackClaimed
    | Observed(state: State) | SubjectRevoked
  datatype Event = Event(operation: string, kind: Kind, generation: nat, at: int)

  datatype Tables = Tables(operations: map<string, Row>, revoked: map<string, int>, events: seq<Event>)

  datatype Claim = Claim(operation: string, subject: string, provider: string, argument: Digest, generation: nat,
                         deadline: int, payload: Json)

  datatype Code =
    | BindingInvalid | DigestInvalid | PayloadInvalid | DeadlineInvalid | SubjectIsRevoked | IdempotencyConflict
    | CapacityExhausted | KeyIdInvalid | EncryptFailed | IntegrityError | ClockInvalid | UnknownOperation
    | NotDispatchable | Expired | AuthorityDenied | Unauthorized | DecryptFailed | IntegrityInvalid | GenerationInvalid
    | StateConflict | NotRecoverable | ReadbackExhausted | ObservationInvalid | ObservationConflict

  datatype Tx = Done(tables: Tables, claim: Option<Claim>) | Raised(tables: Tables, code: Code)

  datatype Result<T> = Ok(value: T) | Err(code: Code)

  const EMPTY := Tables(map[], map[], [])

  predicate Name(s: string) {
    Label(s, 256)
  }

  /** States a payload may still leave. */
  predicate Open(state: State) {
    state.Prepared? || state.Dispatching? || state.Indeterminate?
  }

  // ----- payloads -----

  /** _payload: the snapshot read back from the canonical text, and that text. */
  function Snapshot(c: Config, payload: Json): Result<(Json, string)> {
    if !payload.Obj? || payload.fields == [] then Err(PayloadInvalid) else
    var raw := c.codec.dumps(payload);
    if raw.None? then Err(PayloadInvalid) else
    var decoded := c.codec.loads(raw.value);
    if decoded.None? || !decoded.value.Obj? || Utf8Length(raw.value) > c.maxBytes then Err(PayloadInvalid) else
    Ok((decoded.value, raw.value))
  }

  /** canonical_digest. */
  function DigestOf(c: Config, value: Json): Result<Digest> {
    var raw := c.codec.dumps(value);
    if raw.None? then Err(PayloadInvalid) else Ok(Digest(raw.value))
  }

  function AadOf(operation: string, row: Row): Aad {
    Aad(operation, row.subject, row.provider, row.argument, row.generation, row.deadline)
  }

  /** _decode: the payload a row holds, checked against both digests. */
  function Decode(c: Config, operation: string, row: Row): Result<Json> {
    if Digest(row.ciphertext) != row.digest then Err(IntegrityInvalid) else
    var raw := c.cipher.decrypt(row.subject, row.keyId, row.ciphertext, AadOf(operation, row));
    if raw.None? then Err(DecryptFailed) else
    var value := c.codec.loads(raw.value);
    if value.None? then Err(DecryptFailed)
    else if !value.value.Obj? then Err(IntegrityInvalid)
    else if DigestOf(c, value.value).Err? then Err(DigestOf(c, value.value).code)
    else if DigestOf(c, value.value).value != row.argument then Err(IntegrityInvalid)
    else Ok(value.value)
  }

  function Seal(c: Config, subject: string, text: string, aad: Aad, sealing: Sealing): Result<string> {
    if sealing.keyId.None? then Err(EncryptFailed)
    else if !Name(sealing.keyId.value) then Err(KeyIdInvalid)
    else
      var sealed := c.cipher.encrypt(subject, sealing.keyId.value, text, aad, sealing.nonce);
      if sealed.None? then Err(EncryptFailed) else Ok(sealed.value)
  }

  // ----- transactions -----

  datatype Intent = Intent(operation: string, key: string, subject: string, provider: string, payload: Json,
                           lease: string, deadline: int)

  function Prepare(c: Config, t: Tables, q: Intent, sealing: Sealing, now: int): Tx {
    if !Name(q.operation) || !Name(q.key) || !Name(q.subject) || !Name(q.provider) then Raised(t, BindingInvalid)
    else if !Hex(q.lease) then Raised(t, DigestInvalid)
    else if Snapshot(c, q.payload).Err? then Raised(t, Snapshot(c, q.payload).code)
    else
      var (snapshot, raw) := Snapshot(c, q.payload).value;
      if DigestOf(c, snapshot).Err? then Raised(t, DigestOf(c, snapshot).code) else
      var argument := DigestOf(c, snapshot).value;
      var fingerprint := Fingerprint(q.operation, q.subject, q.provider, argument, q.lease, q.deadline);
      if !Timestamp(now) then Raised(t, ClockInvalid)
      else if !(now < q.deadline <= 253402300799) then Raised(t, DeadlineInvalid)
      else if q.subject in t.revoked then Raised(t, SubjectIsRevoked)
      else if exists o :: o in t.operations && t.operations[o].idempotency == Idempotency(q.subject, q.key) then
        if exists o ::
             && o in t.operations && t.operations[o].idempotency == Idempotency(q.subject, q.key)
             && t.operations[o].fingerprint == fingerprint
        then Done(t, None) else Raised(t, IdempotencyConflict)
      else if |t.operations| >= c.maxOperations then Raised(t, CapacityExhausted)
      else
        var sealed :=
          Seal(c, q.subject, raw, Aad(q.operation, q.subject, q.provider, argument, 1, q.deadline), sealing);
        if sealed.Err? then Raised(t, sealed.code)
        else if sealed.value == "" then Raised(t, EncryptFailed)
        else if q.operation in t.operations then Raised(t, IntegrityError)
        else
          var row :=
            Row(Idempotency(q.subject, q.key), fingerprint, q.subject, q.provider, argument, q.lease,
                sealing.keyId.value, sealed.value, Digest(sealed.value), Prepared, 1, 0, q.deadline, None, now, now);
          Done(Tables(t.operations[q.operation := row], t.revoked,
                      t.events + [Event(q.operation, WasPrepared, 1, now)]), None)
  }

  /** Whether each of the two calls of the caller's authorize returns. */
  datatype Authority = Authority(before: bool, after: bool)

  function ClaimOf(operation: string, row: Row, payload: Json): Claim {
    Claim(operation, row.subject, row.provider, row.argument, row.generation, row.deadline, payload)
  }

  /** claim_dispatch. The denied state it writes for an expired row goes with the rollback. */
  function ClaimDispatch(c: Config, t: Tables, operation: string, subject: string, lease: string, authority: Authority,
                         sealing: Sealing, now: int): Tx {
    if !Name(operation) || !Name(subject) then Raised(t, BindingInvalid)
    else if !Hex(lease) then Raised(t, DigestInvalid)
    else if !Timestamp(now) then Raised(t, ClockInvalid)
    else if operation !in t.operations || t.operations[operation].subject != subject then Raised(t, UnknownOperation)
    else
      var row := t.operations[operation];
      if !row.state.Prepared? then Raised(t, NotDispatchable)
      else if row.deadline <= now then Raised(t, Expired)
      else if row.lease != lease || subject in t.revoked then Raised(t, AuthorityDenied)
      else if !authority.before then Raised(t, Unauthorized)
      else if Decode(c, operation, row).Err? then Raised(t, Decode(c, operation, row).code)
      else
        var payload := Decode(c, operation, row).value;
        if c.codec.dumps(payload).None? then Raised(t, PayloadInvalid) else
        var next := row.(state := Dispatching, generation := row.generation + 1, updated := now);
        var sealed := Seal(c, subject, c.codec.dumps(payload).value, AadOf(operation, next), sealing);
        if sealed.Err? then Raised(t, sealed.code)
        else if !authority.after then Raised(t, Unauthorized)
        else
          var row' := next.(keyId := sealing.keyId.value, ciphertext := sealed.value, digest := Digest(sealed.value));
          Done(t.(operations := t.operations[operation := row'],
                  events := t.events + [Event(operation, DispatchClaimed, row'.generation, now)]),
                  Some(ClaimOf(operation, row', payload)))
  }

  function MarkIndeterminate(t: Tables, operation: string, generation: int, now: int): Tx {
    if !Name(operation) then Raised(t, BindingInvalid)
    else if generation < 1 then Raised(t, GenerationInvalid)
    else if !Timestamp(now) then Raised(t, ClockInvalid)
    else if operation !in t.operations || t.operations[operation].generation != generation
      || !t.operations[operation].state.Dispatching?
    then Raised(t, StateConflict)
    else Done(t.(operations :=
      t.operations[operation := t.operations[operation].(state := Indeterminate, updated := now)],
        events := t.events + [Event(operation, MarkedIndeterminate, generation, now)]), None)
  }

  function ClaimReadback(c: Config, t: Tables, operation: string, subject: string, authority: Authority, now: int): Tx {
    if !Name(operation) || !Name(subject) then Raised(t, BindingInvalid)
    else if !Timestamp(now) then Raised(t, ClockInvalid)
    else if operation !in t.operations || t.operations[operation].subject != subject then Raised(t, NotRecoverable)
    else
      var row := t.operations[operation];
      if !row.state.Dispatching? && !row.state.Indeterminate? then Raised(t, NotRecoverable)
      else if row.readbacks >= c.maxReadbacks then Raised(t, ReadbackExhausted)
      else if subject in t.revoked then Raised(t, SubjectIsRevoked)
      else if !authority.before then Raised(t, Unauthorized)
      else if Decode(c, operation, row).Err? then Raised(t, Decode(c, operation, row).code)
      else if !authority.after then Raised(t, Unauthorized)
      else
        var row' := row.(readbacks := row.readbacks + 1, updated := now);
        Done(t.(operations := t.operations[operation := row'],
                events := t.events + [Event(operation, ReadbackClaimed, row.generation, now)]),
                Some(ClaimOf(operation, row, Decode(c, operation, row).value)))
  }

  datatype Disposition = WasApplied | WasNotApplied | WasUnknown | WasDenied | Unrecognized
  datatype Report = Report(operation: string, generation: int, provider: string, argument: Option<Digest>,
                           disposition: Disposition, terminal: bool, external: Option<string>)

  function After(report: Report): State {
    if report.disposition.WasUnknown? || !report.terminal then Indeterminate
    else match report.disposition
      case WasApplied => Applied
      case WasNotApplied => NotApplied
      case WasDenied => Denied
      case _ => Quarantined
  }

  function CommitObservation(t: Tables, o: Report, now: int): Tx {
    if !Name(o.operation) || !Name(o.provider) then Raised(t, BindingInvalid)
    else if o.argument.None? then Raised(t, DigestInvalid)
    else if o.generation < 1 || o.disposition.Unrecognized? || (o.external.Some? && !Name(o.external.value))
      then Raised(t, ObservationInvalid)
    else if !Timestamp(now) then Raised(t, ClockInvalid)
    else if o.operation !in t.operations then Raised(t, ObservationConflict)
    else
      var row := t.operations[o.operation];
      if row.generation != o.generation || row.provider != o.provider || row.argument != o.argument.value
         || (!row.state.Dispatching? && !row.state.Indeterminate?)
      then Raised(t, ObservationConflict)
      else Done(t.(operations :=
        t.operations[o.operation := row.(state := After(o), external := o.external, updated := now)],
          events := t.events + [Event(o.operation, Observed(After(o)), row.generation, now)]), None)
  }

  predicate Revocable(rows: map<string, Row>, subject: string, operation: string) {
    operation in rows && rows[operation].subject == subject && Open(rows[operation].state)
  }

  function RevokeRows(rows: map<string, Row>, subject: string, now: int): map<string, Row> {
    map o | o in rows :: if Revocable(rows, subject, o) then rows[o].(state := Revoked, updated := now) else rows[o]
  }

  /** The events of a revocation, in the order the database lists the rows it selected. */
  function RevokeEvents(rows: map<string, Row>, subject: string, listing: seq<string>, now: int): seq<Event> {
    if listing == [] then [] else
    var init, o := listing[..|listing| - 1], listing[|listing| - 1];
    RevokeEvents(rows, subject, init, now)
      + (if Revocable(rows, subject, o) then [Event(o, SubjectRevoked, rows[o].generation, now)] else [])
  }

  /** revoke_subject; a first revocation's time is kept. */
  function RevokeSubject(t: Tables, subject: string, listing: seq<string>, now: int): Tx {
    if !Name(subject) then Raised(t, BindingInvalid)
    else if !Timestamp(now) then Raised(t, ClockInvalid)
    else Done(Tables(RevokeRows(t.operations, subject, now),
                     if subject in t.revoked then t.revoked else t.revoked[subject := now],
                     t.events + RevokeEvents(t.operations, subject, listing, now)), None)
  }
}
