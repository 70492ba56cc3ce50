/** Whole runs of the encrypted payload store, and what every one promises about the payloads it hands back. */
module PayloadRuns {
  import opened Base
  import opened JsonBounds
  import opened Sealing
  import opened PayloadVault

  /** given is the payload each operation was prepared with; dispatches and readbacks are the claims handed out. */
  datatype System = System(config: Config, tables: Tables, given: map<string, Json>, dispatches: seq<Claim>,
                           readbacks: seq<Claim>)

  datatype Step =
    | DoPrepare(q: Intent, sealing: Sealing, now: int)
    | DoClaim(operation: string, subject: string, lease: string, authority: Authority, sealing: Sealing, now: int)
    | DoMark(operation: string, generation: int, now: int)
    | DoReadback(operation: string, subject: string, authority: Authority, now: int)
    | DoObserve(report: Report, now: int)
    | DoRevoke(subject: string, listing: seq<string>, now: int)

  function Claimed(x: Tx): seq<Claim> {
    if x.Done? && x.claim.Some? then [x.claim.value] else []
  }

  function Next(s: System, step: Step): System {
    match step
    case DoPrepare(q, sealing, now) =>
      var x := Prepare(s.config, s.tables, q, sealing, now);
      s.(tables := x.tables,
         given := if q.operation in x.tables.operations && q.operation !in s.given
           then s.given[q.operation := q.payload] else s.given)
    case DoClaim(operation, subject, lease, authority, sealing, now) =>
      var x := ClaimDispatch(s.config, s.tables, operation, subject, lease, authority, sealing, now);
      s.(tables := x.tables, dispatches := s.dispatches + Claimed(x))
    case DoMark(operation, generation, now) =>
      s.(tables := MarkIndeterminate(s.tables, operation, generation, now).tables)
    case DoReadback(operation, subject, authority, now) =>
      var x := ClaimReadback(s.config, s.tables, operation, subject, authority, now);
      s.(tables := x.tables, readbacks := s.readbacks + Claimed(x))
    case DoObserve(report, now) => s.(tables := CommitObservation(s.tables, report, now).tables)
    case DoRevoke(subject, listing, now) => s.(tables := RevokeSubject(s.tables, subject, listing, now).tables)
  }

  function Run(s: System, steps: seq<Step>): System
    decreases |steps|
  {
    if steps == [] then s else Run(Next(s, steps[0]), steps[1..])
  }

  // ----- the invariant -----

  /** The snapshot prepare takes of a payload it accepts. */
  ghost predicate IsSnapshot(j: Codec, payload: Json, snapshot: Json) {
    j.dumps(payload).Some? && j.loads(j.dumps(payload).value) == Some(snapshot)
  }

  /** What a row says of itself, its payload apart. */
  ghost predicate RowFit(c: Config, operation: string, row: Row) {
    && row.idempotency.subject == row.subject && 1 <= row.generation <= 2 && row.readbacks <= c.maxReadbacks
    && !row.state.Quarantined?
    && (row.generation == 1 <==> row.state.Prepared? || (row.state.Revoked? && row.generation == 1))
    && (row.generation == 1 ==> row.readbacks == 0)
  }

  /** The row decodes to the snapshot of what its operation was given. */
  ghost predicate Readable(c: Config, operation: string, row: Row, payload: Json) {
    var value := Decode(c, operation, row);
    value.Ok? && IsSnapshot(c.codec, payload, value.value)
  }

  ghost predicate RowsFit(c: Config, operations: map<string, Row>, given: map<string, Json>) {
    && given.Keys == operations.Keys
    && (forall o :: o in operations ==> RowFit(c, o, operations[o]) && Readable(c, o, operations[o], given[o]))
  }

  ghost predicate RevokedFit(operations: map<string, Row>, revoked: map<string, int>) {
    forall o :: o in operations && operations[o].subject in revoked ==> !Open(operations[o].state)
  }

  /** An idempotency key names one operation. */
  ghost predicate KeysFit(operations: map<string, Row>) {
    forall o, p :: o in operations && p in operations && operations[o].idempotency == operations[p].idempotency ==>
      o == p
  }

  /** The claim is for an operation, with the snapshot of what it was given. */
  ghost predicate ClaimFit(c: Config, claim: Claim, operations: map<string, Row>, given: map<string, Json>) {
    && claim.operation in operations && claim.operation in given
    && IsSnapshot(c.codec, given[claim.operation], claim.payload)
    && operations[claim.operation].subject == claim.subject && operations[claim.operation].provider == claim.provider
    && operations[claim.operation].argument == claim.argument && operations[claim.operation].deadline == claim.deadline
    && c.codec.dumps(claim.payload) == Some(claim.argument.text) && claim.generation == 2
    && operations[claim.operation].generation == 2
  }

  ghost predicate ClaimsFit(c: Config, claims: seq<Claim>, operations: map<string, Row>, given: map<string, Json>) {
    forall i :: 0 <= i < |claims| ==> ClaimFit(c, claims[i], operations, given)
  }

  /** An operation was claimed for dispatch once if its generation moved on, and otherwise never. */
  ghost predicate DispatchesFit(dispatches: seq<Claim>, operations: map<string, Row>) {
    && (forall i, j :: 0 <= i < j < |dispatches| ==> dispatches[i].operation != dispatches[j].operation)
    && (forall o :: o in operations && operations[o].generation == 2 ==>
      exists i :: 0 <= i < |dispatches| && dispatches[i].operation == o)
  }

  ghost predicate Inv(s: System) {
    && RowsFit(s.config, s.tables.operations, s.given)
    && RevokedFit(s.tables.operations, s.tables.revoked)
    && KeysFit(s.tables.operations)
    && ClaimsFit(s.config, s.dispatches, s.tables.operations, s.given)
    && ClaimsFit(s.config, s.readbacks, s.tables.operations, s.given)
    && DispatchesFit(s.dispatches, s.tables.operations)
  }

  /** How one row moves: identity fixed, generation and readbacks forward, a state that is not open for good. */
  ghost predicate RowForward(row: Row, row': Row) {
    && row'.idempotency == row.idempotency && row'.fingerprint == row.fingerprint && row'.subject == row.subject
    && row'.provider == row.provider
    && row'.argument == row.argument && row'.lease == row.lease && row'.deadline == row.deadline
    && row'.created == row.created
    && row.generation <= row'.generation && row.readbacks <= row'.readbacks
    && (!Open(row.state) ==> row' == row)
    && (row'.state.Prepared? ==> row.state.Prepared?)
  }

  ghost predicate Forward(t: Tables, t': Tables) {
    && (forall o :: o in t.operations ==> o in t'.operations && RowForward(t.operations[o], t'.operations[o]))
    && (forall u :: u in t.revoked ==> u in t'.revoked && t'.revoked[u] == t.revoked[u])
    && |t.events| <= |t'.events| && t'.events[..|t.events|] == t.events
  }

  lemma ForwardTransitive(a: Tables, b: Tables, c: Tables)
    requires Forward(a, b) && Forward(b, c)
    ensures Forward(a, c)
  {
    assert c.events[..|a.events|] == b.events[..|a.events|];
  }

  lemma Resting(t: Tables)
    ensures Forward(t, t)
  {
  }

  // ----- reading and sealing -----

  /** A row sealed with the canonical text of a snapshot decodes to that snapshot. */
  lemma SealedReads(c: Config, operation: string, row: Row, payload: Json, snapshot: Json, text: string,
                    sealing: Sealing)
    requires LawfulCipher(c.cipher) && IsSnapshot(c.codec, payload, snapshot) && snapshot.Obj?
    requires c.codec.loads(text) == Some(snapshot) && DigestOf(c, snapshot) == Ok(row.argument)
    requires Seal(c, row.subject, text, AadOf(operation, row), sealing) == Ok(row.ciphertext)
    requires sealing.keyId == Some(row.keyId)
    requires row.digest == Digest(row.ciphertext)
    ensures Readable(c, operation, row, payload)
  {
    hide LawfulCodec, Name;
    assert c.cipher.encrypt(row.subject, row.keyId, text, AadOf(operation, row), sealing.nonce) == Some(row.ciphertext);
  }

  /** What was read back once serializes, and parses to itself. */
  lemma SnapshotSettles(j: Codec, payload: Json, snapshot: Json)
    requires LawfulCodec(j) && IsSnapshot(j, payload, snapshot)
    ensures j.dumps(snapshot).Some? && j.loads(j.dumps(snapshot).value) == Some(snapshot)
  {
    var text := j.dumps(payload).value;
    assert j.loads(text).Some? && j.dumps(payload) == Some(text);
  }

  /** A readable row decodes to an object whose digest is its argument's. */
  lemma ReadableMeans(c: Config, operation: string, row: Row, payload: Json)
    requires Readable(c, operation, row, payload)
    ensures var value := Decode(c, operation, row);
      value.Ok? && value.value.Obj? && IsSnapshot(c.codec, payload, value.value)
        && DigestOf(c, value.value) == Ok(row.argument)
      && c.codec.dumps(value.value) == Some(row.argument.text)
  {
  }

  /** Decoding looks only at what the associated data and the ciphertext say. */
  lemma SameReadable(c: Config, operation: string, row: Row, row': Row, payload: Json)
    requires Readable(c, operation, row, payload)
    requires row'
      == row.(state := row'.state, readbacks := row'.readbacks, external := row'.external, updated := row'.updated)
    ensures Readable(c, operation, row', payload)
  {
  }

  // ----- one row at a time -----

  /** A change of one row that leaves what it holds. */
  ghost predicate RowMoves(c: Config, operation: string, row: Row, row': Row, payload: Json) {
    RowFit(c, operation, row') && Readable(c, operation, row', payload) && RowForward(row, row')
    && (!Open(row'.state) || (Open(row.state) && row'.subject == row.subject))
  }

  lemma OneRowKeeps(s: System, operation: string, row': Row, events: seq<Event>)
    requires Inv(s) && operation in s.tables.operations && operation in s.given
    requires RowMoves(s.config, operation, s.tables.operations[operation], row', s.given[operation])
    requires row'.generation == s.tables.operations[operation].generation
    ensures Inv(s.(tables := Tables(s.tables.operations[operation := row'], s.tables.revoked, events)))
  {
    hide Readable, IsSnapshot, ClaimsFit;
    OneRowClaims(s.config, s.dispatches, s.tables.operations, operation, row', s.given);
    OneRowClaims(s.config, s.readbacks, s.tables.operations, operation, row', s.given);
    OneRowTables(s.tables.operations, s.tables.revoked, operation, row');
    OneRowDispatches(s.dispatches, s.tables.operations, operation, row');
    hide RevokedFit, KeysFit, DispatchesFit, RowForward, RowFit;
  }

  lemma OneRowClaims(c: Config, claims: seq<Claim>, operations: map<string, Row>, operation: string, row': Row,
                     given: map<string, Json>)
    requires ClaimsFit(c, claims, operations, given) && operation in operations
    requires RowForward(operations[operation], row')
    requires row'.generation == operations[operation].generation
    ensures ClaimsFit(c, claims, operations[operation := row'], given)
  {
    hide IsSnapshot;
  }

  lemma OneRowTables(operations: map<string, Row>, revoked: map<string, int>, operation: string, row': Row)
    requires RevokedFit(operations, revoked) && KeysFit(operations) && operation in operations
    requires RowForward(operations[operation], row')
    requires Open(row'.state) ==> Open(operations[operation].state)
    ensures RevokedFit(operations[operation := row'], revoked) && KeysFit(operations[operation := row'])
  {
  }

  lemma OneRowDispatches(dispatches: seq<Claim>, operations: map<string, Row>, operation: string, row': Row)
    requires DispatchesFit(dispatches, operations) && operation in operations
    requires row'.generation == operations[operation].generation
    ensures DispatchesFit(dispatches, operations[operation := row'])
  {
  }

  lemma OneRowForward(t: Tables, operation: string, row': Row, e: Event)
    requires operation in t.operations && RowForward(t.operations[operation], row')
    ensures Forward(t, t.(operations := t.operations[operation := row'], events := t.events + [e]))
  {
    Resting(t);
  }

  lemma RowOf(s: System, operation: string)
    requires Inv(s) && operation in s.tables.operations
    ensures operation in s.given && RowFit(s.config, operation, s.tables.operations[operation])
    ensures Readable(s.config, operation, s.tables.operations[operation], s.given[operation])
  {
    hide Readable, RowFit, RevokedFit, KeysFit, ClaimsFit, DispatchesFit;
  }

  lemma MarkStep(s: System, operation: string, generation: int, now: int)
    requires Inv(s)
    ensures Inv(Next(s, DoMark(operation, generation, now)))
    ensures Forward(s.tables, Next(s, DoMark(operation, generation, now)).tables)
  {
    hide Inv, Readable, Forward, Name;
    Resting(s.tables);
    var x := MarkIndeterminate(s.tables, operation, generation, now);
    if x.Done? {
      RowOf(s, operation);
      var row' := x.tables.operations[operation];
      SameReadable(s.config, operation, s.tables.operations[operation], row', s.given[operation]);
      OneRowKeeps(s, operation, row', x.tables.events);
      OneRowForward(s.tables, operation, row', x.tables.events[|s.tables.events|]);
    }
  }

  lemma ObserveStep(s: System, report: Report, now: int)
    requires Inv(s)
    ensures Inv(Next(s, DoObserve(report, now))) && Forward(s.tables, Next(s, DoObserve(report, now)).tables)
  {
    hide Inv, Readable, Forward, Name;
    Resting(s.tables);
    var x, o := CommitObservation(s.tables, report, now), report.operation;
    if x.Done? {
      RowOf(s, o);
      var row' := x.tables.operations[o];
      SameReadable(s.config, o, s.tables.operations[o], row', s.given[o]);
      OneRowKeeps(s, o, row', x.tables.events);
      OneRowForward(s.tables, o, row', x.tables.events[|s.tables.events|]);
    }
  }

  // ----- readbacks -----

  lemma ReadbackMeans(c: Config, t: Tables, operation: string, subject: string, authority: Authority, now: int, x: Tx)
    requires x == ClaimReadback(c, t, operation, subject, authority, now)
    ensures x.Raised? ==> x.tables == t
    ensures x.Done? ==> operation in t.operations && subject !in t.revoked
    ensures x.Done? ==>
      var row := t.operations[operation];
      var row' := row.(readbacks := row.readbacks + 1, updated := now);
      && row.subject == subject && (row.state.Dispatching? || row.state.Indeterminate?)
      && row.readbacks < c.maxReadbacks
      && Decode(c, operation, row).Ok? && x.claim == Some(ClaimOf(operation, row, Decode(c, operation, row).value))
      && x.tables
        == t.(operations := t.operations[operation := row'],
              events := t.events + [Event(operation, ReadbackClaimed, row.generation, now)])
  {
    hide Decode, Name;
  }

  lemma ReadbackStep(s: System, operation: string, subject: string, authority: Authority, now: int)
    requires Inv(s)
    ensures var s' := Next(s, DoReadback(operation, subject, authority, now)); Inv(s') && Forward(s.tables, s'.tables)
  {
    hide Inv, Readable, Forward, ClaimReadback, Decode, IsSnapshot;
    Resting(s.tables);
    var x := ClaimReadback(s.config, s.tables, operation, subject, authority, now);
    ReadbackMeans(s.config, s.tables, operation, subject, authority, now, x);
    assert s.readbacks + [] == s.readbacks;
    if x.Done? {
      RowOf(s, operation);
      var row, row' := s.tables.operations[operation], x.tables.operations[operation];
      ReadableMeans(s.config, operation, row, s.given[operation]);
      SameReadable(s.config, operation, row, row', s.given[operation]);
      OneRowKeeps(s, operation, row', x.tables.events);
      OneRowForward(s.tables, operation, row', x.tables.events[|s.tables.events|]);
      AddReadback(s.(tables := x.tables), x.claim.value);
    }
  }

  lemma AddReadback(s: System, claim: Claim)
    requires Inv(s) && ClaimFit(s.config, claim, s.tables.operations, s.given)
    ensures Inv(s.(readbacks := s.readbacks + [claim]))
  {
    hide RowsFit, RevokedFit, KeysFit, ClaimFit, DispatchesFit;
  }

  // ----- the dispatch claim -----

  ghost predicate Resealed(c: Config, operation: string, row: Row, row': Row, text: string, sealing: Sealing) {
    && row' == row.(state := Dispatching, generation := row.generation + 1, updated := row'.updated,
                    keyId := row'.keyId, ciphertext := row'.ciphertext, digest := Digest(row'.ciphertext))
    && Seal(c, row.subject, text, AadOf(operation, row'), sealing) == Ok(row'.ciphertext)
    && sealing.keyId == Some(row'.keyId)
  }

  lemma ClaimMeans(c: Config, t: Tables, operation: string, subject: string, lease: string, authority: Authority,
                   sealing: Sealing, now: int, x: Tx)
    requires x == ClaimDispatch(c, t, operation, subject, lease, authority, sealing, now)
    ensures x.Raised? ==> x.tables == t
    ensures x.Done? ==>
      && operation in t.operations && operation in x.tables.operations && subject !in t.revoked && x.claim.Some?
      && t.operations[operation].state.Prepared? && t.operations[operation].subject == subject
      && t.operations[operation].lease == lease
      && now < t.operations[operation].deadline && Decode(c, operation, t.operations[operation]).Ok?
    ensures x.Done? ==>
      var row, row' := t.operations[operation], x.tables.operations[operation];
      var payload := Decode(c, operation, row).value;
      && c.codec.dumps(payload).Some? && Resealed(c, operation, row, row', c.codec.dumps(payload).value, sealing)
      && x.claim == Some(ClaimOf(operation, row', payload))
      && x.tables
        == t.(operations := t.operations[operation := row'],
              events := t.events + [Event(operation, DispatchClaimed, row'.generation, now)])
  {
    hide Decode, Name, Label, Hex;
  }

  lemma ClaimStep(s: System, operation: string, subject: string, lease: string, authority: Authority, sealing: Sealing,
                  now: int)
    requires Inv(s) && Lawful(s.config)
    ensures var s' := Next(s, DoClaim(operation, subject, lease, authority, sealing, now));
      Inv(s') && Forward(s.tables, s'.tables)
  {
    hide Inv, Readable, Forward, ClaimDispatch, Decode, LawfulCipher, LawfulCodec, Resealed, IsSnapshot;
    Resting(s.tables);
    var x := ClaimDispatch(s.config, s.tables, operation, subject, lease, authority, sealing, now);
    ClaimMeans(s.config, s.tables, operation, subject, lease, authority, sealing, now, x);
    assert s.dispatches + [] == s.dispatches;
    if x.Done? {
      RowOf(s, operation);
      var row, row' := s.tables.operations[operation], x.tables.operations[operation];
      ReadableMeans(s.config, operation, row, s.given[operation]);
      ReclaimReads(s.config, operation, row, row', s.given[operation], sealing);
      ClaimKeeps(s, operation, row', x.tables.events, x.claim.value);
      OneRowForward(s.tables, operation, row', x.tables.events[|s.tables.events|]);
    }
  }

  lemma ReclaimReads(c: Config, operation: string, row: Row, row': Row, payload: Json, sealing: Sealing)
    requires LawfulCipher(c.cipher) && LawfulCodec(c.codec) && Readable(c, operation, row, payload)
    requires row.state.Prepared? && RowFit(c, operation, row)
    requires var value := Decode(c, operation, row).value;
      c.codec.dumps(value).Some? && Resealed(c, operation, row, row', c.codec.dumps(value).value, sealing)
    ensures RowFit(c, operation, row') && Readable(c, operation, row', payload) && RowForward(row, row')
    ensures row'.generation == 2
  {
    hide LawfulCipher, LawfulCodec, Decode, IsSnapshot, Seal;
    var value := Decode(c, operation, row).value;
    ReadableMeans(c, operation, row, payload);
    SnapshotSettles(c.codec, payload, value);
    SealedReads(c, operation, row', payload, value, c.codec.dumps(value).value, sealing);
  }

  lemma ClaimKeeps(s: System, operation: string, row': Row, events: seq<Event>, claim: Claim)
    requires Inv(s) && operation in s.tables.operations && operation in s.given
    requires RowFit(s.config, operation, row') && Readable(s.config, operation, row', s.given[operation])
    requires s.tables.operations[operation].state.Prepared? && RowForward(s.tables.operations[operation], row')
    requires row'.generation == 2
    requires claim.operation == operation && ClaimFit(s.config, claim, s.tables.operations[operation := row'], s.given)
    ensures Inv(s.(tables := Tables(s.tables.operations[operation := row'], s.tables.revoked, events),
                   dispatches := s.dispatches + [claim]))
  {
    hide Readable, IsSnapshot, ClaimsFit;
    var before, after := s.tables.operations, s.tables.operations[operation := row'];
    OneRowTables(before, s.tables.revoked, operation, row');
    ClaimsWiden(s.config, s.dispatches, before, after, s.given, s.given);
    ClaimsWiden(s.config, s.readbacks, before, after, s.given, s.given);
    NotYetClaimed(s.config, s.dispatches, before, s.given, operation);
    DispatchesGrow(s.dispatches, before, operation, row', claim);
    ClaimsAppend(s.config, s.dispatches, after, s.given, claim);
    hide ClaimFit, DispatchesFit, KeysFit, RevokedFit, RowForward, RowFit;
  }

  lemma NotYetClaimed(c: Config, dispatches: seq<Claim>, operations: map<string, Row>, given: map<string, Json>,
                      operation: string)
    requires ClaimsFit(c, dispatches, operations, given) && operation in operations
    requires operations[operation].generation == 1
    ensures forall i :: 0 <= i < |dispatches| ==> dispatches[i].operation != operation
  {
    hide IsSnapshot;
  }

  lemma ClaimsAppend(c: Config, claims: seq<Claim>, operations: map<string, Row>, given: map<string, Json>,
                     claim: Claim)
    requires ClaimsFit(c, claims, operations, given) && ClaimFit(c, claim, operations, given)
    ensures ClaimsFit(c, claims + [claim], operations, given)
  {
    hide ClaimFit;
  }

  lemma ClaimsWiden(c: Config, claims: seq<Claim>, before: map<string, Row>, after: map<string, Row>,
                    given: map<string, Json>, given': map<string, Json>)
    requires ClaimsFit(c, claims, before, given)
    requires forall o :: o in before ==> o in after && RowForward(before[o], after[o]) && after[o].generation <= 2
    requires forall o :: o in given ==> o in given' && given'[o] == given[o]
    ensures ClaimsFit(c, claims, after, given')
  {
    hide IsSnapshot;
  }

  lemma DispatchesGrow(dispatches: seq<Claim>, operations: map<string, Row>, operation: string, row': Row, claim: Claim)
    requires DispatchesFit(dispatches, operations) && operation in operations && claim.operation == operation
    requires forall i :: 0 <= i < |dispatches| ==> dispatches[i].operation != operation
    ensures DispatchesFit(dispatches + [claim], operations[operation := row'])
  {
    var after, operations' := dispatches + [claim], operations[operation := row'];
    forall o | o in operations' && operations'[o].generation == 2
      ensures exists i :: 0 <= i < |after| && after[i].operation == o
    {
      if o == operation {
        assert after[|dispatches|].operation == o;
      } else {
        var i :| 0 <= i < |dispatches| && dispatches[i].operation == o;
        assert after[i].operation == o;
      }
    }
  }

  // ----- preparing -----

  lemma PrepareMeans(c: Config, t: Tables, q: Intent, sealing: Sealing, now: int, x: Tx)
    requires x == Prepare(c, t, q, sealing, now)
    ensures x.tables == t || (
      && q.operation !in t.operations && q.operation in x.tables.operations && q.subject !in t.revoked
      && Snapshot(c, q.payload).Ok?
      && (forall o :: o in t.operations ==> t.operations[o].idempotency != Idempotency(q.subject, q.key))
      && x.tables
        == Tables(t.operations[q.operation := x.tables.operations[q.operation]], t.revoked,
                  t.events + [Event(q.operation, WasPrepared, 1, now)])
      && (var row := x.tables.operations[q.operation];
          var (snapshot, raw) := Snapshot(c, q.payload).value;
          && row.state.Prepared? && row.generation == 1 && row.readbacks == 0 && row.subject == q.subject
          && row.digest == Digest(row.ciphertext)
          && row.idempotency == Idempotency(q.subject, q.key) && DigestOf(c, snapshot) == Ok(row.argument)
          && Seal(c, row.subject, raw, AadOf(q.operation, row), sealing) == Ok(row.ciphertext)
          && sealing.keyId == Some(row.keyId)))
  {
    hide Name, Hex, Snapshot, Label, DigestOf;
  }

  lemma PrepareStep(s: System, q: Intent, sealing: Sealing, now: int)
    requires Inv(s) && Lawful(s.config)
    ensures var s' := Next(s, DoPrepare(q, sealing, now)); Inv(s') && Forward(s.tables, s'.tables)
  {
    hide Readable, Forward, Prepare, Decode, LawfulCipher, LawfulCodec, Seal, DigestOf, ClaimsFit, DispatchesFit,
      KeysFit, RevokedFit, IsSnapshot;
    Resting(s.tables);
    var x := Prepare(s.config, s.tables, q, sealing, now);
    PrepareMeans(s.config, s.tables, q, sealing, now, x);
    if x.tables != s.tables {
      var row, taken := x.tables.operations[q.operation], Snapshot(s.config, q.payload).value;
      var snapshot, raw := taken.0, taken.1;
      assert IsSnapshot(s.config.codec, q.payload, snapshot) by { SnapshotMeans(s.config, q.payload); }
      SealedReads(s.config, q.operation, row, q.payload, snapshot, raw, sealing);
      NewRowKeeps(s, q.operation, row, q.payload, x.tables.events);
      NewRowForward(s.tables, q.operation, row, x.tables.events[|s.tables.events|]);
    }
  }

  lemma SnapshotMeans(c: Config, payload: Json)
    requires Snapshot(c, payload).Ok?
    ensures var (snapshot, raw) := Snapshot(c, payload).value;
      IsSnapshot(c.codec, payload, snapshot) && snapshot.Obj? && c.codec.dumps(payload) == Some(raw)
        && c.codec.loads(raw) == Some(snapshot)
  {
  }

  lemma NewRowKeeps(s: System, operation: string, row: Row, payload: Json, events: seq<Event>)
    requires Inv(s) && operation !in s.tables.operations && row.subject !in s.tables.revoked
    requires RowFit(s.config, operation, row) && Readable(s.config, operation, row, payload) && row.generation == 1
    requires forall o :: o in s.tables.operations ==> s.tables.operations[o].idempotency != row.idempotency
    ensures Inv(s.(tables := Tables(s.tables.operations[operation := row], s.tables.revoked, events),
                   given := s.given[operation := payload]))
  {
    hide Readable, IsSnapshot, RowForward, ClaimsFit;
    var before, after := s.tables.operations, s.tables.operations[operation := row];
    NewRowTables(before, s.tables.revoked, operation, row);
    NewRowDispatches(s.dispatches, before, operation, row);
    hide RevokedFit, KeysFit, DispatchesFit;
    forall o | o in before ensures RowForward(before[o], after[o]) && after[o].generation <= 2 { RowRests(before[o]); }
    ClaimsWiden(s.config, s.dispatches, before, after, s.given, s.given[operation := payload]);
    ClaimsWiden(s.config, s.readbacks, before, after, s.given, s.given[operation := payload]);
    hide ClaimsFit;
  }

  lemma NewRowTables(operations: map<string, Row>, revoked: map<string, int>, operation: string, row: Row)
    requires RevokedFit(operations, revoked) && KeysFit(operations) && operation !in operations
    requires row.subject !in revoked
    requires forall o :: o in operations ==> operations[o].idempotency != row.idempotency
    ensures RevokedFit(operations[operation := row], revoked) && KeysFit(operations[operation := row])
  {
  }

  lemma NewRowDispatches(dispatches: seq<Claim>, operations: map<string, Row>, operation: string, row: Row)
    requires DispatchesFit(dispatches, operations) && row.generation == 1
    requires operation !in operations
    ensures DispatchesFit(dispatches, operations[operation := row])
  {
  }

  lemma RowRests(row: Row)
    ensures RowForward(row, row)
  {
  }

  lemma NewRowForward(t: Tables, operation: string, row: Row, e: Event)
    requires operation !in t.operations
    ensures Forward(t, Tables(t.operations[operation := row], t.revoked, t.events + [e]))
  {
    Resting(t);
  }

  // ----- revoking -----

  lemma RevokeStep(s: System, subject: string, listing: seq<string>, now: int)
    requires Inv(s)
    ensures var s' := Next(s, DoRevoke(subject, listing, now)); Inv(s') && Forward(s.tables, s'.tables)
  {
    hide Readable, IsSnapshot, Name, RevokeEvents, RowForward, ClaimsFit, RowFit, RevokeRows;
    Resting(s.tables);
    if Name(subject) && Timestamp(now) {
      var before, after := s.tables.operations, RevokeRows(s.tables.operations, subject, now);
      assert after.Keys == before.Keys by { RevokeRowsKeep(s.config, before, s.given, subject, now); }
      forall o | o in before
        ensures RowForward(before[o], after[o]) && RowFit(s.config, o, after[o])
        ensures Readable(s.config, o, after[o], s.given[o])
        ensures after[o].generation == before[o].generation && after[o].generation <= 2
        ensures after[o].idempotency == before[o].idempotency
        ensures after[o].subject == before[o].subject
        ensures (Open(after[o].state) ==> Open(before[o].state) && before[o].subject != subject)
      {
        RevokeRowsKeep(s.config, before, s.given, subject, now);
      }
      ClaimsWiden(s.config, s.dispatches, before, after, s.given, s.given);
      ClaimsWiden(s.config, s.readbacks, before, after, s.given, s.given);
    }
  }

  lemma RevokeRowsKeep(c: Config, before: map<string, Row>, given: map<string, Json>, subject: string, now: int)
    requires RowsFit(c, before, given)
    ensures var after := RevokeRows(before, subject, now); after.Keys == before.Keys
    ensures var after := RevokeRows(before, subject, now); forall o :: o in before ==>
      && RowForward(before[o], after[o]) && RowFit(c, o, after[o]) && Readable(c, o, after[o], given[o])
      && after[o].generation == before[o].generation && after[o].generation <= 2
      && after[o].idempotency == before[o].idempotency
      && after[o].subject == before[o].subject
      && (Open(after[o].state) ==> Open(before[o].state) && before[o].subject != subject)
  {
    hide Readable, RowForward;
    var after := RevokeRows(before, subject, now);
    forall o | o in before ensures Readable(c, o, after[o], given[o]) && RowForward(before[o], after[o]) {
      SameReadable(c, o, before[o], after[o], given[o]);
      RowRests(before[o]);
      if Revocable(before, subject, o) { RevokedForward(before[o], now); }
    }
  }

  lemma RevokedForward(row: Row, now: int)
    requires Open(row.state)
    ensures RowForward(row, row.(state := Revoked, updated := now))
  {
  }

  // ----- every step, every run -----

  lemma NextKeeps(s: System, step: Step)
    requires Inv(s) && Lawful(s.config)
    ensures Inv(Next(s, step)) && Forward(s.tables, Next(s, step).tables) && Next(s, step).config == s.config
  {
    hide Inv, Lawful, Forward, Prepare, ClaimDispatch, ClaimReadback, MarkIndeterminate, CommitObservation,
      RevokeSubject;
    match step
    case DoPrepare(q, sealing, now) => PrepareStep(s, q, sealing, now);
    case DoClaim(operation, subject, lease, authority, sealing, now) =>
      ClaimStep(s, operation, subject, lease, authority, sealing, now);
    case DoMark(operation, generation, now) => MarkStep(s, operation, generation, now);
    case DoReadback(operation, subject, authority, now) => ReadbackStep(s, operation, subject, authority, now);
    case DoObserve(report, now) => ObserveStep(s, report, now);
    case DoRevoke(subject, listing, now) => RevokeStep(s, subject, listing, now);
  }

  lemma {:induction false} RunKeeps(s: System, steps: seq<Step>)
    requires Inv(s) && Lawful(s.config)
    ensures Inv(Run(s, steps)) && Forward(s.tables, Run(s, steps).tables) && Run(s, steps).config == s.config
    decreases |steps|
  {
    hide Inv, Lawful, Forward, Next;
    Resting(s.tables);
    if steps != [] {
      var s1 := Next(s, steps[0]);
      NextKeeps(s, steps[0]);
      RunKeeps(s1, steps[1..]);
      ForwardTransitive(s.tables, s1.tables, Run(s1, steps[1..]).tables);
    }
  }
}
