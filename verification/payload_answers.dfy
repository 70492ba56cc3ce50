/**
 * What the payload store answers, said of the rows, the cipher and the report alone: what is taken into custody, who
 * may claim it, and what a report of its outcome leaves.
 */
module PayloadAnswers {
  import opened Base
  import opened JsonBounds
  import opened Sealing
  import opened PayloadVault
  import opened PayloadRuns
  import opened PayloadTheorems

  // ----- payloads -----

  /** The row's ciphertext is intact and decrypts, under everything the row says, to this payload and no other text. */
  ghost predicate Holds(c: Config, operation: string, row: Row, payload: Json) {
    var aad := Aad(operation, row.subject, row.provider, row.argument, row.generation, row.deadline);
    var text := c.cipher.decrypt(row.subject, row.keyId, row.ciphertext, aad);
    && row.digest == Digest(row.ciphertext)
    && text.Some? && c.codec.loads(text.value) == Some(payload)
    && payload.Obj? && c.codec.dumps(payload) == Some(row.argument.text)
  }

  lemma DecodeDecides(c: Config, operation: string, row: Row)
    ensures Decode(c, operation, row).Ok? <==> exists payload :: Holds(c, operation, row, payload)
    ensures forall payload :: Holds(c, operation, row, payload) <==> Decode(c, operation, row) == Ok(payload)
  {
    if Decode(c, operation, row).Ok? { assert Holds(c, operation, row, Decode(c, operation, row).value); }
  }

  /** A text sealed for the row under the named key gives this ciphertext. */
  ghost predicate Sealed(c: Config, operation: string, row: Row, text: string, sealing: Sealing) {
    && sealing.keyId == Some(row.keyId) && Label(row.keyId, 256) && row.digest == Digest(row.ciphertext)
    && c.cipher.encrypt(row.subject, row.keyId, text,
                        Aad(operation, row.subject, row.provider, row.argument, row.generation, row.deadline),
                        sealing.nonce) == Some(row.ciphertext)
  }

  /** The canonical text of an acceptable payload and of what it reads back as. */
  ghost predicate Canonical(c: Config, payload: Json, text: string, argument: string) {
    && payload.Obj? && payload.fields != [] && c.codec.dumps(payload) == Some(text) && Utf8Length(text) <= c.maxBytes
    && c.codec.loads(text).Some? && c.codec.loads(text).value.Obj?
    && c.codec.dumps(c.codec.loads(text).value) == Some(argument)
  }

  // ----- custody -----

  /** The intent is well formed, for a subject that is not revoked, and its deadline lies ahead. */
  ghost predicate Acceptable(t: Tables, q: Intent, now: int) {
    && Label(q.operation, 256) && Label(q.key, 256) && Label(q.subject, 256) && Label(q.provider, 256) && Hex(q.lease)
    && Timestamp(now) && now < q.deadline <= 253402300799 && q.subject !in t.revoked
  }

  ghost predicate KeyUsed(t: Tables, subject: string, key: string, o: string) {
    o in t.operations && t.operations[o].idempotency == Idempotency(subject, key)
  }

  /** The row of a new intent: everything it said, its payload sealed in the first generation, nothing done yet. */
  ghost predicate NewRow(c: Config, q: Intent, text: string, argument: string, sealing: Sealing, now: int, row: Row) {
    && Sealed(c, q.operation, row, text, sealing) && row.ciphertext != ""
    && row == Row(Idempotency(q.subject, q.key),
                  Fingerprint(q.operation, q.subject, q.provider, Digest(argument), q.lease, q.deadline),
                  q.subject, q.provider, Digest(argument), q.lease, row.keyId, row.ciphertext, row.digest, Prepared,
                  1, 0, q.deadline, None, now, now)
  }

  /**
   * An acceptable intent with a canonical payload under a key not used before is taken into custody exactly when there
   * is room, its operation is new and its payload can be sealed; its row is all that is added, but for the event.
   */
  lemma PrepareDecides(c: Config, t: Tables, q: Intent, sealing: Sealing, now: int, text: string, argument: string)
    requires forall o :: !KeyUsed(t, q.subject, q.key, o)
    requires Canonical(c, q.payload, text, argument)
    ensures var x := Prepare(c, t, q, sealing, now);
      && (x.Done? <==>
            && Acceptable(t, q, now) && |t.operations| < c.maxOperations && q.operation !in t.operations
            && exists row :: NewRow(c, q, text, argument, sealing, now, row))
      && (x.Done? ==>
            && q.operation in x.tables.operations && x.claim == None
            && NewRow(c, q, text, argument, sealing, now, x.tables.operations[q.operation])
            && x.tables == Tables(t.operations[q.operation := x.tables.operations[q.operation]], t.revoked,
                                  t.events + [Event(q.operation, WasPrepared, 1, now)]))
      && (x.Raised? ==> x.tables == t)
  {
    hide Label, Hex, Utf8Length;
    forall o | o in t.operations ensures t.operations[o].idempotency != Idempotency(q.subject, q.key) {
      assert !KeyUsed(t, q.subject, q.key, o);
    }
    var x := Prepare(c, t, q, sealing, now);
    if row :| NewRow(c, q, text, argument, sealing, now, row) {
      assert sealing.keyId == Some(row.keyId);
    }
    if x.Done? { assert NewRow(c, q, text, argument, sealing, now, x.tables.operations[q.operation]); }
  }

  /** A payload without a canonical form is refused. */
  lemma UncanonicalRefused(c: Config, t: Tables, q: Intent, sealing: Sealing, now: int)
    requires forall text, argument :: !Canonical(c, q.payload, text, argument)
    ensures var x := Prepare(c, t, q, sealing, now); x.Raised? && x.tables == t
  {
    hide Label, Hex, Utf8Length;
    if q.payload.Obj? && q.payload.fields != [] && c.codec.dumps(q.payload).Some? {
      var text := c.codec.dumps(q.payload).value;
      if c.codec.loads(text).Some? && c.codec.dumps(c.codec.loads(text).value).Some? {
        assert !Canonical(c, q.payload, text, c.codec.dumps(c.codec.loads(text).value).value);
      }
    }
  }

  /** A key used before is a replay exactly when the whole intent is the same; neither way anything changes. */
  lemma ReplayDecides(c: Config, t: Tables, q: Intent, sealing: Sealing, now: int, text: string, argument: string)
    requires exists o :: KeyUsed(t, q.subject, q.key, o)
    requires Canonical(c, q.payload, text, argument) && Acceptable(t, q, now)
    ensures Prepare(c, t, q, sealing, now) ==
      if exists o :: && KeyUsed(t, q.subject, q.key, o)
                     && t.operations[o].fingerprint ==
                          Fingerprint(q.operation, q.subject, q.provider, Digest(argument), q.lease, q.deadline)
      then Done(t, None) else Raised(t, IdempotencyConflict)
  {
    hide Label, Hex, Utf8Length;
    var o :| KeyUsed(t, q.subject, q.key, o);
    assert o in t.operations && t.operations[o].idempotency == Idempotency(q.subject, q.key);
    var mark := Fingerprint(q.operation, q.subject, q.provider, Digest(argument), q.lease, q.deadline);
    if p :| KeyUsed(t, q.subject, q.key, p) && t.operations[p].fingerprint == mark {
      assert p in t.operations && t.operations[p].idempotency == Idempotency(q.subject, q.key);
    }
    if p :| p in t.operations && t.operations[p].idempotency == Idempotency(q.subject, q.key)
            && t.operations[p].fingerprint == mark {
      assert KeyUsed(t, q.subject, q.key, p);
    }
  }

  // ----- claims -----

  /** The subject's own prepared row may be dispatched now, under its own lease. */
  ghost predicate MayDispatch(t: Tables, operation: string, subject: string, lease: string, now: int) {
    && Label(operation, 256) && Label(subject, 256) && Hex(lease) && Timestamp(now)
    && operation in t.operations && t.operations[operation].subject == subject
    && t.operations[operation].state == Prepared && t.operations[operation].lease == lease
    && now < t.operations[operation].deadline && subject !in t.revoked
  }

  /** The row of a dispatch: the next generation, with the same payload sealed again for it. */
  ghost predicate DispatchedRow(c: Config, operation: string, row: Row, payload: Json, sealing: Sealing, now: int,
                                row': Row) {
    && c.codec.dumps(payload).Some? && Sealed(c, operation, row', c.codec.dumps(payload).value, sealing)
    && row' == row.(state := Dispatching, generation := row.generation + 1, updated := now, keyId := row'.keyId,
                    ciphertext := row'.ciphertext, digest := row'.digest)
  }

  /**
   * A payload is claimed for dispatch exactly by its subject, under its lease, before its deadline, while it is
   * prepared and authority is given both times it is asked for; the claim names what the row names and holds its
   * payload.
   */
  lemma ClaimDecides(c: Config, t: Tables, operation: string, subject: string, lease: string, authority: Authority,
                     sealing: Sealing, now: int)
    ensures var x := ClaimDispatch(c, t, operation, subject, lease, authority, sealing, now);
      && (x.Done? <==>
            && MayDispatch(t, operation, subject, lease, now) && authority.before && authority.after
            && exists payload, row :: && Holds(c, operation, t.operations[operation], payload)
                                      && DispatchedRow(c, operation, t.operations[operation], payload, sealing, now,
                                                       row))
      && (x.Done? ==>
            var row := t.operations[operation];
            && x.claim.Some? && operation in x.tables.operations
            && x.claim.value == Claim(operation, subject, row.provider, row.argument, row.generation + 1, row.deadline,
                                      x.claim.value.payload)
            && Holds(c, operation, row, x.claim.value.payload)
            && DispatchedRow(c, operation, row, x.claim.value.payload, sealing, now, x.tables.operations[operation])
            && x.tables == Tables(t.operations[operation := x.tables.operations[operation]], t.revoked,
                                  t.events + [Event(operation, DispatchClaimed, row.generation + 1, now)]))
      && (x.Raised? ==> x.tables == t)
  {
    hide Label, Hex, Holds, Decode;
    var x := ClaimDispatch(c, t, operation, subject, lease, authority, sealing, now);
    if operation in t.operations {
      var row := t.operations[operation];
      DecodeDecides(c, operation, row);
      if x.Done? {
        assert Holds(c, operation, row, x.claim.value.payload);
        assert DispatchedRow(c, operation, row, x.claim.value.payload, sealing, now, x.tables.operations[operation]);
      }
      if payload, row' :| Holds(c, operation, row, payload)
                          && DispatchedRow(c, operation, row, payload, sealing, now, row') {
        assert sealing.keyId == Some(row'.keyId);
      }
    }
  }

  /** A dispatch becomes indeterminate exactly in its own generation. */
  lemma MarkDecides(t: Tables, operation: string, generation: int, now: int)
    ensures var x := MarkIndeterminate(t, operation, generation, now);
      if && Label(operation, 256) && generation >= 1 && Timestamp(now) && operation in t.operations
         && t.operations[operation].generation == generation && t.operations[operation].state == Dispatching
      then x == Done(Tables(t.operations[operation :=
                              t.operations[operation].(state := Indeterminate, updated := now)], t.revoked,
                            t.events + [Event(operation, MarkedIndeterminate, generation, now)]), None)
      else x.Raised? && x.tables == t
  {
    hide Label;
  }

  /** A readback is claimed exactly by the subject of an open dispatch, within its budget, and hands out its payload. */
  lemma ReadbackDecides(c: Config, t: Tables, operation: string, subject: string, authority: Authority, now: int)
    ensures var x := ClaimReadback(c, t, operation, subject, authority, now);
      && (x.Done? <==>
            && Label(operation, 256) && Label(subject, 256) && Timestamp(now)
            && operation in t.operations && t.operations[operation].subject == subject
            && (t.operations[operation].state == Dispatching || t.operations[operation].state == Indeterminate)
            && t.operations[operation].readbacks < c.maxReadbacks && subject !in t.revoked
            && authority.before && authority.after
            && exists payload :: Holds(c, operation, t.operations[operation], payload))
      && (x.Done? ==>
            var row := t.operations[operation];
            && x.claim.Some?
            && x.claim.value == Claim(operation, subject, row.provider, row.argument, row.generation, row.deadline,
                                      x.claim.value.payload)
            && Holds(c, operation, row, x.claim.value.payload)
            && x.tables == Tables(t.operations[operation := row.(readbacks := row.readbacks + 1, updated := now)],
                                  t.revoked, t.events + [Event(operation, ReadbackClaimed, row.generation, now)]))
      && (x.Raised? ==> x.tables == t)
  {
    hide Label, Holds, Decode;
    if operation in t.operations { DecodeDecides(c, operation, t.operations[operation]); }
  }

  // ----- reports -----

  /** The report is well formed and speaks of this dispatch, which is still open. */
  ghost predicate Accepted(t: Tables, o: Report, now: int) {
    && Label(o.operation, 256) && Label(o.provider, 256) && (o.external.Some? ==> Label(o.external.value, 256))
    && o.disposition in {WasApplied, WasNotApplied, WasUnknown, WasDenied} && o.generation >= 1 && Timestamp(now)
    && o.operation in t.operations
    && t.operations[o.operation].generation == o.generation && t.operations[o.operation].provider == o.provider
    && Some(t.operations[o.operation].argument) == o.argument
    && (t.operations[o.operation].state == Dispatching || t.operations[o.operation].state == Indeterminate)
  }

  /** What the report says of the outcome: nothing final unless it is terminal and knows. */
  ghost predicate Says(o: Report, state: State) {
    if o.terminal then
      match o.disposition
      case WasApplied => state == Applied
      case WasNotApplied => state == NotApplied
      case WasDenied => state == Denied
      case _ => state == Indeterminate
    else state == Indeterminate
  }

  /** A report changes exactly the open dispatch it speaks of, to what it says, with the external id it gives. */
  lemma ReportDecides(t: Tables, o: Report, now: int)
    ensures var x := CommitObservation(t, o, now);
      && (x.Done? <==> Accepted(t, o, now))
      && (x.Done? ==>
            var row := t.operations[o.operation];
            && o.operation in x.tables.operations && x.claim == None
            && Says(o, x.tables.operations[o.operation].state)
            && x.tables == Tables(t.operations[o.operation := row.(state := x.tables.operations[o.operation].state,
                                    external := o.external, updated := now)], t.revoked,
                                  t.events + [Event(o.operation, Observed(x.tables.operations[o.operation].state),
                                                    row.generation, now)]))
      && (x.Raised? ==> x.tables == t)
  {
    hide Label;
  }

  /** A revocation closes exactly the open rows of the subject, and denies it from the first time on. */
  lemma RevokeDecides(t: Tables, subject: string, listing: seq<string>, now: int)
    ensures var x := RevokeSubject(t, subject, listing, now); var t' := x.tables;
      && (x.Done? <==> Label(subject, 256) && Timestamp(now)) && (x.Raised? ==> t' == t)
      && (x.Done? ==>
            && t'.operations.Keys == t.operations.Keys
            && (forall o :: o in t.operations ==>
                  t'.operations[o] == if t.operations[o].subject == subject
                                         && t.operations[o].state in {Prepared, Dispatching, Indeterminate}
                                      then t.operations[o].(state := Revoked, updated := now) else t.operations[o])
            && t'.revoked == (if subject in t.revoked then t.revoked else t.revoked[subject := now]))
  {
    hide Label, RevokeEvents;
  }

  /** Every event a revocation writes is of an open row of the subject, in the row's generation. */
  lemma {:induction false} RevokeLogs(rows: map<string, Row>, subject: string, listing: seq<string>, now: int, e: Event)
    requires e in RevokeEvents(rows, subject, listing, now)
    ensures e.operation in rows && rows[e.operation].subject == subject
    ensures rows[e.operation].state in {Prepared, Dispatching, Indeterminate}
    ensures e == Event(e.operation, SubjectRevoked, rows[e.operation].generation, now)
    decreases |listing|
  {
    if listing == [] {
      assert false;
    } else {
      var init := listing[..|listing| - 1];
      if e in RevokeEvents(rows, subject, init, now) { RevokeLogs(rows, subject, init, now, e); }
    }
  }

  // ----- the outcome of every operation of a run -----

  lemma {:induction false} RunLast(s: System, steps: seq<Step>)
    requires steps != []
    ensures Run(s, steps) == Next(Run(s, steps[..|steps| - 1]), steps[|steps| - 1])
    decreases |steps|
  {
    hide Next;
    if |steps| > 1 {
      RunLast(Next(s, steps[0]), steps[1..]);
      assert steps[1..][..|steps| - 2] == steps[..|steps| - 1][1..];
    }
  }

  /** This step, taken in s, accepted a report of operation o that said this, with this external id. */
  ghost predicate ReportedBy(s: System, step: Step, o: string, state: State, external: Option<string>) {
    && step.DoObserve? && step.report.operation == o && Accepted(s.tables, step.report, step.now)
    && Says(step.report, state) && external == step.report.external
  }

  /** A row takes an outcome, or an external id, only from a report that says so. */
  lemma OutcomeAppears(s: System, step: Step, o: string)
    requires o in Next(s, step).tables.operations
    ensures var row := Next(s, step).tables.operations[o];
      || (o in s.tables.operations && row.state == s.tables.operations[o].state
          && row.external == s.tables.operations[o].external)
      || ReportedBy(s, step, o, row.state, row.external)
      || (row.state in {Prepared, Dispatching, Indeterminate, Revoked}
          && row.external == if o in s.tables.operations then s.tables.operations[o].external else None)
  {
    hide Prepare, ClaimDispatch, ClaimReadback, MarkIndeterminate, CommitObservation, RevokeSubject, Label, Holds,
      Sealed, Accepted, Says;
    match step
    case DoPrepare(q, sealing, now) => PrepareAdds(s.config, s.tables, q, sealing, now);
    case DoClaim(operation, subject, lease, authority, sealing, now) =>
      ClaimDecides(s.config, s.tables, operation, subject, lease, authority, sealing, now);
    case DoMark(operation, generation, now) => MarkDecides(s.tables, operation, generation, now);
    case DoReadback(operation, subject, authority, now) =>
      ReadbackDecides(s.config, s.tables, operation, subject, authority, now);
    case DoObserve(report, now) =>
      ReportDecides(s.tables, report, now);
      ReportKnows(s.tables, report, now);
    case DoRevoke(subject, listing, now) => RevokeDecides(s.tables, subject, listing, now);
  }

  lemma ReportKnows(t: Tables, o: Report, now: int)
    ensures Accepted(t, o, now) ==> o.operation in t.operations
  {
  }

  lemma PrepareAdds(c: Config, t: Tables, q: Intent, sealing: Sealing, now: int)
    ensures var t' := Prepare(c, t, q, sealing, now).tables;
      t' == t || (q.operation !in t.operations && q.operation in t'.operations
                  && t'.operations == t.operations[q.operation := t'.operations[q.operation]]
                  && t'.operations[q.operation].state == Prepared && t'.operations[q.operation].external == None)
  {
    hide Label, Hex, Utf8Length;
  }

  /** Over every run an outcome is what an accepted report said, and so is the external id beside it. */
  lemma {:induction false} OutcomeWasReported(c: Config, steps: seq<Step>, o: string)
    requires Lawful(c) && o in Run(Start(c), steps).tables.operations
    requires Run(Start(c), steps).tables.operations[o].state in {Applied, NotApplied, Denied, Quarantined}
    ensures var row := Run(Start(c), steps).tables.operations[o];
      exists i :: 0 <= i < |steps| && ReportedBy(Run(Start(c), steps[..i]), steps[i], o, row.state, row.external)
    decreases |steps|
  {
    hide Next, ReportedBy, Lawful;
    if steps == [] {
      assert false;
    } else {
      var n := |steps| - 1;
      var s := Run(Start(c), steps[..n]);
      RunLast(Start(c), steps);
      OutcomeAppears(s, steps[n], o);
      var row := Next(s, steps[n]).tables.operations[o];
      if !ReportedBy(s, steps[n], o, row.state, row.external) {
        OutcomeWasReported(c, steps[..n], o);
        var i :| 0 <= i < n && ReportedBy(Run(Start(c), steps[..n][..i]), steps[..n][i], o, row.state, row.external);
        assert steps[..n][..i] == steps[..i];
      }
    }
  }

  /**
   * And what an accepted report says is recorded for good: from the step on that accepted a final report of it, the
   * operation is in that state, with that external id.
   */
  lemma ReportIsRecorded(c: Config, steps: seq<Step>, i: nat, o: string, state: State, external: Option<string>)
    requires Lawful(c) && i < |steps| && ReportedBy(Run(Start(c), steps[..i]), steps[i], o, state, external)
    requires state in {Applied, NotApplied, Denied}
    ensures var t := Run(Start(c), steps).tables;
      o in t.operations && t.operations[o].state == state && t.operations[o].external == external
  {
    hide Lawful, Inv, Next, Accepted, Forward;
    var s := Run(Start(c), steps[..i]);
    StartFits(c);
    RunKeeps(Start(c), steps[..i]);
    NextKeeps(s, steps[i]);
    var s' := Next(s, steps[i]);
    RecordedNow(s, steps[i], o, state, external);
    RunKeeps(s', steps[i + 1..]);
    RunSplits(Start(c), steps, i);
    ShutRow(s'.tables, Run(s', steps[i + 1..]).tables, o);
  }

  lemma RecordedNow(s: System, step: Step, o: string, state: State, external: Option<string>)
    requires ReportedBy(s, step, o, state, external)
    ensures var t' := Next(s, step).tables;
      o in t'.operations && t'.operations[o].state == state && t'.operations[o].external == external
  {
    hide CommitObservation, Accepted;
    ReportDecides(s.tables, step.report, step.now);
    ReportKnows(s.tables, step.report, step.now);
  }

  lemma ShutRow(t: Tables, t': Tables, o: string)
    requires Forward(t, t') && o in t.operations && t.operations[o].state in {Applied, NotApplied, Denied}
    ensures o in t'.operations && t'.operations[o] == t.operations[o]
  {
  }

  lemma {:induction false} RunSplits(s: System, steps: seq<Step>, i: nat)
    requires i < |steps|
    ensures Run(s, steps) == Run(Next(Run(s, steps[..i]), steps[i]), steps[i + 1..])
    decreases i
  {
    hide Next;
    if i > 0 {
      RunSplits(Next(s, steps[0]), steps[1..], i - 1);
      assert steps[1..][..i - 1] == steps[..i][1..] && steps[1..][i..] == steps[i + 1..];
    }
  }

  /** An operation is in a final state exactly when an accepted report of it said so. */
  lemma OutcomeIff(c: Config, steps: seq<Step>, o: string, state: State)
    requires Lawful(c) && state in {Applied, NotApplied, Denied}
    ensures var t := Run(Start(c), steps).tables;
      (o in t.operations && t.operations[o].state == state) <==>
        exists i, external :: 0 <= i < |steps| && ReportedBy(Run(Start(c), steps[..i]), steps[i], o, state, external)
  {
    hide Lawful, Run, ReportedBy;
    var t := Run(Start(c), steps).tables;
    if o in t.operations && t.operations[o].state == state { OutcomeWasReported(c, steps, o); }
    if i, external :| 0 <= i < |steps| && ReportedBy(Run(Start(c), steps[..i]), steps[i], o, state, external) {
      ReportIsRecorded(c, steps, i, o, state, external);
    }
  }

  // ----- refusals -----

  /** An error of a claim says what is so: of the names, of the row, of the clock or of the payload. */
  lemma ClaimRefusals(c: Config, t: Tables, operation: string, subject: string, lease: string, authority: Authority,
                      sealing: Sealing, now: int)
    ensures var x := ClaimDispatch(c, t, operation, subject, lease, authority, sealing, now);
      var known := operation in t.operations && t.operations[operation].subject == subject;
      x.Raised? ==> match x.code
        case BindingInvalid => !Label(operation, 256) || !Label(subject, 256)
        case DigestInvalid => !Hex(lease)
        case ClockInvalid => !Timestamp(now)
        case UnknownOperation => !known
        case NotDispatchable => known && t.operations[operation].state != Prepared
        case Expired => known && t.operations[operation].deadline <= now
        case AuthorityDenied => known && (t.operations[operation].lease != lease || subject in t.revoked)
        case Unauthorized => !authority.before || !authority.after
        case KeyIdInvalid => sealing.keyId.Some? && !Label(sealing.keyId.value, 256)
        case EncryptFailed =>
          known && forall payload, row :: Holds(c, operation, t.operations[operation], payload) ==>
            !DispatchedRow(c, operation, t.operations[operation], payload, sealing, now, row)
        case _ =>
          known && forall payload ::
            Holds(c, operation, t.operations[operation], payload) ==> c.codec.dumps(payload) == None
  {
    hide Label, Hex, Holds, Decode;
    ClaimDecides(c, t, operation, subject, lease, authority, sealing, now);
    if operation in t.operations {
      DecodeDecides(c, operation, t.operations[operation]);
      DecodeCodes(c, operation, t.operations[operation]);
    }
  }

  lemma DecodeCodes(c: Config, operation: string, row: Row)
    ensures var x := Decode(c, operation, row);
      x.Err? ==> x.code == IntegrityInvalid || x.code == DecryptFailed || x.code == PayloadInvalid
  {
  }

  /** So does one of a readback. */
  lemma ReadbackRefusals(c: Config, t: Tables, operation: string, subject: string, authority: Authority, now: int)
    ensures var x := ClaimReadback(c, t, operation, subject, authority, now);
      var known := operation in t.operations && t.operations[operation].subject == subject;
      x.Raised? ==> match x.code
        case BindingInvalid => !Label(operation, 256) || !Label(subject, 256)
        case ClockInvalid => !Timestamp(now)
        case NotRecoverable =>
          !known || (t.operations[operation].state != Dispatching && t.operations[operation].state != Indeterminate)
        case ReadbackExhausted => known && t.operations[operation].readbacks >= c.maxReadbacks
        case SubjectIsRevoked => subject in t.revoked
        case Unauthorized => !authority.before || !authority.after
        case _ => known && forall payload :: !Holds(c, operation, t.operations[operation], payload)
  {
    hide Label, Holds, Decode;
    if operation in t.operations {
      DecodeDecides(c, operation, t.operations[operation]);
      DecodeCodes(c, operation, t.operations[operation]);
    }
  }

  /** So does one of a report. */
  lemma ReportRefusals(t: Tables, o: Report, now: int)
    ensures var x := CommitObservation(t, o, now);
      x.Raised? ==> match x.code
        case BindingInvalid => !Label(o.operation, 256) || !Label(o.provider, 256)
        case DigestInvalid => o.argument == None
        case ObservationInvalid =>
          o.generation < 1 || o.disposition == Unrecognized || (o.external.Some? && !Label(o.external.value, 256))
        case ClockInvalid => !Timestamp(now)
        case ObservationConflict =>
          o.operation in t.operations ==>
            var row := t.operations[o.operation];
            || row.generation != o.generation || row.provider != o.provider || Some(row.argument) != o.argument
            || (row.state != Dispatching && row.state != Indeterminate)
        case _ => false
  {
    hide Label;
  }

  /** So does one of a preparation. */
  lemma PrepareRefusals(c: Config, t: Tables, q: Intent, sealing: Sealing, now: int)
    ensures var x := Prepare(c, t, q, sealing, now);
      x.Raised? ==> match x.code
        case BindingInvalid =>
          !Label(q.operation, 256) || !Label(q.key, 256) || !Label(q.subject, 256) || !Label(q.provider, 256)
        case DigestInvalid => !Hex(q.lease)
        case PayloadInvalid => forall text, argument :: !Canonical(c, q.payload, text, argument)
        case ClockInvalid => !Timestamp(now)
        case DeadlineInvalid => q.deadline <= now || 253402300799 < q.deadline
        case SubjectIsRevoked => q.subject in t.revoked
        case IdempotencyConflict => exists o :: KeyUsed(t, q.subject, q.key, o)
        case CapacityExhausted => |t.operations| >= c.maxOperations
        case KeyIdInvalid => sealing.keyId.Some? && !Label(sealing.keyId.value, 256)
        case EncryptFailed =>
          forall text, argument, row :: Canonical(c, q.payload, text, argument) ==>
            !NewRow(c, q, text, argument, sealing, now, row)
        case IntegrityError => q.operation in t.operations
        case _ => false
  {
    hide Label, Hex, Utf8Length;
    var x := Prepare(c, t, q, sealing, now);
    if x.Raised? && x.code == IdempotencyConflict {
      var o :| o in t.operations && t.operations[o].idempotency == Idempotency(q.subject, q.key);
      assert KeyUsed(t, q.subject, q.key, o);
    }
  }
}
