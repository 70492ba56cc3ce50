/** What every run of the encrypted payload store promises. */
module PayloadTheorems {
  import opened Base
  import opened Sealing
  import opened PayloadVault
  import opened PayloadRuns

  function Start(c: Config): System {
    System(c, EMPTY, map[], [], [])
  }

  /** The systems some run of a store with a lawful cipher and codec reaches. */
  ghost predicate Reachable(s: System) {
    Lawful(s.config) && exists steps :: s == Run(Start(s.config), steps)
  }

  lemma ReachableFits(s: System)
    requires Reachable(s)
    ensures Inv(s) && Lawful(s.config)
  {
    hide Run, Lawful;
    var steps :| s == Run(Start(s.config), steps);
    StartFits(s.config);
    RunKeeps(Start(s.config), steps);
  }

  lemma StartFits(c: Config)
    ensures Inv(Start(c))
  {
  }

  /**
   * Whatever keys and nonces sealed it, and though claiming re-encrypts it under a new generation, every claim returns
   * the snapshot of the payload given to prepare, and that payload is what the argument digest is of.
   */
  lemma ClaimsReturnWhatWasGiven(s: System, i: nat)
    requires Reachable(s)
    ensures i < |s.dispatches| ==>
      && s.dispatches[i].operation in s.given
      && IsSnapshot(s.config.codec, s.given[s.dispatches[i].operation], s.dispatches[i].payload)
      && s.config.codec.dumps(s.dispatches[i].payload) == Some(s.dispatches[i].argument.text)
    ensures i < |s.readbacks| ==>
      && s.readbacks[i].operation in s.given
      && IsSnapshot(s.config.codec, s.given[s.readbacks[i].operation], s.readbacks[i].payload)
      && s.config.codec.dumps(s.readbacks[i].payload) == Some(s.readbacks[i].argument.text)
  {
    hide Reachable, IsSnapshot, RowsFit, RevokedFit, KeysFit, DispatchesFit, Lawful;
    ReachableFits(s);
  }

  /** Two claims of one operation, for dispatch or for readback, carry the same payload. */
  lemma ClaimsAgree(s: System, i: nat, j: nat)
    requires Reachable(s) && i < |s.readbacks| && j < |s.dispatches|
    requires s.readbacks[i].operation == s.dispatches[j].operation
    ensures s.readbacks[i].payload == s.dispatches[j].payload && s.readbacks[i].argument == s.dispatches[j].argument
  {
    hide Reachable, RowsFit, RevokedFit, KeysFit, DispatchesFit, Lawful;
    ReachableFits(s);
    ClaimsReturnWhatWasGiven(s, i);
    ClaimsReturnWhatWasGiven(s, j);
    assert ClaimFit(s.config, s.readbacks[i], s.tables.operations, s.given)
      && ClaimFit(s.config, s.dispatches[j], s.tables.operations, s.given);
  }

  predicate Dispatched(dispatches: seq<Claim>, operation: string) {
    exists j :: 0 <= j < |dispatches| && dispatches[j].operation == operation
  }

  /** An operation is claimed for dispatch at most once, and every readback follows that claim. */
  lemma DispatchedAtMostOnce(s: System)
    requires Reachable(s)
    ensures forall i, j :: 0 <= i < j < |s.dispatches| ==> s.dispatches[i].operation != s.dispatches[j].operation
    ensures forall i :: 0 <= i < |s.readbacks| ==> Dispatched(s.dispatches, s.readbacks[i].operation)
  {
    hide Reachable, IsSnapshot, RowsFit, RevokedFit, KeysFit, Lawful;
    ReachableFits(s);
    forall i | 0 <= i < |s.readbacks| ensures Dispatched(s.dispatches, s.readbacks[i].operation) {
      FollowsDispatch(s, i);
    }
  }

  lemma FollowsDispatch(s: System, i: nat)
    requires Inv(s) && i < |s.readbacks|
    ensures Dispatched(s.dispatches, s.readbacks[i].operation)
  {
    hide IsSnapshot, RowsFit, RevokedFit, KeysFit;
    assert ClaimFit(s.config, s.readbacks[i], s.tables.operations, s.given);
    var o := s.readbacks[i].operation;
    assert o in s.tables.operations && s.tables.operations[o].generation == 2;
  }

  /** A stored payload always decodes: neither claim ever fails for what it reads. */
  lemma NeverUnreadable(s: System, operation: string, subject: string, lease: string, authority: Authority,
                        sealing: Sealing, now: int)
    requires Reachable(s)
    ensures var x := ClaimDispatch(s.config, s.tables, operation, subject, lease, authority, sealing, now);
      x.Raised? ==> !x.code.DecryptFailed? && !x.code.IntegrityInvalid? && !x.code.PayloadInvalid?
    ensures var x := ClaimReadback(s.config, s.tables, operation, subject, authority, now);
      x.Raised? ==> !x.code.DecryptFailed? && !x.code.IntegrityInvalid? && !x.code.PayloadInvalid?
  {
    hide Reachable, Decode, Readable, IsSnapshot, Lawful, Inv, Name, Hex;
    ReachableFits(s);
    if operation in s.tables.operations {
      RowOf(s, operation);
      ReadableMeans(s.config, operation, s.tables.operations[operation], s.given[operation]);
    }
  }

  /** A state that is not open is final, row and all. */
  lemma TerminalIsFinal(s: System, operation: string, steps: seq<Step>)
    requires Reachable(s) && operation in s.tables.operations && !Open(s.tables.operations[operation].state)
    ensures var t' := Run(s, steps).tables;
      operation in t'.operations && t'.operations[operation] == s.tables.operations[operation]
  {
    hide Reachable, Inv, Lawful, Run;
    ReachableFits(s);
    RunKeeps(s, steps);
    assert RowForward(s.tables.operations[operation], Run(s, steps).tables.operations[operation]);
  }

  /**
   * An expired payload is refused but keeps its row: the denial that is written goes with the rollback. So a denied
   * payload is always one that was dispatched and whose provider reported the denial, and quarantine does not occur.
   */
  lemma ExpiryLeavesNoTrace(s: System, operation: string)
    requires Reachable(s) && operation in s.tables.operations
    ensures s.tables.operations[operation].state.Denied? ==>
      s.tables.operations[operation].generation == 2 && Dispatched(s.dispatches, operation)
    ensures !s.tables.operations[operation].state.Quarantined?
  {
    hide Reachable, Readable, RevokedFit, KeysFit, ClaimsFit, Lawful;
    ReachableFits(s);
    assert RowFit(s.config, operation, s.tables.operations[operation]);
  }

  // ----- revocation -----

  ghost predicate NoClaimFor(claims: seq<Claim>, start: nat, subject: string) {
    forall i :: start <= i < |claims| ==> claims[i].subject != subject
  }

  lemma RevokedStep(s: System, step: Step, subject: string)
    requires Inv(s) && subject in s.tables.revoked
    ensures var s' := Next(s, step);
      && |s.dispatches| <= |s'.dispatches| && NoClaimFor(s'.dispatches, |s.dispatches|, subject)
      && |s.readbacks| <= |s'.readbacks| && NoClaimFor(s'.readbacks, |s.readbacks|, subject)
      && s'.dispatches[..|s.dispatches|] == s.dispatches && s'.readbacks[..|s.readbacks|] == s.readbacks
  {
    hide Inv, Prepare, ClaimDispatch, ClaimReadback, MarkIndeterminate, CommitObservation, RevokeSubject, Decode, Seal;
    match step
    case DoClaim(operation, who, lease, authority, sealing, now) =>
      ClaimMeans(s.config, s.tables, operation, who, lease, authority, sealing, now,
        ClaimDispatch(s.config, s.tables, operation, who, lease, authority, sealing, now));
    case DoReadback(operation, who, authority, now) =>
      ReadbackMeans(s.config, s.tables, operation, who, authority, now,
                    ClaimReadback(s.config, s.tables, operation, who, authority, now));
    case _ =>
  }

  lemma {:induction false} RevokedRun(s: System, subject: string, steps: seq<Step>)
    requires Inv(s) && Lawful(s.config) && subject in s.tables.revoked
    ensures var s' := Run(s, steps);
      && |s.dispatches| <= |s'.dispatches| && NoClaimFor(s'.dispatches, |s.dispatches|, subject)
      && |s.readbacks| <= |s'.readbacks| && NoClaimFor(s'.readbacks, |s.readbacks|, subject)
      && s'.dispatches[..|s.dispatches|] == s.dispatches && s'.readbacks[..|s.readbacks|] == s.readbacks
    ensures forall o ::
      (o in Run(s, steps).tables.operations && Run(s, steps).tables.operations[o].subject == subject) ==>
      !Open(Run(s, steps).tables.operations[o].state)
    decreases |steps|
  {
    hide Lawful, Next, RowForward, RowsFit, KeysFit, ClaimsFit, DispatchesFit;
    if steps != [] {
      var s1 := Next(s, steps[0]);
      RevokedStep(s, steps[0], subject);
      NextKeeps(s, steps[0]);
      RevokedRun(s1, subject, steps[1..]);
      var s' := Run(s1, steps[1..]);
      ClaimsStitch(s.dispatches, s1.dispatches, s'.dispatches, subject);
      ClaimsStitch(s.readbacks, s1.readbacks, s'.readbacks, subject);
    }
  }

  lemma ClaimsStitch(a: seq<Claim>, b: seq<Claim>, c: seq<Claim>, subject: string)
    requires |a| <= |b| <= |c| && NoClaimFor(b, |a|, subject) && NoClaimFor(c, |b|, subject) && c[..|b|] == b
    requires b[..|a|] == a
    ensures NoClaimFor(c, |a|, subject) && c[..|a|] == a
  {
    forall i | |a| <= i < |c| ensures c[i].subject != subject {
      if i < |b| { assert c[i] == c[..|b|][i]; }
    }
    assert c[..|a|] == c[..|b|][..|a|];
  }

  /**
   * Once a subject is revoked nothing of its payloads is claimed again in any run, and none of them is or becomes open.
   */
  lemma RevocationIsFinal(s: System, subject: string, steps: seq<Step>)
    requires Reachable(s) && subject in s.tables.revoked
    ensures NoClaimFor(Run(s, steps).dispatches, |s.dispatches|, subject)
    ensures NoClaimFor(Run(s, steps).readbacks, |s.readbacks|, subject)
    ensures forall o ::
      (o in Run(s, steps).tables.operations && Run(s, steps).tables.operations[o].subject == subject) ==>
      !Open(Run(s, steps).tables.operations[o].state)
  {
    hide Reachable, Inv, Lawful, Run;
    ReachableFits(s);
    RevokedRun(s, subject, steps);
  }

  /** revoke_subject lands whatever the subject's payloads were doing, and logs each one it closed exactly once. */
  lemma RevocationLands(s: System, subject: string, listing: seq<string>, now: int)
    requires Reachable(s) && Name(subject) && Timestamp(now)
    requires forall i, j :: 0 <= i < j < |listing| ==> listing[i] != listing[j]
    requires forall o :: o in s.tables.operations <==> o in listing
    ensures var t := RevokeSubject(s.tables, subject, listing, now).tables;
      && subject in t.revoked
      && (forall o :: o in t.operations && t.operations[o].subject == subject ==> !Open(t.operations[o].state))
      && (forall o ::
        LoggedFrom(t.events, |s.tables.events|, o) == (if Revocable(s.tables.operations, subject, o) then 1 else 0))
  {
    hide Reachable, Inv, RevokeEvents, Lawful;
    var rows, before := s.tables.operations, s.tables.events;
    var more := RevokeEvents(rows, subject, listing, now);
    forall o ensures LoggedFrom(before + more, |before|, o) == (if Revocable(rows, subject, o) then 1 else 0) {
      RevokeLogged(rows, subject, listing, now, o);
      LoggedAppend(before, more, o);
    }
  }

  /** How many events from position start on close the payload of this operation. */
  function LoggedFrom(events: seq<Event>, start: nat, operation: string): nat {
    if |events| <= start then 0 else
    LoggedFrom(events[..|events| - 1], start, operation)
    + (if events[|events| - 1].operation == operation && events[|events| - 1].kind.SubjectRevoked? then 1 else 0)
  }

  lemma {:induction false} LoggedAppend(before: seq<Event>, more: seq<Event>, o: string)
    ensures LoggedFrom(before + more, |before|, o) == LoggedFrom(more, 0, o)
  {
    if more != [] {
      assert (before + more)[..|before + more| - 1] == before + more[..|more| - 1];
      LoggedAppend(before, more[..|more| - 1], o);
    }
  }

  lemma {:induction false} RevokeLogged(rows: map<string, Row>, subject: string, listing: seq<string>, now: int,
                                        o: string)
    requires forall i, j :: 0 <= i < j < |listing| ==> listing[i] != listing[j]
    ensures LoggedFrom(RevokeEvents(rows, subject, listing, now), 0, o)
      == (if o in listing && Revocable(rows, subject, o) then 1 else 0)
  {
    if listing != [] {
      var init, last := listing[..|listing| - 1], listing[|listing| - 1];
      RevokeLogged(rows, subject, init, now, o);
      assert listing == init + [last];
      assert o in listing <==> o in init || o == last;
      var events := RevokeEvents(rows, subject, init, now);
      if Revocable(rows, subject, last) {
        var e := Event(last, SubjectRevoked, rows[last].generation, now);
        assert RevokeEvents(rows, subject, listing, now) == events + [e];
        assert (events + [e])[..|events|] == events;
      } else {
        assert RevokeEvents(rows, subject, listing, now) == events;
      }
    }
  }
}
