/**
 * What every run of the OAuth vault promises about its refresh tokens, and which queued revocations can be delivered.
 */
module OAuthTheorems {
  import opened Base
  import opened Sealing
  import opened OAuthVault
  import opened OAuthRuns

  /** The systems some run reaches from an empty vault. */
  ghost predicate Reachable(s: System) {
    exists steps :: s == Run(Start(s.config), steps)
  }

  lemma ReachableFits(s: System)
    requires Reachable(s)
    ensures Inv(s)
  {
    hide Run;
    var steps :| s == Run(Start(s.config), steps);
    StartFits(s.config);
    RunKeeps(Start(s.config), steps);
  }

  lemma StartFits(c: Config)
    ensures Inv(Start(c))
  {
  }

  // ----- conservation -----

  predicate EverHeld(s: System, owner: Owner, generation: nat) {
    exists n :: 0 <= n < |s.held| && s.held[n].owner == owner && s.held[n].generation == generation
  }

  predicate Queued(v: Vault, owner: Owner, generation: nat) {
    exists i :: 0 <= i < |v.outbox| && v.outbox[i].owner == owner && v.outbox[i].generation == generation
  }

  predicate Current(v: Vault, owner: Owner, generation: nat) {
    owner in v.credentials && v.credentials[owner].active && v.credentials[owner].generation == generation
  }

  /**
   * The generations that ever held a stored refresh token are exactly those of the outbox and the current one of an
   * active credential; no generation is in both, and none is queued twice.
   */
  lemma GenerationsConserved(s: System, owner: Owner, generation: nat)
    requires Reachable(s)
    ensures EverHeld(s, owner, generation) <==>
      Queued(s.vault, owner, generation) || Current(s.vault, owner, generation)
    ensures !(Queued(s.vault, owner, generation) && Current(s.vault, owner, generation))
    ensures forall i, j :: 0 <= i < j < |s.vault.outbox| && s.vault.outbox[i].owner == s.vault.outbox[j].owner ==>
      s.vault.outbox[i].generation != s.vault.outbox[j].generation
  {
    hide Reachable, StatesFit, IsSealed;
    ReachableFits(s);
    if EverHeld(s, owner, generation) {
      var n :| 0 <= n < |s.held| && s.held[n].owner == owner && s.held[n].generation == generation;
      HeldSomewhere(s, n);
    }
    if Current(s.vault, owner, generation) { CurrentHeld(s, owner); }
    if Queued(s.vault, owner, generation) {
      var i :| 0 <= i < |s.vault.outbox| && s.vault.outbox[i].owner == owner
        && s.vault.outbox[i].generation == generation;
      QueuedHeld(s, i);
    }
    hide LatestFit, Conserved;
    forall i, j | 0 <= i < j < |s.vault.outbox| && s.vault.outbox[i].owner == s.vault.outbox[j].owner
      ensures s.vault.outbox[i].generation != s.vault.outbox[j].generation
    {
      QueuedOnce(s, i, j);
    }
  }

  lemma HeldSomewhere(s: System, n: nat)
    requires Inv(s) && n < |s.held|
    ensures Queued(s.vault, s.held[n].owner, s.held[n].generation)
      || Current(s.vault, s.held[n].owner, s.held[n].generation)
  {
    hide StatesFit, HeldFit;
    if Live(s.vault.credentials, s.latest, s.held, n) {
      assert RowOf(s.vault.credentials[s.held[n].owner], s.held[n]);
    } else {
      var i :| 0 <= i < |s.sources| && s.sources[i] == n;
      assert EntryFor(s.vault.outbox[i], s.held[n]);
    }
  }

  lemma CurrentHeld(s: System, owner: Owner)
    requires Inv(s) && owner in s.vault.credentials && s.vault.credentials[owner].active
    ensures EverHeld(s, owner, s.vault.credentials[owner].generation)
  {
    hide StatesFit, HeldFit, OutboxFit, Conserved;
    assert RowOf(s.vault.credentials[owner], s.held[s.latest[owner]]);
  }

  lemma QueuedHeld(s: System, i: nat)
    requires Inv(s) && i < |s.vault.outbox|
    ensures var e := s.vault.outbox[i]; EverHeld(s, e.owner, e.generation) && !Current(s.vault, e.owner, e.generation)
  {
    hide StatesFit, IsSealed;
    var n := s.sources[i];
    assert EntryFor(s.vault.outbox[i], s.held[n]) && n in s.sources;
    assert !Live(s.vault.credentials, s.latest, s.held, n);
  }

  lemma QueuedOnce(s: System, i: nat, j: nat)
    requires Inv(s) && i < j < |s.vault.outbox| && s.vault.outbox[i].owner == s.vault.outbox[j].owner
    ensures s.vault.outbox[i].generation != s.vault.outbox[j].generation
  {
    hide StatesFit, IsSealed, LatestFit, Conserved;
    var m, n := s.sources[i], s.sources[j];
    assert EntryFor(s.vault.outbox[i], s.held[m]) && EntryFor(s.vault.outbox[j], s.held[n]);
  }

  // ----- forward -----

  /**
   * A credential keeps its identifier, and its generation grows with every token it stores and with every revocation.
   */
  ghost predicate CredentialsForward(a: map<Owner, Credential>, b: map<Owner, Credential>) {
    forall o :: o in a ==>
      && o in b && b[o].id == a[o].id && a[o].generation <= b[o].generation && b[o].created == a[o].created
      && (b[o].generation == a[o].generation ==> b[o] == a[o])
  }

  predicate Later(a: Phase, b: Phase) {
    a == b || (a.Issued? && !b.Issued?) || (a.Exchanging? && (b.Indeterminate? || b.Consumed?))
  }

  ghost predicate StatesForward(a: map<string, State>, b: map<string, State>) {
    forall k :: k in a ==> k in b && Later(a[k].phase, b[k].phase) && b[k] == a[k].(phase := b[k].phase)
  }

  ghost predicate Forward(s: System, s': System) {
    && CredentialsForward(s.vault.credentials, s'.vault.credentials) && StatesForward(s.vault.states, s'.vault.states)
    && |s.held| <= |s'.held| && s'.held[..|s.held|] == s.held
    && |s.exchanged| <= |s'.exchanged| && s'.exchanged[..|s.exchanged|] == s.exchanged
  }

  lemma Resting(s: System)
    ensures Forward(s, s)
  {
  }

  lemma ForwardTransitive(a: System, b: System, c: System)
    requires Forward(a, b) && Forward(b, c)
    ensures Forward(a, c)
  {
    assert c.held[..|a.held|] == b.held[..|a.held|];
    assert c.exchanged[..|a.exchanged|] == b.exchanged[..|a.exchanged|];
  }

  lemma TransactionsForward(c: Config, v: Vault, step: Step)
    ensures step.DoBegin? ==> StatesForward(v.states, Begin(c, v, step.q, step.state, step.now).vault.states)
    ensures step.DoReserve? ==>
      StatesForward(v.states, Reserve(v, step.state, step.code, step.verifier, step.now).vault.states)
    ensures step.ExchangeFails? ==> StatesForward(v.states, MarkIndeterminate(v, step.state).states)
    ensures step.DoRevoke? ==> CredentialsForward(v.credentials, Revoke(v, step.owner, step.now).vault.credentials)
    ensures StatesForward(v.states, v.states) && CredentialsForward(v.credentials, v.credentials)
  {
    hide AuthorizationFault, Secret, GoodVerifier, Name, ProviderName, ScopeSet;
  }

  lemma CommitForward(c: Config, v: Vault, state: string, saved: State, result: TokenSet, id: string, sealing: Sealing,
                      now: int)
    ensures var v' := CommitTokens(c, v, state, saved, result, id, sealing, now).vault;
      StatesForward(v.states, v'.states) && CredentialsForward(v.credentials, v'.credentials)
  {
    hide TokenFault, Seal, Superseding;
  }

  lemma RotateForward(c: Config, v: Vault, owner: Owner, saved: Credential, scopes: set<string>, result: TokenSet,
                      authorized: bool, sealing: Sealing, now: int)
    ensures var v' := Rotate(c, v, owner, saved, scopes, result, authorized, sealing, now).vault;
      v'.states == v.states && CredentialsForward(v.credentials, v'.credentials)
  {
    hide TokenFault, Seal;
  }

  lemma NextForward(s: System, step: Step)
    ensures Forward(s, Next(s, step))
  {
    hide StatesForward, CredentialsForward, Begin, Reserve, CommitTokens, Rotate, Revoke, Deliver, Acknowledge,
      ReadGrant, FreshId, MarkIndeterminate;
    TransactionsForward(s.config, s.vault, step);
    match step
    case DoBegin(q, state, now) => SameCredentials(s.config, s.vault, step);
    case DoReserve(state, code, verifier, now) => SameCredentials(s.config, s.vault, step);
    case ExchangeFails(state) => SameCredentials(s.config, s.vault, step);
    case ExchangeEnds(state, result, id, sealing, now) => if state in s.exchanges {
      CommitForward(s.config, s.vault, state, s.exchanges[state], result, id, sealing, now);
    }
    case EndGrant(grant, result, authorized, sealing, now) => if grant in s.grants {
      var g := s.grants[grant];
      RotateForward(s.config, s.vault, g.owner, g.saved, g.scopes, result, authorized, sealing, now);
    }
    case DoRevoke(owner, now) => SameStates(s.config, s.vault, step);
    case DoDeliver(sequence) => SameStates(s.config, s.vault, step);
    case DoAcknowledge(sequence, receipt) => SameStates(s.config, s.vault, step);
    case _ =>
  }

  lemma SameCredentials(c: Config, v: Vault, step: Step)
    ensures step.DoBegin? ==> Begin(c, v, step.q, step.state, step.now).vault.credentials == v.credentials
    ensures step.DoReserve? ==>
      Reserve(v, step.state, step.code, step.verifier, step.now).vault.credentials == v.credentials
    ensures step.ExchangeFails? ==> MarkIndeterminate(v, step.state).credentials == v.credentials
  {
    hide AuthorizationFault, Secret, GoodVerifier;
  }

  lemma SameStates(c: Config, v: Vault, step: Step)
    ensures step.DoRevoke? ==> Revoke(v, step.owner, step.now).vault.states == v.states
    ensures step.DoDeliver? ==> var v' := Deliver(c, v, step.sequence).vault;
      v'.states == v.states && v'.credentials == v.credentials
    ensures step.DoAcknowledge? ==> var v' := Acknowledge(v, step.sequence, step.receipt).vault;
      v'.states == v.states && v'.credentials == v.credentials
  {
    hide Name, ProviderName, Decrypt;
  }

  lemma {:induction false} RunForward(s: System, steps: seq<Step>)
    ensures Forward(s, Run(s, steps))
    decreases |steps|
  {
    hide Next, Forward;
    Resting(s);
    if steps != [] {
      var s1 := Next(s, steps[0]);
      NextForward(s, steps[0]);
      RunForward(s1, steps[1..]);
      ForwardTransitive(s, s1, Run(s1, steps[1..]));
    }
  }

  // ----- authorizations -----

  /** An authorization state reaches the provider's exchange at most once, and is never usable again after it. */
  lemma ExchangedAtMostOnce(s: System, steps: seq<Step>)
    requires Reachable(s)
    ensures forall i, j :: 0 <= i < j < |s.exchanged| ==> s.exchanged[i] != s.exchanged[j]
    ensures forall k :: k in s.exchanged ==>
      k in Run(s, steps).vault.states && Taken(Run(s, steps).vault.states[k].phase)
    ensures forall k :: k in s.vault.states && Taken(s.vault.states[k].phase) ==> k in s.exchanged
  {
    hide Reachable, HeldFit, LatestFit, OutboxFit, Conserved, CredentialsForward, Run;
    ReachableFits(s);
    RunForward(s, steps);
  }

  // ----- grants -----

  /** Every stored token of an active credential reads back; a grant never fails for what it decrypts. */
  lemma ActiveReads(s: System, owner: Owner)
    requires Reachable(s) && LawfulCipher(s.config.cipher) && owner in s.vault.credentials
    requires s.vault.credentials[owner].active
    ensures Decrypt(s.config, owner, s.vault.credentials[owner]) == Ok(s.vault.credentials[owner].digest)
  {
    hide Reachable, StatesFit, OutboxFit, Conserved, Secret;
    ReachableFits(s);
    assert RowOf(s.vault.credentials[owner], s.held[s.latest[owner]]);
    assert IsSealed(s.config, s.held[s.latest[owner]]);
  }

  /**
   * A grant whose credential was rotated, re-authorized or revoked since it read it releases nothing and stores
   * nothing.
   */
  lemma StaleGrantFails(s: System, steps: seq<Step>, owner: Owner, saved: Credential, scopes: set<string>,
                        result: TokenSet, authorized: bool, sealing: Sealing, now: int)
    requires owner in s.vault.credentials && saved.generation < s.vault.credentials[owner].generation
    ensures var s' := Run(s, steps);
      Rotate(s'.config, s'.vault, owner, saved, scopes, result, authorized, sealing, now).Raised?
  {
    hide Run, TokenFault, Seal;
    RunForward(s, steps);
  }

  // ----- which revocations can be delivered -----

  /** The token a queued entry holds and the scopes it was sealed under. */
  function HeldBy(s: System, i: nat): Held
    requires i < |s.sources| && s.sources[i] < |s.held|
  {
    s.held[s.sources[i]]
  }

  /**
   * Delivery reaches the provider exactly for an entry whose token and scopes are still those of the credential's row.
   */
  lemma DeliverableIff(s: System, i: nat)
    requires Reachable(s) && i < |s.vault.outbox| && !s.vault.outbox[i].acknowledged
    requires LawfulCipher(s.config.cipher) && BindingCipher(s.config.cipher)
    ensures i < |s.sources| && s.sources[i] < |s.held| && s.vault.outbox[i].owner in s.vault.credentials
    ensures var row := s.vault.credentials[s.vault.outbox[i].owner];
      Deliver(s.config, s.vault, i + 1).Done? <==> HeldBy(s, i).token == row.digest && HeldBy(s, i).scopes == row.scopes
  {
    hide Reachable, StatesFit, LatestFit, Conserved, Secret, LawfulCipher, BindingCipher, Decrypt;
    ReachableFits(s);
    var h, e := HeldBy(s, i), s.vault.outbox[i];
    assert EntryFor(e, h) && IsSealed(s.config, h);
    Unsealed(s.config, h, Original(s.vault, e));
  }

  /** Decrypting a held token's ciphertext under a row's scopes and digest. */
  lemma Unsealed(c: Config, h: Held, row: Credential)
    requires IsSealed(c, h) && LawfulCipher(c.cipher) && BindingCipher(c.cipher)
    requires row.id == h.id && row.keyId == h.keyId && row.ciphertext == h.ciphertext && row.generation == h.generation
    ensures Decrypt(c, h.owner, row).Ok? <==> h.token == row.digest && h.scopes == row.scopes
    ensures Decrypt(c, h.owner, row).Ok? ==> Decrypt(c, h.owner, row).value == h.token
  {
    hide Secret;
    var sealed, asked := Aad(h.id, h.owner, h.scopes, h.generation), Aad(row.id, h.owner, row.scopes, row.generation);
    assert c.cipher.encrypt(h.owner.subject, h.keyId, h.token, sealed, h.nonce) == Some(h.ciphertext);
    if h.scopes == row.scopes {
      assert asked == sealed;
    } else {
      assert asked != sealed;
    }
  }

  /** So the token a revocation queues can be delivered as long as nobody authorizes that owner again. */
  lemma RevokedIsDeliverable(s: System, owner: Owner, now: int)
    requires Reachable(s) && LawfulCipher(s.config.cipher) && BindingCipher(s.config.cipher)
    requires owner in s.vault.credentials && s.vault.credentials[owner].active && Revoke(s.vault, owner, now).Done?
    requires Name(owner.subject) && Name(owner.account) && ProviderName(owner.provider)
    ensures var v := Revoke(s.vault, owner, now).vault;
      |v.outbox| == |s.vault.outbox| + 1 && Deliver(s.config, v, |v.outbox|).Done?
  {
    hide Reachable, Secret, Name, ProviderName, StatesFit, OutboxFit, Conserved, LawfulCipher, BindingCipher, Decrypt;
    ReachableFits(s);
    var v, h := Revoke(s.vault, owner, now).vault, s.held[s.latest[owner]];
    assert RowOf(s.vault.credentials[owner], h) && IsSealed(s.config, h);
    Unsealed(s.config, h, Original(v, v.outbox[|s.vault.outbox|]));
  }

  /**
   * But a token a refresh replaced by another is queued for a revocation that cannot be delivered, and one the provider
   * returned unchanged is queued for a revocation that would reach the live token.
   */
  lemma RotatedIsNot(s: System, owner: Owner, saved: Credential, scopes: set<string>, result: TokenSet,
                     authorized: bool, sealing: Sealing, now: int)
    requires Reachable(s) && LawfulCipher(s.config.cipher) && BindingCipher(s.config.cipher)
    requires Rotate(s.config, s.vault, owner, saved, scopes, result, authorized, sealing, now).Done?
    ensures var v := Rotate(s.config, s.vault, owner, saved, scopes, result, authorized, sealing, now).vault;
      && |v.outbox| == |s.vault.outbox| + 1 && result.TokenSet? && owner in v.credentials && v.credentials[owner].active
      && (Deliver(s.config, v, |v.outbox|).Done? <==> result.refresh == saved.digest)
      && (Deliver(s.config, v, |v.outbox|).Done? ==>
            Decrypt(s.config, owner, Original(v, v.outbox[|s.vault.outbox|])) == Ok(v.credentials[owner].digest))
  {
    hide Reachable, Secret, Rotate, StatesFit, OutboxFit, Conserved, LawfulCipher, BindingCipher, Decrypt, Superseding;
    ReachableFits(s);
    var x := Rotate(s.config, s.vault, owner, saved, scopes, result, authorized, sealing, now);
    RotateMeans(s.config, s.vault, owner, saved, scopes, result, authorized, sealing, now, x);
    var v, h := x.vault, s.held[s.latest[owner]];
    assert RowOf(s.vault.credentials[owner], h) && IsSealed(s.config, h);
    assert v.outbox[|s.vault.outbox|] == EntryOf(owner, s.vault.credentials[owner]);
    Unsealed(s.config, h, Original(v, v.outbox[|s.vault.outbox|]));
  }
}
