/**
 * Whole runs of the OAuth vault: authorizations, refreshes, revocations and their delivery, with provider calls between
 * transactions that may end late or never. The history keeps every refresh token the vault ever stored.
 */
module OAuthRuns {
  import opened Base
  import opened Sealing
  import opened OAuthVault

  /** A refresh token the vault stored, and how it was sealed. */
  datatype Held = Held(owner: Owner, id: string, generation: nat, token: string, scopes: set<string>, keyId: string,
                       ciphertext: string, nonce: nat)

  /** A grant between its two transactions: the row it read and the scopes it asked for. */
  datatype Grant = Grant(owner: Owner, saved: Credential, scopes: set<string>)

  /**
   * exchanged lists the calls of exchange_code; latest is where in held each owner's last token is, sources where in
   * held the token of each outbox entry is.
   */
  datatype System = System(config: Config, vault: Vault, exchanges: map<string, State>, exchanged: seq<string>,
                           grants: map<nat, Grant>, held: seq<Held>, latest: map<Owner, nat>, sources: seq<nat>)

  datatype Step =
    | DoBegin(q: Authorization, state: string, now: int)
    | DoReserve(state: string, code: string, verifier: string, now: int)
    | ExchangeFails(state: string)
    | ExchangeEnds(state: string, result: TokenSet, id: string, sealing: Sealing, now: int)
    | StartGrant(grant: nat, owner: Owner, scopes: seq<string>, authorized: bool, now: int)
    | EndGrant(grant: nat, result: TokenSet, authorized: bool, sealing: Sealing, now: int)
    | DoRevoke(owner: Owner, now: int)
    | DoDeliver(sequence: int)
    | DoAcknowledge(sequence: int, receipt: string)
    | Crash

  function Start(c: Config): System {
    System(c, EMPTY, map[], [], map[], [], map[], [])
  }

  /** The history after a transaction that stored a token for this owner. */
  function Stored(s: System, v: Vault, owner: Owner, token: string, nonce: nat): System
    requires owner in v.credentials
  {
    var row := v.credentials[owner];
    var was := owner in s.vault.credentials && s.vault.credentials[owner].active && owner in s.latest;
    s.(vault := v,
       held := s.held + [Held(owner, row.id, row.generation, token, row.scopes, row.keyId, row.ciphertext, nonce)],
       latest := s.latest[owner := |s.held|], sources := if was then s.sources + [s.latest[owner]] else s.sources)
  }

  /** No other credential has this identifier. */
  predicate FreshId(v: Vault, owner: Owner, id: string) {
    owner in v.credentials || forall o :: o in v.credentials ==> v.credentials[o].id != id
  }

  function Next(s: System, step: Step): System {
    var v := s.vault;
    match step
    case DoBegin(q, state, now) => s.(vault := Begin(s.config, v, q, state, now).vault)
    case DoReserve(state, code, verifier, now) =>
      var x := Reserve(v, state, code, verifier, now);
      if x.Raised? || state !in v.states then s
      else s.(vault := x.vault, exchanges := s.exchanges[state := v.states[state]], exchanged := s.exchanged + [state])
    case ExchangeFails(state) =>
      if state !in s.exchanges then s else s.(vault := MarkIndeterminate(v, state), exchanges := s.exchanges - {state})
    case ExchangeEnds(state, result, id, sealing, now) =>
      if state !in s.exchanges || !FreshId(v, s.exchanges[state].owner, id) then s else
      var saved := s.exchanges[state];
      var x := CommitTokens(s.config, v, state, saved, result, id, sealing, now);
      if x.Raised? || saved.owner !in x.vault.credentials then s.(exchanges := s.exchanges - {state})
      else
        var token := x.vault.credentials[saved.owner].digest;
        Stored(s, x.vault, saved.owner, token, sealing.nonce).(exchanges := s.exchanges - {state})
    case StartGrant(grant, owner, scopes, authorized, now) =>
      var row := ReadGrant(s.config, v, owner, scopes, authorized, now);
      if row.Err? || grant in s.grants then s
      else s.(grants := s.grants[grant := Grant(owner, row.value, ScopeSet(scopes))])
    case EndGrant(grant, result, authorized, sealing, now) =>
      if grant !in s.grants then s else
      var g := s.grants[grant];
      var x := Rotate(s.config, v, g.owner, g.saved, g.scopes, result, authorized, sealing, now);
      if x.Raised? || g.owner !in x.vault.credentials then s.(grants := s.grants - {grant})
      else
        var token := x.vault.credentials[g.owner].digest;
        Stored(s, x.vault, g.owner, token, sealing.nonce).(grants := s.grants - {grant})
    case DoRevoke(owner, now) =>
      var x := Revoke(v, owner, now);
      if x.vault == v || owner !in s.latest then s else s.(vault := x.vault, sources := s.sources + [s.latest[owner]])
    case DoDeliver(sequence) => s.(vault := Deliver(s.config, v, sequence).vault)
    case DoAcknowledge(sequence, receipt) => s.(vault := Acknowledge(v, sequence, receipt).vault)
    case Crash => s.(exchanges := map[], grants := map[])
  }

  function Run(s: System, steps: seq<Step>): System
    decreases |steps|
  {
    if steps == [] then s else Run(Next(s, steps[0]), steps[1..])
  }

  // ----- the invariant -----

  predicate Taken(phase: Phase) {
    phase.Exchanging? || phase.Indeterminate? || phase.Consumed?
  }

  /** A state was exchanged exactly if it left issued by being taken, and only one in exchange has a caller. */
  ghost predicate StatesFit(states: map<string, State>, exchanges: map<string, State>, exchanged: seq<string>) {
    && (forall i :: 0 <= i < |exchanged| ==> exchanged[i] in states && Taken(states[exchanged[i]].phase))
    && (forall i, j :: 0 <= i < j < |exchanged| ==> exchanged[i] != exchanged[j])
    && (forall k :: k in states && Taken(states[k].phase) ==> k in exchanged)
    && (forall k :: k in exchanges ==>
      k in states && states[k].phase.Exchanging? && exchanges[k] == states[k].(phase := Issued))
  }

  /** The ciphertext is this token sealed under the associated data of its generation. */
  predicate IsSealed(c: Config, h: Held) {
    && Secret(h.token)
    && c.cipher.encrypt(h.owner.subject, h.keyId, h.token, Aad(h.id, h.owner, h.scopes, h.generation), h.nonce)
      == Some(h.ciphertext)
  }

  ghost predicate HeldFit(c: Config, held: seq<Held>, credentials: map<Owner, Credential>) {
    && (forall i :: 0 <= i < |held| ==> IsSealed(c, held[i]))
    && (forall i :: 0 <= i < |held| ==> held[i].owner in credentials && held[i].id == credentials[held[i].owner].id)
    && (forall i, j :: 0 <= i < j < |held| && held[i].owner == held[j].owner ==>
      held[i].generation < held[j].generation)
  }

  /** The row is that of its owner's last stored token; revoking it took a generation of its own. */
  predicate RowOf(row: Credential, h: Held) {
    && row.id == h.id && row.scopes == h.scopes && row.keyId == h.keyId && row.ciphertext == h.ciphertext
    && row.digest == h.token
    && row.generation == h.generation + (if row.active then 0 else 1)
  }

  ghost predicate LatestFit(credentials: map<Owner, Credential>, held: seq<Held>, latest: map<Owner, nat>) {
    && latest.Keys == credentials.Keys
    && (forall o :: o in credentials ==>
      latest[o] < |held| && held[latest[o]].owner == o && RowOf(credentials[o], held[latest[o]]))
    && (forall i :: 0 <= i < |held| ==> held[i].owner in latest && i <= latest[held[i].owner])
  }

  predicate EntryFor(e: Entry, h: Held) {
    e.owner == h.owner && e.id == h.id && e.keyId == h.keyId && e.ciphertext == h.ciphertext
      && e.generation == h.generation
  }

  ghost predicate OutboxFit(outbox: seq<Entry>, sources: seq<nat>, held: seq<Held>) {
    && |sources| == |outbox|
    && (forall i :: 0 <= i < |outbox| ==> sources[i] < |held| && EntryFor(outbox[i], held[sources[i]]))
    && (forall i, j :: 0 <= i < j < |sources| ==> sources[i] != sources[j])
  }

  /** The token at this place of the history is the live one of its owner. */
  predicate Live(credentials: map<Owner, Credential>, latest: map<Owner, nat>, held: seq<Held>, n: nat)
    requires n < |held|
  {
    var o := held[n].owner;
    o in credentials && credentials[o].active && o in latest && latest[o] == n
  }

  /** Every stored token is live or queued, and never both. */
  ghost predicate Conserved(credentials: map<Owner, Credential>, latest: map<Owner, nat>, held: seq<Held>,
                            sources: seq<nat>) {
    forall n :: 0 <= n < |held| ==> (Live(credentials, latest, held, n) <==> n !in sources)
  }

  ghost predicate Inv(s: System) {
    && StatesFit(s.vault.states, s.exchanges, s.exchanged)
    && HeldFit(s.config, s.held, s.vault.credentials)
    && LatestFit(s.vault.credentials, s.held, s.latest)
    && OutboxFit(s.vault.outbox, s.sources, s.held)
    && Conserved(s.vault.credentials, s.latest, s.held, s.sources)
  }

  // ----- storing a token -----

  /** What a transaction that stores a token for an owner does to the credentials and the outbox. */
  ghost predicate Stores(c: Config, v: Vault, v': Vault, owner: Owner, token: string, nonce: nat) {
    && owner in v'.credentials && v'.credentials == v.credentials[owner := v'.credentials[owner]]
    && v'.credentials[owner].active && v'.credentials[owner].digest == token
    && v'.credentials[owner].generation == NextGeneration(v, owner)
    && (owner in v.credentials ==> v'.credentials[owner].id == v.credentials[owner].id)
    && v'.outbox == Superseding(v, owner) && Secret(token)
    && (var row := v'.credentials[owner];
        c.cipher.encrypt(owner.subject, row.keyId, token, Aad(row.id, owner, row.scopes, row.generation), nonce)
          == Some(row.ciphertext))
  }

  lemma StoredHeld(s: System, v: Vault, owner: Owner, token: string, nonce: nat)
    requires Inv(s) && Stores(s.config, s.vault, v, owner, token, nonce)
    ensures var s' := Stored(s, v, owner, token, nonce); HeldFit(s.config, s'.held, v.credentials)
  {
    hide Secret, StatesFit, OutboxFit, Conserved, IsSealed, LatestFit;
    var s' := Stored(s, v, owner, token, nonce);
    var h := s'.held[|s.held|];
    NewIsSealed(s, v, owner, token, nonce);
    forall i | 0 <= i < |s.held| && s.held[i].owner == owner ensures s.held[i].generation < h.generation {
      InvParts(s);
      GenerationBehind(s, i);
    }
    HeldGrows(s.config, s.held, s.vault.credentials, v.credentials, owner, h);
  }

  lemma NewIsSealed(s: System, v: Vault, owner: Owner, token: string, nonce: nat)
    requires Stores(s.config, s.vault, v, owner, token, nonce)
    ensures var s' := Stored(s, v, owner, token, nonce); IsSealed(s.config, s'.held[|s.held|])
  {
    hide Secret, Superseding;
  }

  lemma HeldGrows(c: Config, held: seq<Held>, credentials: map<Owner, Credential>, credentials': map<Owner, Credential>,
                  owner: Owner, h: Held)
    requires HeldFit(c, held, credentials) && IsSealed(c, h) && h.owner == owner && owner in credentials'
    requires credentials' == credentials[owner := credentials'[owner]] && h.id == credentials'[owner].id
    requires owner in credentials ==> credentials'[owner].id == credentials[owner].id
    requires forall i :: 0 <= i < |held| && held[i].owner == owner ==> held[i].generation < h.generation
    ensures HeldFit(c, held + [h], credentials')
  {
    hide IsSealed;
  }

  lemma GenerationBehind(s: System, i: nat)
    requires HeldFit(s.config, s.held, s.vault.credentials) && LatestFit(s.vault.credentials, s.held, s.latest)
    requires i < |s.held|
    ensures s.held[i].generation <= s.vault.credentials[s.held[i].owner].generation
  {
    hide IsSealed;
    var last := s.latest[s.held[i].owner];
    assert i == last || s.held[i].generation < s.held[last].generation;
  }

  lemma StoredLatest(s: System, v: Vault, owner: Owner, token: string, nonce: nat)
    requires LatestFit(s.vault.credentials, s.held, s.latest) && Stores(s.config, s.vault, v, owner, token, nonce)
    ensures var s' := Stored(s, v, owner, token, nonce); LatestFit(v.credentials, s'.held, s'.latest)
  {
    hide Secret, Superseding;
  }

  lemma StoredOutbox(s: System, v: Vault, owner: Owner, token: string, nonce: nat)
    requires Inv(s) && Stores(s.config, s.vault, v, owner, token, nonce)
    ensures var s' := Stored(s, v, owner, token, nonce);
      OutboxFit(v.outbox, s'.sources, s'.held) && Conserved(v.credentials, s'.latest, s'.held, s'.sources)
  {
    hide Secret, StatesFit, IsSealed;
    var s' := Stored(s, v, owner, token, nonce);
    if owner in s.vault.credentials && s.vault.credentials[owner].active {
      QueueLatest(s, owner);
      var sources' := s.sources + [s.latest[owner]];
      OutboxWidens(v.outbox, sources', s.held, s'.held[|s.held|]);
      LiveMoves(s, v.credentials, owner, s'.held[|s.held|], sources');
    } else {
      OutboxWidens(v.outbox, s.sources, s.held, s'.held[|s.held|]);
      LiveMoves(s, v.credentials, owner, s'.held[|s.held|], s.sources);
    }
  }

  /** Queueing an owner's live token. */
  lemma QueueLatest(s: System, owner: Owner)
    requires LatestFit(s.vault.credentials, s.held, s.latest) && OutboxFit(s.vault.outbox, s.sources, s.held)
    requires Conserved(s.vault.credentials, s.latest, s.held, s.sources) && owner in s.vault.credentials
    requires s.vault.credentials[owner].active
    ensures owner in s.latest && s.latest[owner] !in s.sources
    ensures OutboxFit(s.vault.outbox + [EntryOf(owner, s.vault.credentials[owner])], s.sources + [s.latest[owner]],
                      s.held)
  {
    assert Live(s.vault.credentials, s.latest, s.held, s.latest[owner]);
  }

  lemma OutboxWidens(outbox: seq<Entry>, sources: seq<nat>, held: seq<Held>, h: Held)
    requires OutboxFit(outbox, sources, held)
    ensures OutboxFit(outbox, sources, held + [h])
  {
  }

  lemma LiveMoves(s: System, credentials: map<Owner, Credential>, owner: Owner, h: Held, sources: seq<nat>)
    requires LatestFit(s.vault.credentials, s.held, s.latest) && OutboxFit(s.vault.outbox, s.sources, s.held)
    requires Conserved(s.vault.credentials, s.latest, s.held, s.sources) && h.owner == owner
    requires owner in credentials && credentials[owner].active
    requires credentials == s.vault.credentials[owner := credentials[owner]]
    requires if owner in s.vault.credentials && s.vault.credentials[owner].active
             then sources == s.sources + [s.latest[owner]] else sources == s.sources
    ensures Conserved(credentials, s.latest[owner := |s.held|], s.held + [h], sources)
  {
    hide EntryFor, RowOf;
    var held', latest' := s.held + [h], s.latest[owner := |s.held|];
    forall n | 0 <= n < |held'| ensures Live(credentials, latest', held', n) <==> n !in sources {
      if n < |s.held| {
        assert held'[n] == s.held[n];
        assert Live(s.vault.credentials, s.latest, s.held, n) <==> n !in s.sources;
        InAppended(s.sources, sources, n);
      }
    }
  }

  lemma InAppended(a: seq<nat>, b: seq<nat>, n: nat)
    ensures |b| == |a| + 1 && b[..|a|] == a ==> (n in b <==> n in a || n == b[|a|])
  {
    if |b| == |a| + 1 && b[..|a|] == a { assert b == a + [b[|a|]]; }
  }

  lemma StoredKeeps(s: System, v: Vault, owner: Owner, token: string, nonce: nat, exchanges: map<string, State>,
                    grants: map<nat, Grant>)
    requires Inv(s) && Stores(s.config, s.vault, v, owner, token, nonce) && StatesFit(v.states, exchanges, s.exchanged)
    ensures Inv(Stored(s, v, owner, token, nonce).(exchanges := exchanges, grants := grants))
  {
    hide Stores, StatesFit, HeldFit, LatestFit, OutboxFit, Conserved;
    StoredHeld(s, v, owner, token, nonce);
    InvParts(s);
    StoredLatest(s, v, owner, token, nonce);
    StoredOutbox(s, v, owner, token, nonce);
    StoresOwner(s, v, owner, token, nonce);
  }

  lemma StoresOwner(s: System, v: Vault, owner: Owner, token: string, nonce: nat)
    requires Stores(s.config, s.vault, v, owner, token, nonce)
    ensures owner in v.credentials
  {
  }

  lemma InvParts(s: System)
    requires Inv(s)
    ensures StatesFit(s.vault.states, s.exchanges, s.exchanged) && HeldFit(s.config, s.held, s.vault.credentials)
    ensures LatestFit(s.vault.credentials, s.held, s.latest) && OutboxFit(s.vault.outbox, s.sources, s.held)
    ensures Conserved(s.vault.credentials, s.latest, s.held, s.sources)
  {
    hide StatesFit, HeldFit, LatestFit, OutboxFit, Conserved;
  }

  // ----- each step -----

  lemma SecretToken(result: TokenSet, account: string, scopes: set<string>, now: int)
    requires TokenFault(result, account, scopes, now).None?
    ensures result.TokenSet? && Secret(result.refresh)
  {
    hide Name, Secret, GoodScopes, ScopeSet;
  }

  lemma SealMeans(c: Config, owner: Owner, token: string, aad: Aad, sealing: Sealing)
    requires Seal(c, owner, token, aad, sealing).Ok?
    ensures sealing.keyId.Some?
    ensures c.cipher.encrypt(owner.subject, sealing.keyId.value, token, aad, sealing.nonce)
      == Some(Seal(c, owner, token, aad, sealing).value)
  {
    hide Name;
  }

  lemma CommitMeans(c: Config, v: Vault, state: string, saved: State, result: TokenSet, id: string, sealing: Sealing,
                    now: int, x: Tx)
    requires x == CommitTokens(c, v, state, saved, result, id, sealing, now)
    ensures x.Raised? ==> x.vault == v
    ensures x.Done? ==>
      && result.TokenSet? && Stores(c, v, x.vault, saved.owner, result.refresh, sealing.nonce)
      && x.vault.credentials[saved.owner].scopes == saved.scopes
      && state in v.states && v.states[state].phase.Exchanging? && now < v.states[state].expires
      && x.vault.states == v.states[state := v.states[state].(phase := Consumed)]
  {
    hide Name, Secret, TokenFault, Superseding, Seal;
    if x.Done? {
      SecretToken(result, saved.owner.account, saved.scopes, now);
      var credential := if saved.owner in v.credentials then v.credentials[saved.owner].id else id;
      SealMeans(c, saved.owner, result.refresh,
                Aad(credential, saved.owner, saved.scopes, NextGeneration(v, saved.owner)), sealing);
    }
  }

  lemma RotateMeans(c: Config, v: Vault, owner: Owner, saved: Credential, scopes: set<string>, result: TokenSet,
                    authorized: bool, sealing: Sealing, now: int, x: Tx)
    requires x == Rotate(c, v, owner, saved, scopes, result, authorized, sealing, now)
    ensures x.Raised? ==> x.vault == v
    ensures x.Done? ==>
      && result.TokenSet? && Stores(c, v, x.vault, owner, result.refresh, sealing.nonce) && x.vault.states == v.states
      && owner in v.credentials && v.credentials[owner].active && v.credentials[owner].generation == saved.generation
      && v.credentials[owner].digest == saved.digest && x.vault.credentials[owner].scopes == v.credentials[owner].scopes
      && x.vault.outbox == v.outbox + [EntryOf(owner, v.credentials[owner])]
  {
    hide Name, Secret, TokenFault, Seal;
    if x.Done? {
      SecretToken(result, owner.account, scopes, now);
      var row := v.credentials[owner];
      SealMeans(c, owner, result.refresh, Aad(row.id, owner, row.scopes, row.generation + 1), sealing);
    }
  }

  lemma EndExchangeStep(s: System, state: string, result: TokenSet, id: string, sealing: Sealing, now: int)
    requires Inv(s)
    ensures Inv(Next(s, ExchangeEnds(state, result, id, sealing, now)))
  {
    hide HeldFit, LatestFit, OutboxFit, Conserved, CommitTokens, FreshId;
    if state in s.exchanges && FreshId(s.vault, s.exchanges[state].owner, id) {
      var saved := s.exchanges[state];
      var x := CommitTokens(s.config, s.vault, state, saved, result, id, sealing, now);
      CommitMeans(s.config, s.vault, state, saved, result, id, sealing, now, x);
      StatesEnd(s.vault.states, s.exchanges, s.exchanged, state, Consumed);
      if x.Done? {
        assert x.vault.credentials[saved.owner].digest == result.refresh;
        hide Stores;
        StoredKeeps(s, x.vault, saved.owner, result.refresh, sealing.nonce, s.exchanges - {state}, s.grants);
      }
    }
  }

  /** A caller that leaves its state in exchange, or moves it on. */
  lemma StatesEnd(states: map<string, State>, exchanges: map<string, State>, exchanged: seq<string>, state: string,
                  phase: Phase)
    requires StatesFit(states, exchanges, exchanged) && state in exchanges && Taken(phase)
    ensures state in states && StatesFit(states, exchanges - {state}, exchanged)
    ensures StatesFit(states[state := states[state].(phase := phase)], exchanges - {state}, exchanged)
  {
  }

  lemma ReserveStep(s: System, state: string, code: string, verifier: string, now: int)
    requires Inv(s)
    ensures Inv(Next(s, DoReserve(state, code, verifier, now)))
  {
    hide HeldFit, LatestFit, OutboxFit, Conserved, Secret, GoodVerifier;
    var x := Reserve(s.vault, state, code, verifier, now);
    if x.Done? {
      var states := s.vault.states;
      assert state !in s.exchanged;
      StatesTaken(states, s.exchanges, s.exchanged, state);
    }
  }

  lemma StatesTaken(states: map<string, State>, exchanges: map<string, State>, exchanged: seq<string>, state: string)
    requires StatesFit(states, exchanges, exchanged) && state in states && states[state].phase.Issued?
    ensures StatesFit(states[state := states[state].(phase := Exchanging)], exchanges[state := states[state]],
                      exchanged + [state])
  {
    var states', exchanged' := states[state := states[state].(phase := Exchanging)], exchanged + [state];
    forall k | k in states' && Taken(states'[k].phase) ensures k in exchanged' {
      if k == state { assert exchanged'[|exchanged|] == k; } else { assert k in exchanged; }
    }
  }

  lemma BeginStep(s: System, q: Authorization, state: string, now: int)
    requires Inv(s)
    ensures Inv(Next(s, DoBegin(q, state, now)))
  {
    hide HeldFit, LatestFit, OutboxFit, Conserved, AuthorizationFault, ScopeSet, StatesFit, Expire;
    var x := Begin(s.config, s.vault, q, state, now);
    if x.Done? {
      StatesBegin(s.vault.states, s.exchanges, s.exchanged, now, state, x.vault.states[state]);
    }
  }

  lemma StatesBegin(states: map<string, State>, exchanges: map<string, State>, exchanged: seq<string>, now: int,
                    state: string, row: State)
    requires StatesFit(states, exchanges, exchanged) && state !in states && row.phase.Issued?
    ensures StatesFit(Expire(states, now)[state := row], exchanges, exchanged)
  {
  }

  lemma EndGrantStep(s: System, grant: nat, result: TokenSet, authorized: bool, sealing: Sealing, now: int)
    requires Inv(s)
    ensures Inv(Next(s, EndGrant(grant, result, authorized, sealing, now)))
  {
    hide HeldFit, LatestFit, OutboxFit, Conserved, StatesFit, Rotate;
    if grant in s.grants {
      var g := s.grants[grant];
      var x := Rotate(s.config, s.vault, g.owner, g.saved, g.scopes, result, authorized, sealing, now);
      RotateMeans(s.config, s.vault, g.owner, g.saved, g.scopes, result, authorized, sealing, now, x);
      if x.Done? {
        assert x.vault.credentials[g.owner].digest == result.refresh;
        hide Stores;
        StoredKeeps(s, x.vault, g.owner, result.refresh, sealing.nonce, s.exchanges, s.grants - {grant});
      }
    }
  }

  lemma RevokeStep(s: System, owner: Owner, now: int)
    requires Inv(s)
    ensures Inv(Next(s, DoRevoke(owner, now)))
  {
    hide StatesFit, Name, ProviderName, HeldFit, OutboxFit, Conserved, LatestFit;
    var x := Revoke(s.vault, owner, now);
    if x.vault != s.vault {
      var row := s.vault.credentials[owner];
      QueueLatest(s, owner);
      RevokedHistory(s, owner, row.(active := false, generation := row.generation + 1, updated := now));
    }
  }

  lemma RevokedHistory(s: System, owner: Owner, row: Credential)
    requires Inv(s) && owner in s.vault.credentials && s.vault.credentials[owner].active && owner in s.latest
    requires row
      == s.vault.credentials[owner].(active := false, generation := s.vault.credentials[owner].generation + 1,
                                     updated := row.updated)
    ensures var credentials := s.vault.credentials[owner := row];
      && HeldFit(s.config, s.held, credentials) && LatestFit(credentials, s.held, s.latest)
      && Conserved(credentials, s.latest, s.held, s.sources + [s.latest[owner]])
  {
    hide StatesFit, OutboxFit, IsSealed;
    var credentials := s.vault.credentials[owner := row];
    forall n | 0 <= n < |s.held|
      ensures Live(credentials, s.latest, s.held, n) <==> n !in s.sources + [s.latest[owner]]
    {
      assert Live(s.vault.credentials, s.latest, s.held, n) <==> n !in s.sources;
      InAppended(s.sources, s.sources + [s.latest[owner]], n);
    }
  }

  lemma OutboxStep(s: System, sequence: nat, e: Entry)
    requires Inv(s) && 1 <= sequence <= |s.vault.outbox|
    requires e
      == s.vault.outbox[sequence - 1].(acknowledged := e.acknowledged, attempts := e.attempts, receipt := e.receipt)
    ensures Inv(s.(vault := s.vault.(outbox := s.vault.outbox[sequence - 1 := e])))
  {
    hide StatesFit, HeldFit, Conserved, LatestFit;
  }

  lemma DeliveryStep(s: System, step: Step)
    requires Inv(s) && (step.DoDeliver? || step.DoAcknowledge?)
    ensures Inv(Next(s, step))
  {
    hide Inv, Decrypt, Name;
    match step
    case DoDeliver(sequence) =>
      var x := Deliver(s.config, s.vault, sequence);
      if x.Done? { OutboxStep(s, sequence, x.vault.outbox[sequence - 1]); }
    case DoAcknowledge(sequence, receipt) =>
      var x := Acknowledge(s.vault, sequence, receipt);
      if x.Done? { OutboxStep(s, sequence, x.vault.outbox[sequence - 1]); }
  }

  lemma NextKeeps(s: System, step: Step)
    requires Inv(s)
    ensures Inv(Next(s, step)) && Next(s, step).config == s.config
  {
    hide HeldFit, LatestFit, OutboxFit, Conserved, Begin, Reserve, CommitTokens, Rotate, Revoke, Deliver, Acknowledge,
      ReadGrant;
    match step
    case DoBegin(q, state, now) => BeginStep(s, q, state, now);
    case DoReserve(state, code, verifier, now) => ReserveStep(s, state, code, verifier, now);
    case ExchangeFails(state) => if state in s.exchanges {
      StatesEnd(s.vault.states, s.exchanges, s.exchanged, state, Indeterminate);
    }
    case ExchangeEnds(state, result, id, sealing, now) => EndExchangeStep(s, state, result, id, sealing, now);
    case StartGrant(grant, owner, scopes, authorized, now) =>
    case EndGrant(grant, result, authorized, sealing, now) => EndGrantStep(s, grant, result, authorized, sealing, now);
    case DoRevoke(owner, now) => RevokeStep(s, owner, now);
    case DoDeliver(sequence) => DeliveryStep(s, step);
    case DoAcknowledge(sequence, receipt) => DeliveryStep(s, step);
    case Crash =>
  }

  lemma {:induction false} RunKeeps(s: System, steps: seq<Step>)
    requires Inv(s)
    ensures Inv(Run(s, steps)) && Run(s, steps).config == s.config
    decreases |steps|
  {
    hide Inv, Next;
    if steps != [] {
      NextKeeps(s, steps[0]);
      RunKeeps(Next(s, steps[0]), steps[1..]);
    }
  }
}
