/**
 * The OAuth vault as it runs: states, credentials and outbox updated statement by statement inside a transaction, put
 * back when it raises. Each method is one transaction of oauth_vault.py, proved against its function.
 */
module DurableVault {
  import opened Base
  import opened Sealing
  import opened OAuthVault

  function ErrorOf(x: Tx): Option<Code> {
    match x
    case Done(_) => None
    case Raised(_, code) => Some(code)
  }

  class DurableOAuthVault {
    const config: Config
    var states: map<string, State>
    var credentials: map<Owner, Credential>
    var outbox: seq<Entry>

    function View(): Vault
      reads this
    {
      Vault(states, credentials, outbox)
    }

    constructor (config: Config)
      ensures this.config == config && View() == EMPTY
    {
      this.config := config;
      states, credentials, outbox := map[], map[], [];
    }

    method Rollback(saved: Vault)
      modifies this
      ensures View() == saved
    {
      states, credentials, outbox := saved.states, saved.credentials, saved.outbox;
    }

    method Begin(q: Authorization, state: string, now: int) returns (error: Option<Code>)
      modifies this
      ensures var x := OAuthVault.Begin(config, old(View()), q, state, now); View() == x.vault && error == ErrorOf(x)
    {
      hide AuthorizationFault, ScopeSet;
      error := AuthorizationFault(config, q);
      if error.Some? { return; }
      AuthorizationWhole(config, q);
      if !Timestamp(now) { return Some(ClockInvalid); }
      if !(now < q.expires <= 253402300799 && q.expires <= now + 600) { return Some(ExpiryInvalid); }
      if |states| >= config.maxStates { return Some(StateCapacity); }
      var saved := View();
      states := Expire(states, now);
      if state in states {
        Rollback(saved);
        return Some(IntegrityError);
      }
      states :=
        states[state := State(q.owner, q.redirect, ScopeSet(q.scopes), q.challenge.value, q.expires, Issued, now)];
    }

    /** complete_authorization up to the exchange. */
    method Reserve(state: string, code: string, verifier: string, now: int) returns (error: Option<Code>)
      modifies this
      ensures var x := OAuthVault.Reserve(old(View()), state, code, verifier, now);
        View() == x.vault && error == ErrorOf(x)
    {
      hide Secret, GoodVerifier;
      if !Secret(state) { return Some(StateInvalid); }
      if !Secret(code) { return Some(CodeInvalid); }
      if !Secret(verifier) || !GoodVerifier(verifier) { return Some(VerifierInvalid); }
      if !Timestamp(now) { return Some(ClockInvalid); }
      var saved := View();
      if state !in states || !states[state].phase.Issued? { return Some(StateReplayed); }
      var row := states[state];
      if row.expires <= now {
        states := states[state := row.(phase := Phase.Expired)];
        Rollback(saved);
        return Some(StateExpired);
      }
      if row.challenge != Challenge(verifier) { return Some(PkceMismatch); }
      states := states[state := row.(phase := Exchanging)];
      error := None;
    }

    method MarkIndeterminate(state: string)
      modifies this`states
      ensures View() == OAuthVault.MarkIndeterminate(old(View()), state)
    {
      if state in states && states[state].phase.Exchanging? {
        states := states[state := states[state].(phase := Indeterminate)];
      }
    }

    /** _queue_revoke. */
    method QueueRevoke(owner: Owner)
      requires owner in credentials
      modifies this`outbox
      ensures outbox == old(outbox) + [EntryOf(owner, credentials[owner])]
    {
      outbox := outbox + [EntryOf(owner, credentials[owner])];
    }

    /** _commit_token_set. */
    method CommitTokens(state: string, saved: State, result: TokenSet, id: string, sealing: Sealing,
                        now: int) returns (error: Option<Code>)
      modifies this
      ensures var x := OAuthVault.CommitTokens(config, old(View()), state, saved, result, id, sealing, now);
        View() == x.vault && error == ErrorOf(x)
    {
      hide TokenFault, Seal;
      if !Timestamp(now) { return Some(ClockInvalid); }
      if state !in states || !states[state].phase.Exchanging? || states[state].owner.subject != saved.owner.subject
         || states[state].owner.provider != saved.owner.provider || states[state].expires <= now {
        return Some(AuthorityExpired);
      }
      error := TokenFault(result, saved.owner.account, saved.scopes, now);
      if error.Some? { return; }
      TokensWhole(result, saved.owner.account, saved.scopes, now);
      var owner := saved.owner;
      if owner !in credentials && |credentials| >= config.maxCredentials { return Some(CredentialCapacity); }
      var credential, generation, created := id, 1, now;
      if owner in credentials {
        credential, generation, created := credentials[owner].id, credentials[owner].generation + 1,
          credentials[owner].created;
      }
      var sealed := Seal(config, owner, result.refresh, Aad(credential, owner, saved.scopes, generation), sealing);
      if sealed.Err? { return Some(sealed.code); }
      if sealed.value == "" { return Some(EncryptFailed); }
      SealedKey(config, owner, result.refresh, Aad(credential, owner, saved.scopes, generation), sealing);
      if owner in credentials && credentials[owner].active { QueueRevoke(owner); }
      credentials :=
        credentials[owner :=
          Credential(credential, saved.scopes, sealing.keyId.value, sealed.value, result.refresh, generation, true,
                     result.receipt, created, now)];
      states := states[state := states[state].(phase := Consumed)];
      error := None;
    }

    /** The closing transaction of grant_access. */
    method Rotate(owner: Owner, saved: Credential, scopes: set<string>, result: TokenSet, authorized: bool,
                  sealing: Sealing, now: int)
      returns (error: Option<Code>)
      modifies this
      ensures var x := OAuthVault.Rotate(config, old(View()), owner, saved, scopes, result, authorized, sealing, now);
        View() == x.vault && error == ErrorOf(x)
    {
      hide TokenFault, Seal;
      if !Timestamp(now) { return Some(ClockInvalid); }
      if owner !in credentials || credentials[owner].id != saved.id || !credentials[owner].active
         || credentials[owner].generation != saved.generation || credentials[owner].digest != saved.digest {
        return Some(AuthorityRevoked);
      }
      if !authorized { return Some(Unauthorized); }
      error := TokenFault(result, owner.account, scopes, now);
      if error.Some? { return; }
      TokensWhole(result, owner.account, scopes, now);
      var before, row := View(), credentials[owner];
      QueueRevoke(owner);
      var sealed := Seal(config, owner, result.refresh, Aad(row.id, owner, row.scopes, row.generation + 1), sealing);
      if sealed.Err? {
        Rollback(before);
        return Some(sealed.code);
      }
      SealedKey(config, owner, result.refresh, Aad(row.id, owner, row.scopes, row.generation + 1), sealing);
      credentials :=
        credentials[owner :=
          row.(keyId := sealing.keyId.value, ciphertext := sealed.value, digest := result.refresh,
               generation := row.generation + 1, receipt := result.receipt, updated := now)];
    }

    method Revoke(owner: Owner, now: int) returns (error: Option<Code>)
      modifies this
      ensures var x := OAuthVault.Revoke(old(View()), owner, now); View() == x.vault && error == ErrorOf(x)
    {
      hide Name, ProviderName;
      if !Name(owner.subject) || !Name(owner.account) { return Some(BindingInvalid); }
      if !ProviderName(owner.provider) { return Some(ProviderInvalid); }
      if owner !in credentials || !credentials[owner].active { return None; }
      var saved := View();
      QueueRevoke(owner);
      if !Timestamp(now) {
        Rollback(saved);
        return Some(ClockInvalid);
      }
      var row := credentials[owner];
      credentials := credentials[owner := row.(active := false, generation := row.generation + 1, updated := now)];
      error := None;
    }

    /** deliver_revocation up to the provider call. */
    method Deliver(sequence: int) returns (error: Option<Code>)
      modifies this
      ensures var x := OAuthVault.Deliver(config, old(View()), sequence); View() == x.vault && error == ErrorOf(x)
    {
      hide Decrypt;
      if !(1 <= sequence <= |outbox|) || outbox[sequence - 1].acknowledged { return Some(SequenceInvalid); }
      var e := outbox[sequence - 1];
      if e.owner !in credentials || credentials[e.owner].id != e.id { return Some(CustodyInvalid); }
      var original := credentials[e.owner].(generation := e.generation, keyId := e.keyId, ciphertext := e.ciphertext);
      var token := Decrypt(config, e.owner, original);
      if token.Err? { return Some(token.code); }
      outbox := outbox[sequence - 1 := e.(attempts := e.attempts + 1)];
      error := None;
    }

    method Acknowledge(sequence: int, receipt: string) returns (error: Option<Code>)
      modifies this
      ensures var x := OAuthVault.Acknowledge(old(View()), sequence, receipt); View() == x.vault && error == ErrorOf(x)
    {
      hide Name;
      if !Name(receipt) { return Some(ReceiptInvalid); }
      if !(1 <= sequence <= |outbox|) || outbox[sequence - 1].acknowledged { return Some(SequenceInvalid); }
      outbox := outbox[sequence - 1 := outbox[sequence - 1].(acknowledged := true, receipt := Some(receipt))];
      error := None;
    }
  }

  lemma AuthorizationWhole(c: Config, q: Authorization)
    requires AuthorizationFault(c, q).None?
    ensures q.challenge.Some?
  {
    hide Name, ProviderName, GoodScopes;
  }

  lemma TokensWhole(result: TokenSet, account: string, scopes: set<string>, now: int)
    requires TokenFault(result, account, scopes, now).None?
    ensures result.TokenSet?
  {
    hide Name, Secret, GoodScopes, ScopeSet;
  }

  lemma SealedKey(c: Config, owner: Owner, token: string, aad: Aad, sealing: Sealing)
    requires Seal(c, owner, token, aad, sealing).Ok?
    ensures sealing.keyId.Some?
  {
    hide Name;
  }
}
