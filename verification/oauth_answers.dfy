/**
 * What the OAuth vault answers, said of the rows, the clock and the provider's response alone: which authorization may
 * be exchanged and by whom, which tokens are stored, and who is granted access.
 */
module OAuthAnswers {
  import opened Base
  import opened JsonBounds
  import opened Sealing
  import opened OAuthVault
  import opened OAuthRuns
  import opened OAuthTheorems

  // ----- well-formedness -----

  ghost predicate SecretText(s: string) {
    16 <= Utf8Length(s) <= 8192 && Printable(s)
  }

  /** A PKCE verifier: 43 to 128 characters of its alphabet. */
  ghost predicate Verifier(s: string) {
    && 43 <= |s| <= 128
    && forall c :: c in s ==> 'A' <= c <= 'Z' || 'a' <= c <= 'z' || '0' <= c <= '9' || c in {'.', '_', '~', '-'}
  }

  /** One to 32 printable scopes, none twice. */
  ghost predicate Scopes(scopes: seq<string>) {
    && 1 <= |scopes| <= 32 && (forall s :: s in scopes ==> 1 <= |s| <= 256 && Printable(s))
    && (forall i, j :: 0 <= i < j < |scopes| ==> scopes[i] != scopes[j])
  }

  lemma ScopesIff(scopes: seq<string>)
    ensures GoodScopes(scopes) <==> Scopes(scopes)
  {
    hide Printable;
  }

  lemma VerifierIff(s: string)
    ensures GoodVerifier(s) <==> Verifier(s)
  {
    if Verifier(s) {
      forall i | 0 <= i < |s|
        ensures var c := s[i]; 'A' <= c <= 'Z' || 'a' <= c <= 'z' || '0' <= c <= '9' || c in "._~-"
      {
        assert s[i] in s;
        InAlphabet(s[i]);
      }
    }
    if GoodVerifier(s) {
      forall c | c in s
        ensures 'A' <= c <= 'Z' || 'a' <= c <= 'z' || '0' <= c <= '9' || c in {'.', '_', '~', '-'}
      {
        var i :| 0 <= i < |s| && s[i] == c;
        InAlphabet(c);
      }
    }
  }

  lemma InAlphabet(c: char)
    ensures c in "._~-" <==> c in {'.', '_', '~', '-'}
  {
    var marks := "._~-";
    assert marks[0] == '.' && marks[1] == '_' && marks[2] == '~' && marks[3] == '-' && |marks| == 4;
  }

  ghost predicate Alphanumeric(c: char) {
    'A' <= c <= 'Z' || 'a' <= c <= 'z' || '0' <= c <= '9'
  }

  /** A name: up to 512 letters, digits and marks, a letter or digit first. */
  lemma NameIff(s: string)
    ensures Name(s) <==> && 1 <= |s| <= 512 && Alphanumeric(s[0])
                         && forall c :: c in s ==> Alphanumeric(c) || c in {'_', '.', ':', '@', '/', '-'}
  {
    var marks := "_.:@/-";
    assert |marks| == 6 && marks[0] == '_' && marks[1] == '.' && marks[2] == ':' && marks[3] == '@' && marks[4] == '/'
      && marks[5] == '-';
    assert forall c :: c in marks <==> c in {'_', '.', ':', '@', '/', '-'};
    assert forall i :: 0 <= i < |s| ==> s[i] in s;
  }

  /** A provider's name: up to 64 small letters, digits and hyphens, a letter first. */
  lemma ProviderNameIff(s: string)
    ensures ProviderName(s) <==> && 1 <= |s| <= 64 && 'a' <= s[0] <= 'z'
                                 && forall c :: c in s ==> 'a' <= c <= 'z' || '0' <= c <= '9' || c == '-'
  {
    assert forall i :: 0 <= i < |s| ==> s[i] in s;
  }

  ghost predicate KnownOwner(owner: Owner) {
    Name(owner.subject) && Name(owner.account) && ProviderName(owner.provider)
  }

  // ----- authorization -----

  /** States whose time has passed unused are expired, and none else is touched. */
  ghost predicate Swept(states: map<string, State>, now: int, state: string, row: State, states': map<string, State>) {
    && states'.Keys == states.Keys + {state} && states'[state] == row
    && (forall k :: k in states && k != state ==>
          states'[k] == if states[k].phase == Issued && states[k].expires <= now then states[k].(phase := Phase.Expired)
                        else states[k])
  }

  /**
   * A state is issued exactly for a sound request of at most ten minutes, while there is room; it keeps what it asked.
   */
  lemma BeginDecides(c: Config, v: Vault, q: Authorization, state: string, now: int)
    ensures var x := Begin(c, v, q, state, now);
      && (x.Done? <==>
            && KnownOwner(q.owner) && Name(q.redirect) && Scopes(q.scopes) && q.owner.provider in c.providers
            && q.challenge.Some? && Timestamp(now) && now < q.expires <= now + 600 && q.expires <= 253402300799
            && |v.states| < c.maxStates && state !in v.states)
      && (x.Done? ==>
            && Swept(v.states, now, state,
                     State(q.owner, q.redirect, (set s | s in q.scopes), q.challenge.value, q.expires, Issued, now),
                     x.vault.states)
            && x.vault == Vault(x.vault.states, v.credentials, v.outbox))
      && (x.Raised? ==> x.vault == v)
  {
    hide Name, ProviderName, Scopes, GoodScopes, ScopeSet, Expire, Swept;
    if q.challenge.Some? {
      ExpireSweeps(v.states, now, state, State(q.owner, q.redirect, (set s | s in q.scopes), q.challenge.value,
                                               q.expires, Issued, now));
    }
    ScopesIff(q.scopes);
    ScopeSetIs(q.scopes);
  }

  lemma ExpireSweeps(states: map<string, State>, now: int, state: string, row: State)
    ensures Swept(states, now, state, row, Expire(states, now)[state := row])
  {
  }

  lemma ScopeSetIs(scopes: seq<string>)
    ensures ScopeSet(scopes) == set s | s in scopes
  {
    assert forall s :: s in scopes ==> exists i :: 0 <= i < |scopes| && scopes[i] == s;
  }

  /**
   * A completion reaches the exchange exactly for a state that is issued and unexpired, with the verifier its challenge
   * was made from; and then the state is taken, which is all that changes.
   */
  lemma CompleteDecides(v: Vault, state: string, code: string, verifier: string, now: int)
    ensures var x := Reserve(v, state, code, verifier, now);
      && (x.Done? <==>
            && SecretText(state) && SecretText(code) && SecretText(verifier) && Verifier(verifier) && Timestamp(now)
            && state in v.states && v.states[state].phase == Issued && now < v.states[state].expires
            && v.states[state].challenge == Challenge(verifier))
      && (x.Done? ==>
            x.vault == Vault(v.states[state := v.states[state].(phase := Exchanging)], v.credentials, v.outbox))
      && (x.Raised? ==> x.vault == v)
  {
    hide Printable, Utf8Length, Verifier, GoodVerifier;
    VerifierIff(verifier);
  }

  // ----- tokens -----

  /** The provider's response is sound, and for just this account, these scopes and at most one day. */
  ghost predicate Fits(value: TokenSet, account: string, scopes: set<string>, now: int) {
    && value.TokenSet? && Name(value.receipt) && Name(value.account) && value.account == account
    && SecretText(value.refresh) && SecretText(value.access)
    && Scopes(value.scopes) && (set s | s in value.scopes) == scopes
    && now < value.expires <= now + 86400 && value.expires <= 253402300799
  }

  lemma FitsIff(value: TokenSet, account: string, scopes: set<string>, now: int)
    ensures TokenFault(value, account, scopes, now) == None <==> Fits(value, account, scopes, now)
  {
    hide Name, Printable, Utf8Length, Scopes, GoodScopes, ScopeSet;
    if value.TokenSet? {
      ScopesIff(value.scopes);
      ScopeSetIs(value.scopes);
    }
  }

  /** The row holds this token, sealed under everything the row says of itself. */
  ghost predicate Holds(c: Config, owner: Owner, row: Credential, token: string, sealing: Sealing) {
    && sealing.keyId == Some(row.keyId) && Name(row.keyId) && row.digest == token
    && c.cipher.encrypt(owner.subject, row.keyId, token, Aad(row.id, owner, row.scopes, row.generation), sealing.nonce)
       == Some(row.ciphertext)
  }

  /** The entry that hands the row's token over to be revoked. */
  function Handover(owner: Owner, row: Credential): Entry {
    Entry(row.id, owner, row.keyId, row.ciphertext, row.generation, false, 0, None)
  }

  /** The row an exchange leaves: the owner's own if it has one, in its next generation, under the authorized scopes. */
  ghost predicate Exchanged(c: Config, v: Vault, saved: State, result: TokenSet, id: string, sealing: Sealing, now: int,
                            row: Credential) {
    && result.TokenSet? && Holds(c, saved.owner, row, result.refresh, sealing) && row.ciphertext != ""
    && if saved.owner in v.credentials then
         var known := v.credentials[saved.owner];
         row == Credential(known.id, saved.scopes, row.keyId, row.ciphertext, row.digest, known.generation + 1, true,
                           result.receipt, known.created, now)
       else
         row == Credential(id, saved.scopes, row.keyId, row.ciphertext, row.digest, 1, true, result.receipt, now, now)
  }

  /**
   * An exchange is committed exactly for a state that is still being exchanged and unexpired, with a response for its
   * account and scopes, while there is room and the token can be sealed. The state is consumed, the token stored, and
   * one it replaces is handed over.
   */
  lemma CommitDecides(c: Config, v: Vault, state: string, saved: State, result: TokenSet, id: string, sealing: Sealing,
                      now: int)
    ensures var x, owner := CommitTokens(c, v, state, saved, result, id, sealing, now), saved.owner;
      && (x.Done? <==>
            && Timestamp(now) && state in v.states && v.states[state].phase == Exchanging
            && v.states[state].owner.subject == owner.subject && v.states[state].owner.provider == owner.provider
            && now < v.states[state].expires && Fits(result, owner.account, saved.scopes, now)
            && (owner in v.credentials || |v.credentials| < c.maxCredentials)
            && exists row :: Exchanged(c, v, saved, result, id, sealing, now, row))
      && (x.Done? ==>
            && owner in x.vault.credentials
            && Exchanged(c, v, saved, result, id, sealing, now, x.vault.credentials[owner])
            && x.vault == Vault(v.states[state := v.states[state].(phase := Consumed)],
                                v.credentials[owner := x.vault.credentials[owner]],
                                if owner in v.credentials && v.credentials[owner].active
                                then v.outbox + [Handover(owner, v.credentials[owner])] else v.outbox))
      && (x.Raised? ==> x.vault == v)
  {
    hide Name, TokenFault, Fits;
    FitsIff(result, saved.owner.account, saved.scopes, now);
    IfFits(result, saved.owner.account, saved.scopes, now);
    var x := CommitTokens(c, v, state, saved, result, id, sealing, now);
    if x.Done? { assert Exchanged(c, v, saved, result, id, sealing, now, x.vault.credentials[saved.owner]); }
    if row :| Exchanged(c, v, saved, result, id, sealing, now, row) {
      assert sealing.keyId == Some(row.keyId);
    }
  }

  lemma IfFits(value: TokenSet, account: string, scopes: set<string>, now: int)
    ensures Fits(value, account, scopes, now) ==> value.TokenSet?
  {
  }

  /** The row's token reads back: the cipher returns just what the digest is of. */
  ghost predicate Reads(c: Config, owner: Owner, row: Credential) {
    && c.cipher.decrypt(owner.subject, row.keyId, row.ciphertext, Aad(row.id, owner, row.scopes, row.generation))
       == Some(row.digest)
    && SecretText(row.digest)
  }

  lemma ReadsIff(c: Config, owner: Owner, row: Credential)
    ensures Decrypt(c, owner, row).Ok? <==> Reads(c, owner, row)
  {
    hide Printable, Utf8Length;
  }

  /** A grant begins exactly on an active credential that has all the scopes asked for and reads back, authorized. */
  lemma GrantDecides(c: Config, v: Vault, owner: Owner, scopes: seq<string>, authorized: bool, now: int)
    ensures var x := ReadGrant(c, v, owner, scopes, authorized, now);
      && (x.Ok? <==>
            && KnownOwner(owner) && Scopes(scopes) && owner.provider in c.providers && Timestamp(now) && authorized
            && owner in v.credentials && v.credentials[owner].active
            && (forall s :: s in scopes ==> s in v.credentials[owner].scopes)
            && Reads(c, owner, v.credentials[owner]))
      && (x.Ok? ==> x.value == v.credentials[owner])
  {
    hide Name, ProviderName, Scopes, GoodScopes, Decrypt, Reads, ScopeSet;
    ScopesIff(scopes);
    ScopeSetIs(scopes);
    if owner in v.credentials {
      ReadsIff(c, owner, v.credentials[owner]);
      assert ScopeSet(scopes) <= v.credentials[owner].scopes <==>
        forall s :: s in scopes ==> s in v.credentials[owner].scopes;
    }
  }

  /** The row a refresh leaves: the same credential with its scopes, the next generation and the new token. */
  ghost predicate Refreshed(c: Config, owner: Owner, row: Credential, result: TokenSet, sealing: Sealing, now: int,
                            row': Credential) {
    && result.TokenSet? && Holds(c, owner, row', result.refresh, sealing)
    && row' == row.(keyId := row'.keyId, ciphertext := row'.ciphertext, digest := row'.digest,
                    generation := row.generation + 1, receipt := result.receipt, updated := now)
  }

  /**
   * A grant ends exactly on the credential it began on, unchanged since, authorized again, with a response for its
   * account and the scopes it asked for. The new token is stored and the old one handed over, and nothing else changes.
   */
  lemma RotateDecides(c: Config, v: Vault, owner: Owner, saved: Credential, scopes: set<string>, result: TokenSet,
                      authorized: bool, sealing: Sealing, now: int)
    ensures var x := Rotate(c, v, owner, saved, scopes, result, authorized, sealing, now);
      && (x.Done? <==>
            && Timestamp(now) && authorized && owner in v.credentials && v.credentials[owner].active
            && v.credentials[owner].id == saved.id && v.credentials[owner].generation == saved.generation
            && v.credentials[owner].digest == saved.digest && Fits(result, owner.account, scopes, now)
            && exists row :: Refreshed(c, owner, v.credentials[owner], result, sealing, now, row))
      && (x.Done? ==>
            && owner in x.vault.credentials
            && Refreshed(c, owner, v.credentials[owner], result, sealing, now, x.vault.credentials[owner])
            && x.vault == Vault(v.states, v.credentials[owner := x.vault.credentials[owner]],
                                v.outbox + [Handover(owner, v.credentials[owner])]))
      && (x.Raised? ==> x.vault == v)
  {
    hide Name, TokenFault, Fits;
    FitsIff(result, owner.account, scopes, now);
    IfFits(result, owner.account, scopes, now);
    var x := Rotate(c, v, owner, saved, scopes, result, authorized, sealing, now);
    if owner in v.credentials {
      if x.Done? { assert Refreshed(c, owner, v.credentials[owner], result, sealing, now, x.vault.credentials[owner]); }
      if row :| Refreshed(c, owner, v.credentials[owner], result, sealing, now, row) {
        assert sealing.keyId == Some(row.keyId);
      }
    }
  }

  // ----- revocation -----

  /** A revocation takes an active credential to an inactive next generation and hands its token over. */
  lemma RevokeDecides(v: Vault, owner: Owner, now: int)
    ensures var x := Revoke(v, owner, now);
      if KnownOwner(owner) && owner in v.credentials && v.credentials[owner].active && Timestamp(now) then
        var row := v.credentials[owner];
        x == Done(Vault(v.states,
                        v.credentials[owner := row.(active := false, generation := row.generation + 1, updated := now)],
                        v.outbox + [Handover(owner, row)]))
      else x.vault == v && (x.Done? <==> KnownOwner(owner) && !(owner in v.credentials && v.credentials[owner].active))
  {
    hide Name, ProviderName;
  }

  /**
   * A delivery goes out exactly for a pending entry of a known credential whose token still reads under the scopes and
   * the digest of the credential's row; it counts one attempt.
   */
  lemma DeliverDecides(c: Config, v: Vault, sequence: int)
    ensures var x := Deliver(c, v, sequence);
      if && 1 <= sequence <= |v.outbox| && !v.outbox[sequence - 1].acknowledged
         && (var e := v.outbox[sequence - 1];
             && e.owner in v.credentials && v.credentials[e.owner].id == e.id
             && Reads(c, e.owner, v.credentials[e.owner].(generation := e.generation, keyId := e.keyId,
                                                          ciphertext := e.ciphertext)))
      then var e := v.outbox[sequence - 1];
           x == Done(Vault(v.states, v.credentials, v.outbox[sequence - 1 := e.(attempts := e.attempts + 1)]))
      else x.Raised? && x.vault == v
  {
    hide Decrypt, Reads;
    if 1 <= sequence <= |v.outbox| && v.outbox[sequence - 1].owner in v.credentials {
      var e := v.outbox[sequence - 1];
      ReadsIff(c, e.owner, v.credentials[e.owner].(generation := e.generation, keyId := e.keyId,
                                                   ciphertext := e.ciphertext));
    }
  }

  /** A receipt settles exactly a pending entry, once. */
  lemma AcknowledgeDecides(v: Vault, sequence: int, receipt: string)
    ensures var x := Acknowledge(v, sequence, receipt);
      if Name(receipt) && 1 <= sequence <= |v.outbox| && !v.outbox[sequence - 1].acknowledged
      then x == Done(Vault(v.states, v.credentials, v.outbox[sequence - 1 :=
                       v.outbox[sequence - 1].(acknowledged := true, receipt := Some(receipt))]))
      else x.Raised? && x.vault == v
  {
    hide Name;
  }

  /** An exchange that failed leaves its state indeterminate. */
  lemma MarkDecides(v: Vault, state: string)
    ensures MarkIndeterminate(v, state) ==
      if state in v.states && v.states[state].phase == Exchanging
      then Vault(v.states[state := v.states[state].(phase := Phase.Indeterminate)], v.credentials, v.outbox) else v
  {
  }

  // ----- where exchanges and credentials come from -----

  lemma {:induction false} RunLast(s: System, steps: seq<Step>)
    requires steps != []
    ensures Run(s, steps) == Next(Run(s, steps[..|steps| - 1]), steps[|steps| - 1])
    decreases |steps|
  {
    hide Next;
    if |steps| > 1 {
      RunLast(Next(s, steps[0]), steps[1..]);
      assert steps[1..][..|steps| - 2] == steps[..|steps| - 1][1..];
    }
  }

  /** This step began the authorization of this state's row. */
  ghost predicate BegunBy(step: Step, state: string, row: State) {
    && step.DoBegin? && step.state == state && KnownOwner(step.q.owner) && Scopes(step.q.scopes)
    && row.owner == step.q.owner && row.redirect == step.q.redirect && row.scopes == (set x | x in step.q.scopes)
    && step.q.challenge == Some(row.challenge) && row.expires == step.q.expires && row.created == step.now
    && 0 <= step.now < row.expires <= step.now + 600
  }

  lemma StateAppears(s: System, step: Step, state: string)
    requires state in Next(s, step).vault.states
    ensures var row := Next(s, step).vault.states[state];
      || BegunBy(step, state, row)
      || (state in s.vault.states && row == s.vault.states[state].(phase := row.phase))
  {
    if step.DoBegin? {
      hide Begin, Name, ProviderName, Scopes;
      BeginDecides(s.config, s.vault, step.q, step.state, step.now);
    } else {
      hide BegunBy, Next;
      StatesMoveOn(s, step, state);
    }
  }

  lemma StatesMoveOn(s: System, step: Step, state: string)
    requires !step.DoBegin? && state in Next(s, step).vault.states
    ensures state in s.vault.states
    ensures var row := Next(s, step).vault.states[state]; row == s.vault.states[state].(phase := row.phase)
  {
    hide Begin, Reserve, MarkIndeterminate, CommitTokens, Rotate, Revoke, Deliver, Acknowledge, ReadGrant, Name,
      ProviderName, Scopes, SecretText, Verifier, Fits, Exchanged, Refreshed, Reads, KnownOwner;
    var v := s.vault;
    match step
    case DoReserve(state, code, verifier, now) => CompleteDecides(v, state, code, verifier, now);
    case ExchangeFails(state) => MarkDecides(v, state);
    case ExchangeEnds(state, result, id, sealing, now) =>
      if state in s.exchanges { CommitDecides(s.config, v, state, s.exchanges[state], result, id, sealing, now); }
    case EndGrant(grant, result, authorized, sealing, now) =>
      if grant in s.grants {
        var g := s.grants[grant];
        RotateDecides(s.config, v, g.owner, g.saved, g.scopes, result, authorized, sealing, now);
      }
    case DoRevoke(owner, now) => RevokeDecides(v, owner, now);
    case DoDeliver(sequence) => DeliverDecides(s.config, v, sequence);
    case DoAcknowledge(sequence, receipt) => AcknowledgeDecides(v, sequence, receipt);
    case _ =>
  }

  /** Over every run each state is the one some begin_authorization asked for, its challenge included. */
  lemma {:induction false} StateStory(c: Config, steps: seq<Step>, state: string)
    requires state in Run(Start(c), steps).vault.states
    ensures var row := Run(Start(c), steps).vault.states[state];
      exists i :: 0 <= i < |steps| && BegunBy(steps[i], state, row)
    decreases |steps|
  {
    hide Next, BegunBy;
    if steps == [] {
      assert false;
    } else {
      var n := |steps| - 1;
      var s := Run(Start(c), steps[..n]);
      RunLast(Start(c), steps);
      StateAppears(s, steps[n], state);
      var row := Next(s, steps[n]).vault.states[state];
      if !BegunBy(steps[n], state, row) {
        StateStory(c, steps[..n], state);
        var i :| 0 <= i < n && BegunBy(steps[..n][i], state, s.vault.states[state]);
        SameBegin(steps[i], state, s.vault.states[state], row);
      }
    }
  }

  lemma SameBegin(step: Step, state: string, row: State, row': State)
    requires BegunBy(step, state, row) && row' == row.(phase := row'.phase)
    ensures BegunBy(step, state, row')
  {
  }

  /**
   * This step, taken in s, reached the exchange of the state: issued, unexpired, with this verifier for its challenge.
   */
  ghost predicate ExchangedBy(s: System, step: Step, state: string) {
    && step.DoReserve? && step.state == state && state in s.vault.states
    && s.vault.states[state].phase == Issued && 0 <= step.now < s.vault.states[state].expires
    && s.vault.states[state].challenge == Challenge(step.verifier) && Verifier(step.verifier)
  }

  lemma ExchangeAppears(s: System, step: Step)
    ensures var exchanged' := Next(s, step).exchanged;
      || exchanged' == s.exchanged
      || (step.DoReserve? && exchanged' == s.exchanged + [step.state] && ExchangedBy(s, step, step.state))
  {
    hide Begin, Reserve, MarkIndeterminate, CommitTokens, Rotate, Revoke, Deliver, Acknowledge, ReadGrant, Verifier,
      SecretText;
    if step.DoReserve? { CompleteDecides(s.vault, step.state, step.code, step.verifier, step.now); }
  }

  /** An authorization begun by the one step is exchanged by the other, with the verifier its challenge is of. */
  ghost predicate Redeems(begin: Step, s: System, step: Step, state: string) {
    && ExchangedBy(s, step, state) && BegunBy(begin, state, s.vault.states[state])
    && begin.q.challenge == Some(Challenge(step.verifier))
  }

  /**
   * Over every run: a code is exchanged only for a state that was issued and unexpired at that moment, by one who has
   * the verifier that the challenge given to begin_authorization was made from.
   */
  lemma {:induction false} ExchangeStory(c: Config, steps: seq<Step>, e: nat)
    requires e < |Run(Start(c), steps).exchanged|
    ensures var state := Run(Start(c), steps).exchanged[e];
      exists i, j :: 0 <= i < j < |steps| && Redeems(steps[i], Run(Start(c), steps[..j]), steps[j], state)
    decreases |steps|
  {
    hide Next, Redeems;
    if steps == [] {
      assert false;
    } else {
      var n := |steps| - 1;
      var s := Run(Start(c), steps[..n]);
      RunLast(Start(c), steps);
      ExchangeAppears(s, steps[n]);
      var state := Next(s, steps[n]).exchanged[e];
      if e < |s.exchanged| {
        ExchangeStory(c, steps[..n], e);
        var i, j :| 0 <= i < j < n && Redeems(steps[..n][i], Run(Start(c), steps[..n][..j]), steps[..n][j], state);
        assert steps[..n][..j] == steps[..j];
      } else {
        StateStory(c, steps[..n], state);
        var i :| 0 <= i < n && BegunBy(steps[..n][i], state, s.vault.states[state]);
        BeginMeets(steps[i], s, steps[n], state);
      }
    }
  }

  lemma BeginMeets(begin: Step, s: System, step: Step, state: string)
    requires ExchangedBy(s, step, state) && BegunBy(begin, state, s.vault.states[state])
    ensures Redeems(begin, s, step, state)
  {
  }

  // ----- where tokens come from -----

  /**
   * This step, taken in s, stored a token of the owner: the provider's own, in a response for that account and these
   * scopes, at the end of an exchange or of a grant of the owner.
   */
  ghost predicate StoredBy(s: System, step: Step, owner: Owner, token: string) {
    if step.ExchangeEnds? then
      && step.state in s.exchanges && s.exchanges[step.state].owner == owner && step.state in s.vault.states
      && s.vault.states[step.state].phase == Exchanging && step.now < s.vault.states[step.state].expires
      && Fits(step.result, owner.account, s.exchanges[step.state].scopes, step.now) && token == step.result.refresh
    else
      && step.EndGrant? && step.grant in s.grants && s.grants[step.grant].owner == owner && step.authorized
      && Fits(step.result, owner.account, s.grants[step.grant].scopes, step.now) && token == step.result.refresh
  }

  lemma TokenAppears(s: System, step: Step)
    ensures var held' := Next(s, step).held;
      || held' == s.held
      || (|held'| == |s.held| + 1 && held'[..|s.held|] == s.held
          && StoredBy(s, step, held'[|s.held|].owner, held'[|s.held|].token))
  {
    hide Begin, Reserve, MarkIndeterminate, CommitTokens, Rotate, Revoke, Deliver, Acknowledge, ReadGrant, Fits,
      FreshId;
    match step
    case ExchangeEnds(state, result, id, sealing, now) =>
      if state in s.exchanges {
        CommitDecides(s.config, s.vault, state, s.exchanges[state], result, id, sealing, now);
        IfFits(result, s.exchanges[state].owner.account, s.exchanges[state].scopes, now);
      }
    case EndGrant(grant, result, authorized, sealing, now) =>
      if grant in s.grants {
        var g := s.grants[grant];
        RotateDecides(s.config, s.vault, g.owner, g.saved, g.scopes, result, authorized, sealing, now);
        IfFits(result, g.owner.account, g.scopes, now);
      }
    case _ =>
  }

  /** Over every run each token the vault ever stored was returned by its provider for just that account. */
  lemma {:induction false} TokenStory(c: Config, steps: seq<Step>, n: nat)
    requires n < |Run(Start(c), steps).held|
    ensures var h := Run(Start(c), steps).held[n];
      exists i :: 0 <= i < |steps| && StoredBy(Run(Start(c), steps[..i]), steps[i], h.owner, h.token)
    decreases |steps|
  {
    hide Next, StoredBy;
    if steps == [] {
      assert false;
    } else {
      var last := |steps| - 1;
      var s := Run(Start(c), steps[..last]);
      RunLast(Start(c), steps);
      TokenAppears(s, steps[last]);
      var h := Next(s, steps[last]).held[n];
      if n < |s.held| {
        assert h == s.held[n] by { assert h == Next(s, steps[last]).held[..|s.held|][n]; }
        TokenStory(c, steps[..last], n);
        var i :| 0 <= i < last && StoredBy(Run(Start(c), steps[..last][..i]), steps[..last][i], h.owner, h.token);
        assert steps[..last][..i] == steps[..i];
      }
    }
  }

  /** The scopes of a credential are those of the exchange that stored it last. */
  lemma ScopesAppear(s: System, step: Step, owner: Owner)
    requires owner in Next(s, step).vault.credentials
    ensures var row := Next(s, step).vault.credentials[owner];
      || (owner in s.vault.credentials && row.scopes == s.vault.credentials[owner].scopes)
      || (step.ExchangeEnds? && step.state in s.exchanges && s.exchanges[step.state].owner == owner
          && s.exchanges[step.state].scopes == row.scopes)
  {
    hide Begin, Reserve, MarkIndeterminate, CommitTokens, Rotate, Revoke, Deliver, Acknowledge, ReadGrant, Name,
      ProviderName, Scopes, SecretText, Verifier, Fits, Reads, KnownOwner, Swept, Holds, FreshId;
    var v := s.vault;
    match step
    case DoBegin(q, state, now) => BeginDecides(s.config, v, q, state, now);
    case DoReserve(state, code, verifier, now) => CompleteDecides(v, state, code, verifier, now);
    case ExchangeFails(state) => MarkDecides(v, state);
    case ExchangeEnds(state, result, id, sealing, now) =>
      if state in s.exchanges { CommitDecides(s.config, v, state, s.exchanges[state], result, id, sealing, now); }
    case EndGrant(grant, result, authorized, sealing, now) =>
      if grant in s.grants {
        var g := s.grants[grant];
        RotateDecides(s.config, v, g.owner, g.saved, g.scopes, result, authorized, sealing, now);
      }
    case DoRevoke(owner, now) => RevokeDecides(v, owner, now);
    case DoDeliver(sequence) => DeliverDecides(s.config, v, sequence);
    case DoAcknowledge(sequence, receipt) => AcknowledgeDecides(v, sequence, receipt);
    case _ =>
  }

  /** This step, taken in s, ended an exchange of a state that was begun for this owner with exactly these scopes. */
  ghost predicate ScopedBy(begin: Step, s: System, step: Step, owner: Owner, scopes: set<string>) {
    && step.ExchangeEnds? && step.state in s.exchanges && step.state in s.vault.states
    && BegunBy(begin, step.state, s.vault.states[step.state])
    && begin.q.owner == owner && (set x | x in begin.q.scopes) == scopes
  }

  /** Over every run a credential has exactly the scopes its owner was asked for when it was authorized. */
  lemma {:induction false} ScopeStory(c: Config, steps: seq<Step>, owner: Owner)
    requires owner in Run(Start(c), steps).vault.credentials
    ensures var row := Run(Start(c), steps).vault.credentials[owner];
      exists i, j :: && 0 <= i < j < |steps|
                     && ScopedBy(steps[i], Run(Start(c), steps[..j]), steps[j], owner, row.scopes)
    decreases |steps|
  {
    hide Next, ScopedBy, Inv;
    if steps == [] {
      assert false;
    } else {
      var n := |steps| - 1;
      var s := Run(Start(c), steps[..n]);
      RunLast(Start(c), steps);
      ScopesAppear(s, steps[n], owner);
      var row := Next(s, steps[n]).vault.credentials[owner];
      if owner in s.vault.credentials && row.scopes == s.vault.credentials[owner].scopes {
        ScopeStory(c, steps[..n], owner);
        var i, j :| && 0 <= i < j < n
                    && ScopedBy(steps[..n][i], Run(Start(c), steps[..n][..j]), steps[..n][j], owner, row.scopes);
        assert steps[..n][..j] == steps[..j];
      } else {
        var state := steps[n].state;
        StartFits(c);
        RunKeeps(Start(c), steps[..n]);
        ExchangingState(s, state);
        StateStory(c, steps[..n], state);
        var i :| 0 <= i < n && BegunBy(steps[..n][i], state, s.vault.states[state]);
        BegunScopes(steps[i], s, steps[n], owner, row.scopes);
      }
    }
  }

  lemma ExchangingState(s: System, state: string)
    requires Inv(s) && state in s.exchanges
    ensures state in s.vault.states && s.exchanges[state] == s.vault.states[state].(phase := Issued)
  {
    hide HeldFit, LatestFit, OutboxFit, Conserved;
  }

  lemma BegunScopes(begin: Step, s: System, step: Step, owner: Owner, scopes: set<string>)
    requires step.ExchangeEnds? && step.state in s.exchanges && step.state in s.vault.states
    requires BegunBy(begin, step.state, s.vault.states[step.state])
    requires s.exchanges[step.state] == s.vault.states[step.state].(phase := Issued)
    requires s.exchanges[step.state].owner == owner && s.exchanges[step.state].scopes == scopes
    ensures ScopedBy(begin, s, step, owner, scopes)
  {
  }

  // ----- refusals -----

  /** An error of begin_authorization says what is so: of the request, of the states or of the clock. */
  lemma BeginRefusals(c: Config, v: Vault, q: Authorization, state: string, now: int)
    ensures var x := Begin(c, v, q, state, now);
      x.Raised? ==> match x.code
        case BindingInvalid => !Name(q.owner.subject) || !Name(q.owner.account) || !Name(q.redirect)
        case ProviderInvalid => !ProviderName(q.owner.provider)
        case ScopeInvalid => !Scopes(q.scopes)
        case AuthorizationInvalid => q.owner.provider !in c.providers || q.challenge == None
        case ClockInvalid => !Timestamp(now)
        case ExpiryInvalid => q.expires <= now || now + 600 < q.expires || 253402300799 < q.expires
        case StateCapacity => |v.states| >= c.maxStates
        case IntegrityError => state in v.states
        case _ => false
  {
    hide Name, ProviderName, Scopes, GoodScopes;
    ScopesIff(q.scopes);
  }

  /** So does one of a completion. */
  lemma CompleteRefusals(v: Vault, state: string, code: string, verifier: string, now: int)
    ensures var x := Reserve(v, state, code, verifier, now);
      x.Raised? ==> match x.code
        case StateInvalid => !SecretText(state)
        case CodeInvalid => !SecretText(code)
        case VerifierInvalid => !SecretText(verifier) || !Verifier(verifier)
        case ClockInvalid => !Timestamp(now)
        case StateReplayed => state in v.states ==> v.states[state].phase != Issued
        case StateExpired => state in v.states && v.states[state].expires <= now
        case PkceMismatch => state in v.states && v.states[state].challenge != Challenge(verifier)
        case _ => false
  {
    hide Printable, Utf8Length, Verifier, GoodVerifier;
    VerifierIff(verifier);
  }

  /** The provider's response was the reason. */
  ghost predicate ResponseSays(value: TokenSet, account: string, scopes: set<string>, now: int, code: Code) {
    (code == ResponseInvalid || code == ScopeInvalid) && !Fits(value, account, scopes, now)
  }

  /** So does one at the end of an exchange. */
  lemma CommitRefusals(c: Config, v: Vault, state: string, saved: State, result: TokenSet, id: string, sealing: Sealing,
                       now: int)
    ensures var x, owner := CommitTokens(c, v, state, saved, result, id, sealing, now), saved.owner;
      x.Raised? ==> ResponseSays(result, owner.account, saved.scopes, now, x.code) || match x.code
        case ClockInvalid => !Timestamp(now)
        case AuthorityExpired =>
          state in v.states ==>
            || v.states[state].phase != Exchanging || v.states[state].owner.subject != owner.subject
            || v.states[state].owner.provider != owner.provider || v.states[state].expires <= now
        case CredentialCapacity => owner !in v.credentials && |v.credentials| >= c.maxCredentials
        case KeyIdInvalid => sealing.keyId.Some? && !Name(sealing.keyId.value)
        case EncryptFailed => forall row :: !Exchanged(c, v, saved, result, id, sealing, now, row)
        case _ => false
  {
    hide Name, TokenFault, Fits, Exchanged;
    CommitDecides(c, v, state, saved, result, id, sealing, now);
    FitsIff(result, saved.owner.account, saved.scopes, now);
    IfFits(result, saved.owner.account, saved.scopes, now);
    ResponseCodes(result, saved.owner.account, saved.scopes, now);
  }

  lemma ResponseCodes(value: TokenSet, account: string, scopes: set<string>, now: int)
    ensures var fault := TokenFault(value, account, scopes, now);
      fault.Some? ==> fault.value == ResponseInvalid || fault.value == ScopeInvalid
  {
  }

  /** So does one at the beginning of a grant. */
  lemma GrantRefusals(c: Config, v: Vault, owner: Owner, scopes: seq<string>, authorized: bool, now: int)
    ensures var x := ReadGrant(c, v, owner, scopes, authorized, now);
      x.Err? ==> match x.code
        case BindingInvalid => !Name(owner.subject) || !Name(owner.account)
        case ProviderInvalid => !ProviderName(owner.provider)
        case ScopeInvalid => !Scopes(scopes)
        case Unauthorized => owner.provider !in c.providers || !authorized
        case ClockInvalid => !Timestamp(now)
        case CredentialUnavailable => owner in v.credentials ==> !v.credentials[owner].active
        case ScopeDenied => owner in v.credentials && exists s :: s in scopes && s !in v.credentials[owner].scopes
        case _ => owner in v.credentials && !Reads(c, owner, v.credentials[owner])
  {
    hide Name, ProviderName, Scopes, GoodScopes, Decrypt, Reads, ScopeSet;
    ScopesIff(scopes);
    ScopeSetIs(scopes);
    if owner in v.credentials {
      ReadsIff(c, owner, v.credentials[owner]);
      assert ScopeSet(scopes) <= v.credentials[owner].scopes
        <==> forall s :: s in scopes ==> s in v.credentials[owner].scopes;
      DecryptCodes(c, owner, v.credentials[owner]);
    }
  }

  lemma DecryptCodes(c: Config, owner: Owner, row: Credential)
    ensures var x := Decrypt(c, owner, row); x.Err? ==> x.code == DecryptFailed || x.code == IntegrityInvalid
  {
  }

  /** So does one at the end of a grant. */
  lemma RotateRefusals(c: Config, v: Vault, owner: Owner, saved: Credential, scopes: set<string>, result: TokenSet,
                       authorized: bool, sealing: Sealing, now: int)
    ensures var x := Rotate(c, v, owner, saved, scopes, result, authorized, sealing, now);
      x.Raised? ==> ResponseSays(result, owner.account, scopes, now, x.code) || match x.code
        case ClockInvalid => !Timestamp(now)
        case AuthorityRevoked =>
          owner in v.credentials ==>
            var row := v.credentials[owner];
            !row.active || row.id != saved.id || row.generation != saved.generation || row.digest != saved.digest
        case Unauthorized => !authorized
        case KeyIdInvalid => sealing.keyId.Some? && !Name(sealing.keyId.value)
        case EncryptFailed =>
          owner in v.credentials
            && forall row :: !Refreshed(c, owner, v.credentials[owner], result, sealing, now, row)
        case _ => false
  {
    hide Name, TokenFault, Fits, Refreshed;
    RotateDecides(c, v, owner, saved, scopes, result, authorized, sealing, now);
    FitsIff(result, owner.account, scopes, now);
    IfFits(result, owner.account, scopes, now);
    ResponseCodes(result, owner.account, scopes, now);
  }
}
