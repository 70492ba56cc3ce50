/**
 * The OAuth vault's tables and transactions, one function for each. Tokens, states and digests of them are the text
 * itself, a PKCE challenge is the verifier it was made from, and a sorted scope tuple is the set of its scopes.
 *
 * A credential's identifier and its owner name the same row, so credentials are kept by owner.
 */
module OAuthVault {
  import opened Base
  import opened JsonBounds
  import opened Sealing

  datatype Owner = Owner(subject: string, account: string, provider: string)
  datatype Challenge = Challenge(verifier: string)
  datatype Aad = Aad(credential: string, owner: Owner, scopes: set<string>, generation: nat)
  datatype Config = Config(cipher: Cipher<Aad>, providers: set<string>, maxStates: nat, maxCredentials: nat)

  datatype Phase = Issued | Exchanging | Indeterminate | Consumed | Expired
  datatype State = State(owner: Owner, redirect: string, scopes: set<string>, challenge: Challenge, expires: int,
                         phase: Phase, created: int)

  /** digest is of the refresh token the ciphertext holds. */
  datatype Credential = Credential(id: string, scopes: set<string>, keyId: string, ciphertext: string, digest: string,
                                   generation: nat, active: bool, receipt: string, created: int, updated: int)

  datatype Entry = Entry(id: string, owner: Owner, keyId: string, ciphertext: string, generation: nat,
                         acknowledged: bool, attempts: nat, receipt: Option<string>)

  /** An outbox entry's sequence number is its position, counted from one. */
  datatype Vault = Vault(states: map<string, State>, credentials: map<Owner, Credential>, outbox: seq<Entry>)

  datatype TokenSet = Malformed
    | TokenSet(account: string, scopes: seq<string>, refresh: string, access: string, expires: int, receipt: string)

  datatype Code =
    | BindingInvalid | ProviderInvalid | ScopeInvalid | AuthorizationInvalid | ClockInvalid | ExpiryInvalid
    | StateCapacity | IntegrityError | StateInvalid | CodeInvalid | VerifierInvalid | StateReplayed | StateExpired
    | PkceMismatch | AuthorityExpired | ResponseInvalid | CredentialCapacity | KeyIdInvalid | EncryptFailed
    | DecryptFailed | IntegrityInvalid | Unauthorized | CredentialUnavailable | ScopeDenied | AuthorityRevoked
    | SequenceInvalid | CustodyInvalid | ReceiptInvalid

  datatype Tx = Done(vault: Vault) | Raised(vault: Vault, code: Code)
  datatype Result<T> = Ok(value: T) | Err(code: Code)

  const EMPTY := Vault(map[], map[], [])

  predicate Name(s: string) {
    && 1 <= |s| <= 512 && s[0] !in "_.:@/-"
    && forall i :: 0 <= i < |s| ==> 'A' <= s[i] <= 'Z' || 'a' <= s[i] <= 'z' || '0' <= s[i] <= '9' || s[i] in "_.:@/-"
  }

  predicate ProviderName(s: string) {
    && 1 <= |s| <= 64 && 'a' <= s[0] <= 'z'
    && forall i :: 0 <= i < |s| ==> 'a' <= s[i] <= 'z' || '0' <= s[i] <= '9' || s[i] == '-'
  }

  predicate Secret(s: string) {
    16 <= Utf8Length(s) <= 8192 && Printable(s)
  }

  predicate GoodScopes(scopes: seq<string>) {
    && 0 < |scopes| <= 32
    && (forall i, j :: 0 <= i < j < |scopes| ==> scopes[i] != scopes[j])
    && (forall i :: 0 <= i < |scopes| ==> 1 <= |scopes[i]| <= 256 && Printable(scopes[i]))
  }

  function ScopeSet(scopes: seq<string>): set<string> {
    set i | 0 <= i < |scopes| :: scopes[i]
  }

  predicate GoodVerifier(verifier: string) {
    && 43 <= |verifier| <= 128
    && forall i :: 0 <= i < |verifier| ==> var c := verifier[i];
      'A' <= c <= 'Z' || 'a' <= c <= 'z' || '0' <= c <= '9' || c in "._~-"
  }

  // ----- authorization states -----

  /** challenge is None when it is not a well-formed S256 challenge. */
  datatype Authorization = Authorization(owner: Owner, redirect: string, scopes: seq<string>,
                                         challenge: Option<Challenge>, expires: int)

  function AuthorizationFault(c: Config, q: Authorization): Option<Code> {
    if !Name(q.owner.subject) || !Name(q.owner.account) then Some(BindingInvalid)
    else if !ProviderName(q.owner.provider) then Some(ProviderInvalid)
    else if !Name(q.redirect) then Some(BindingInvalid)
    else if !GoodScopes(q.scopes) then Some(ScopeInvalid)
    else if q.owner.provider !in c.providers || q.challenge.None? then Some(AuthorizationInvalid)
    else None
  }

  function Expire(states: map<string, State>, now: int): map<string, State> {
    map k | k in states :: if states[k].phase.Issued? && states[k].expires <= now
      then states[k].(phase := Phase.Expired) else states[k]
  }

  /** begin_authorization: this sweep of expired states is committed. */
  function Begin(c: Config, v: Vault, q: Authorization, state: string, now: int): Tx {
    if AuthorizationFault(c, q).Some? then Raised(v, AuthorizationFault(c, q).value)
    else if !Timestamp(now) then Raised(v, ClockInvalid)
    else if !(now < q.expires <= 253402300799 && q.expires <= now + 600) then Raised(v, ExpiryInvalid)
    else if |v.states| >= c.maxStates then Raised(v, StateCapacity)
    else if state in v.states then Raised(v, IntegrityError)
    else Done(v.(states := Expire(v.states, now)[
      state := State(q.owner, q.redirect, ScopeSet(q.scopes), q.challenge.value, q.expires, Issued, now)]))
  }

  /** The first transaction of complete_authorization; the expired state it writes goes with the rollback. */
  function Reserve(v: Vault, state: string, code: string, verifier: string, now: int): Tx {
    if !Secret(state) then Raised(v, StateInvalid)
    else if !Secret(code) then Raised(v, CodeInvalid)
    else if !Secret(verifier) || !GoodVerifier(verifier) then Raised(v, VerifierInvalid)
    else if !Timestamp(now) then Raised(v, ClockInvalid)
    else if state !in v.states || !v.states[state].phase.Issued? then Raised(v, StateReplayed)
    else if v.states[state].expires <= now then Raised(v, StateExpired)
    else if v.states[state].challenge != Challenge(verifier) then Raised(v, PkceMismatch)
    else Done(v.(states := v.states[state := v.states[state].(phase := Exchanging)]))
  }

  function MarkIndeterminate(v: Vault, state: string): Vault {
    if state in v.states && v.states[state].phase.Exchanging?
      then v.(states := v.states[state := v.states[state].(phase := Indeterminate)]) else v
  }

  // ----- tokens -----

  /** _token_set. */
  function TokenFault(value: TokenSet, account: string, scopes: set<string>, now: int): Option<Code> {
    if value.Malformed? || !Name(value.account) || !Name(value.receipt) || !Secret(value.refresh)
      || !Secret(value.access)
    then Some(ResponseInvalid)
    else if !GoodScopes(value.scopes) then Some(ScopeInvalid)
    else if value.account != account || ScopeSet(value.scopes) != scopes
         || !(now < value.expires <= 253402300799 && value.expires <= now + 86400)
    then Some(ResponseInvalid)
    else None
  }

  function Seal(c: Config, owner: Owner, token: string, aad: Aad, sealing: Sealing): Result<string> {
    if sealing.keyId.None? then Err(EncryptFailed)
    else if !Name(sealing.keyId.value) then Err(KeyIdInvalid)
    else
      var sealed := c.cipher.encrypt(owner.subject, sealing.keyId.value, token, aad, sealing.nonce);
      if sealed.None? then Err(EncryptFailed) else Ok(sealed.value)
  }

  /** _queue_revoke. */
  function EntryOf(owner: Owner, row: Credential): Entry {
    Entry(row.id, owner, row.keyId, row.ciphertext, row.generation, false, 0, None)
  }

  /** The generation the next stored token of this owner gets. */
  function NextGeneration(v: Vault, owner: Owner): nat {
    if owner in v.credentials then v.credentials[owner].generation + 1 else 1
  }

  /** Replacing an active token queues the one it replaces. */
  function Superseding(v: Vault, owner: Owner): seq<Entry> {
    if owner in v.credentials && v.credentials[owner].active then v.outbox + [EntryOf(owner, v.credentials[owner])]
    else v.outbox
  }

  /** _commit_token_set; id is the identifier a new credential gets. */
  function CommitTokens(c: Config, v: Vault, state: string, saved: State, result: TokenSet, id: string,
                        sealing: Sealing, now: int): Tx {
    if !Timestamp(now) then Raised(v, ClockInvalid)
    else if state !in v.states || !v.states[state].phase.Exchanging?
      || v.states[state].owner.subject != saved.owner.subject
         || v.states[state].owner.provider != saved.owner.provider || v.states[state].expires <= now
    then Raised(v, AuthorityExpired)
    else if TokenFault(result, saved.owner.account, saved.scopes, now).Some?
      then Raised(v, TokenFault(result, saved.owner.account, saved.scopes, now).value)
    else
      var owner := saved.owner;
      if owner !in v.credentials && |v.credentials| >= c.maxCredentials then Raised(v, CredentialCapacity) else
      var credential := if owner in v.credentials then v.credentials[owner].id else id;
      var generation := NextGeneration(v, owner);
      var sealed := Seal(c, owner, result.refresh, Aad(credential, owner, saved.scopes, generation), sealing);
      if sealed.Err? then Raised(v, sealed.code)
      else if sealed.value == "" then Raised(v, EncryptFailed)
      else
        var created := if owner in v.credentials then v.credentials[owner].created else now;
        var row :=
          Credential(credential, saved.scopes, sealing.keyId.value, sealed.value, result.refresh, generation, true,
                     result.receipt, created, now);
        Done(Vault(v.states[state := v.states[state].(phase := Consumed)], v.credentials[owner := row],
                   Superseding(v, owner)))
  }

  /** _decrypt. */
  function Decrypt(c: Config, owner: Owner, row: Credential): Result<string> {
    var token :=
      c.cipher.decrypt(owner.subject, row.keyId, row.ciphertext, Aad(row.id, owner, row.scopes, row.generation));
    if token.None? || !Secret(token.value) then Err(DecryptFailed)
    else if token.value != row.digest then Err(IntegrityInvalid)
    else Ok(token.value)
  }

  /** The first transaction of grant_access: on success the row it read. authorized says whether authorize returned. */
  function ReadGrant(c: Config, v: Vault, owner: Owner, scopes: seq<string>, authorized: bool,
                     now: int): Result<Credential> {
    if !Name(owner.subject) || !Name(owner.account) then Err(BindingInvalid)
    else if !ProviderName(owner.provider) then Err(ProviderInvalid)
    else if !GoodScopes(scopes) then Err(ScopeInvalid)
    else if owner.provider !in c.providers then Err(Unauthorized)
    else if !Timestamp(now) then Err(ClockInvalid)
    else if owner !in v.credentials || !v.credentials[owner].active then Err(CredentialUnavailable)
    else if !(ScopeSet(scopes) <= v.credentials[owner].scopes) then Err(ScopeDenied)
    else if Decrypt(c, owner, v.credentials[owner]).Err? then Err(Decrypt(c, owner, v.credentials[owner]).code)
    else if !authorized then Err(Unauthorized)
    else Ok(v.credentials[owner])
  }

  /**
   * The closing transaction of grant_access: the new token is stored and the one it replaces is queued. The source's
   * test for the text "unchanged" always succeeds, a secret being at least sixteen bytes.
   */
  function Rotate(c: Config, v: Vault, owner: Owner, saved: Credential, scopes: set<string>, result: TokenSet,
                  authorized: bool, sealing: Sealing, now: int): Tx {
    if !Timestamp(now) then Raised(v, ClockInvalid)
    else if owner !in v.credentials || v.credentials[owner].id != saved.id || !v.credentials[owner].active
         || v.credentials[owner].generation != saved.generation || v.credentials[owner].digest != saved.digest
    then Raised(v, AuthorityRevoked)
    else if !authorized then Raised(v, Unauthorized)
    else if TokenFault(result, owner.account, scopes, now).Some?
      then Raised(v, TokenFault(result, owner.account, scopes, now).value)
    else
      var row := v.credentials[owner];
      var sealed := Seal(c, owner, result.refresh, Aad(row.id, owner, row.scopes, row.generation + 1), sealing);
      if sealed.Err? then Raised(v, sealed.code)
      else
        var row' :=
          row.(keyId := sealing.keyId.value, ciphertext := sealed.value, digest := result.refresh,
               generation := row.generation + 1, receipt := result.receipt, updated := now);
        Done(v.(credentials := v.credentials[owner := row'], outbox := v.outbox + [EntryOf(owner, row)]))
  }

  function Revoke(v: Vault, owner: Owner, now: int): Tx {
    if !Name(owner.subject) || !Name(owner.account) then Raised(v, BindingInvalid)
    else if !ProviderName(owner.provider) then Raised(v, ProviderInvalid)
    else if owner !in v.credentials || !v.credentials[owner].active then Done(v)
    else if !Timestamp(now) then Raised(v, ClockInvalid)
    else
      var row := v.credentials[owner];
      Done(v.(credentials :=
        v.credentials[owner := row.(active := false, generation := row.generation + 1, updated := now)],
          outbox := v.outbox + [EntryOf(owner, row)]))
  }

  /** What deliver_revocation tries to decrypt: the entry's token under the credential's present scopes and digest. */
  function Original(v: Vault, e: Entry): Credential
    requires e.owner in v.credentials
  {
    v.credentials[e.owner].(generation := e.generation, keyId := e.keyId, ciphertext := e.ciphertext)
  }

  /** The first transaction of deliver_revocation. */
  function Deliver(c: Config, v: Vault, sequence: int): Tx {
    if !(1 <= sequence <= |v.outbox|) || v.outbox[sequence - 1].acknowledged then Raised(v, SequenceInvalid)
    else
      var e := v.outbox[sequence - 1];
      if e.owner !in v.credentials || v.credentials[e.owner].id != e.id then Raised(v, CustodyInvalid)
      else if Decrypt(c, e.owner, Original(v, e)).Err? then Raised(v, Decrypt(c, e.owner, Original(v, e)).code)
      else Done(v.(outbox := v.outbox[sequence - 1 := e.(attempts := e.attempts + 1)]))
  }

  function Acknowledge(v: Vault, sequence: int, receipt: string): Tx {
    if !Name(receipt) then Raised(v, ReceiptInvalid)
    else if !(1 <= sequence <= |v.outbox|) || v.outbox[sequence - 1].acknowledged then Raised(v, SequenceInvalid)
    else Done(v.(outbox :=
      v.outbox[sequence - 1 := v.outbox[sequence - 1].(acknowledged := true, receipt := Some(receipt))]))
  }
}
