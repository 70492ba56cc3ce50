/**
 * A run of the OAuth vault, under a cipher that meets both laws, that ends with a queued revocation nobody can deliver:
 * an authorization stores one token, a refresh replaces it by another.
 */
module OAuthWitness {
  import opened Base
  import opened JsonBounds
  import opened Sealing
  import opened OAuthVault
  import opened OAuthRuns
  import OAuthTheorems

  const OWNER := Owner("u", "a", "p")
  const SCOPES := ["s"]
  const FIRST := "aaaaaaaaaaaaaaaa"
  const SECOND := "bbbbbbbbbbbbbbbb"
  const VERIFIER := "aaaaaaaaaaaaaaaaaaaaaaaaaaaaaaaaaaaaaaaaaaa"
  const SEALING := Sealing(Some("k"), 0)

  /** The associated data of the owner's token of this generation. */
  function Data(generation: nat): Aad {
    Aad("c", OWNER, {"s"}, generation)
  }

  function Encrypt(text: string, aad: Aad): Option<string> {
    if text == FIRST && aad == Data(1) then Some("1") else if text == SECOND && aad == Data(2) then Some("2") else None
  }

  function Decrypt(sealed: string, aad: Aad): Option<string> {
    if sealed == "1" && aad == Data(1) then Some(FIRST)
    else if sealed == "2" && aad == Data(2) then Some(SECOND) else None
  }

  function Setting(): Config {
    Config(Cipher((subject: string, key: string, text: string, aad: Aad, nonce: nat) => Encrypt(text, aad),
                  (subject: string, key: string, sealed: string, aad: Aad) => Decrypt(sealed, aad)), {"p"}, 1, 1)
  }

  lemma Laws()
    ensures LawfulCipher(Setting().cipher) && BindingCipher(Setting().cipher)
  {
    assert Data(1) != Data(2);
  }

  lemma Letters()
    ensures Secret(FIRST) && Secret(SECOND) && Secret(VERIFIER) && GoodVerifier(VERIFIER) && FIRST != SECOND
    ensures Name("u") && Name("a") && Name("k") && Name("r") && ProviderName("p")
    ensures GoodScopes(SCOPES) && ScopeSet(SCOPES) == {"s"}
  {
    OneScope();
    Utf8AtLeast(FIRST);
    Utf8AtLeast(SECOND);
    Utf8AtLeast(VERIFIER);
    assert FIRST[0] == 'a' && SECOND[0] == 'b';
    hide Utf8Length, GoodScopes, ScopeSet;
  }

  lemma OneScope()
    ensures GoodScopes(SCOPES) && ScopeSet(SCOPES) == {"s"}
  {
    assert SCOPES[0] == "s";
    forall x | x in ScopeSet(SCOPES) ensures x == "s" {}
    assert SCOPES[0] in ScopeSet(SCOPES);
  }

  /** The provider's answer that carries this refresh token. */
  function Answer(refresh: string): TokenSet {
    TokenSet("a", SCOPES, refresh, FIRST, 100, "r")
  }

  lemma AnswersPass(refresh: string)
    requires refresh == FIRST || refresh == SECOND
    ensures TokenFault(Answer(refresh), "a", {"s"}, 1).None?
  {
    hide Secret, Name, GoodScopes, ScopeSet;
    Letters();
  }

  const BEGIN := DoBegin(Authorization(OWNER, "u", SCOPES, Some(Challenge(VERIFIER)), 600), FIRST, 1)
  const RESERVE := DoReserve(FIRST, FIRST, VERIFIER, 1)
  const EXCHANGE := ExchangeEnds(FIRST, Answer(FIRST), "c", SEALING, 1)
  const READ := StartGrant(0, OWNER, SCOPES, true, 1)
  const REFRESH := EndGrant(0, Answer(SECOND), true, SEALING, 1)

  const ISSUED := State(OWNER, "u", {"s"}, Challenge(VERIFIER), 600, Issued, 1)
  const STORED := Credential("c", {"s"}, "k", "1", FIRST, 1, true, "r", 1, 1)

  lemma Authorized() returns (s: System)
    ensures s == Run(Start(Setting()), [BEGIN, RESERVE])
    ensures s.config == Setting() && s.vault == Vault(map[FIRST := ISSUED.(phase := Exchanging)], map[], [])
    ensures s.exchanges == map[FIRST := ISSUED] && s.grants == map[]
  {
    hide Secret, Name, ProviderName, GoodScopes, ScopeSet, GoodVerifier, OAuthVault.Decrypt, Setting;
    Letters();
    var s0 := Start(Setting());
    assert "p" in Setting().providers && Setting().maxStates == 1 by { Limits(); }
    assert AuthorizationFault(s0.config, BEGIN.q).None?;
    var s1 := Next(s0, BEGIN);
    assert Expire(map[], 1) == map[];
    assert s1.vault.states == map[FIRST := ISSUED];
    s := Next(s1, RESERVE);
    assert Run(s0, [BEGIN, RESERVE]) == Run(s1, [RESERVE]) by { assert [BEGIN, RESERVE][1..] == [RESERVE]; }
    assert Run(s1, [RESERVE]) == s by { assert [RESERVE][1..] == []; }
  }

  lemma Limits()
    ensures Setting().providers == {"p"} && Setting().maxStates == 1 && Setting().maxCredentials == 1
  {
  }

  lemma FirstSealed()
    ensures Seal(Setting(), OWNER, FIRST, Data(1), SEALING) == Ok("1")
    ensures Seal(Setting(), OWNER, SECOND, Data(2), SEALING) == Ok("2")
    ensures OAuthVault.Decrypt(Setting(), OWNER, STORED) == Ok(FIRST)
  {
    hide Name, Secret;
    Letters();
  }

  lemma Committed(s: System) returns (s': System)
    requires s.config == Setting() && s.vault == Vault(map[FIRST := ISSUED.(phase := Exchanging)], map[], [])
    requires s.exchanges == map[FIRST := ISSUED] && s.grants == map[]
    ensures s' == Next(s, EXCHANGE)
    ensures s'.config == Setting() && s'.vault.credentials == map[OWNER := STORED] && s'.vault.outbox == []
      && s'.grants == map[]
  {
    hide TokenFault, Seal, Setting, OAuthVault.Decrypt;
    AnswersPass(FIRST);
    FirstSealed();
    Limits();
    s' := Next(s, EXCHANGE);
  }

  lemma Refreshed(s: System) returns (s': System)
    requires s.config == Setting() && s.vault.credentials == map[OWNER := STORED] && s.vault.outbox == []
      && s.grants == map[]
    ensures s' == Next(Next(s, READ), REFRESH)
    ensures Next(s, READ).config == Setting() && Next(s, READ).vault == s.vault
    ensures Rotate(Setting(), s.vault, OWNER, STORED, {"s"}, Answer(SECOND), true, SEALING, 1).Done?
    ensures s'.vault == Rotate(Setting(), s.vault, OWNER, STORED, {"s"}, Answer(SECOND), true, SEALING, 1).vault
    ensures s'.config == Setting()
  {
    hide TokenFault, Seal, Setting, OAuthVault.Decrypt, Name, ProviderName, GoodScopes, ScopeSet;
    Letters();
    AnswersPass(SECOND);
    FirstSealed();
    Limits();
    var s1 := Next(s, READ);
    assert s1.grants == map[0 := Grant(OWNER, STORED, {"s"})];
    s' := Next(s1, REFRESH);
  }

  /** Some run under both laws reaches a pending revocation that no delivery can send: its decryption check fails. */
  lemma UndeliverableIsReached()
    ensures exists s ::
      && OAuthTheorems.Reachable(s) && LawfulCipher(s.config.cipher) && BindingCipher(s.config.cipher)
      && |s.vault.outbox| == 1 && !s.vault.outbox[0].acknowledged && Deliver(s.config, s.vault, 1).Raised?
  {
    hide Run, Next, Rotate, Deliver, LawfulCipher, BindingCipher, Setting, Start;
    Laws();
    Letters();
    var s2 := Authorized();
    var s3 := Committed(s2);
    var s5 := Refreshed(s3);
    Extends(Start(Setting()), [BEGIN, RESERVE], EXCHANGE);
    assert OAuthTheorems.Reachable(s3) by { IsReached(s3, [BEGIN, RESERVE] + [EXCHANGE]); }
    Extends(Start(Setting()), [BEGIN, RESERVE] + [EXCHANGE], READ);
    Extends(Start(Setting()), [BEGIN, RESERVE] + [EXCHANGE] + [READ], REFRESH);
    assert OAuthTheorems.Reachable(s5) by { IsReached(s5, [BEGIN, RESERVE] + [EXCHANGE] + [READ] + [REFRESH]); }
    OAuthTheorems.RotatedIsNot(s3, OWNER, STORED, {"s"}, Answer(SECOND), true, SEALING, 1);
    assert !s5.vault.outbox[0].acknowledged by { Queues(s3.vault); }
  }

  lemma Queues(v: Vault)
    requires v.credentials == map[OWNER := STORED] && v.outbox == []
    requires Rotate(Setting(), v, OWNER, STORED, {"s"}, Answer(SECOND), true, SEALING, 1).Done?
    ensures Rotate(Setting(), v, OWNER, STORED, {"s"}, Answer(SECOND), true, SEALING, 1).vault.outbox
      == [EntryOf(OWNER, STORED)]
  {
    hide TokenFault, Seal, Setting;
  }

  lemma IsReached(s: System, steps: seq<Step>)
    requires s == Run(Start(s.config), steps)
    ensures OAuthTheorems.Reachable(s)
  {
    hide Run;
  }

  lemma {:induction false} Extends(s: System, steps: seq<Step>, step: Step)
    ensures Run(s, steps + [step]) == Next(Run(s, steps), step)
    decreases |steps|
  {
    hide Next;
    if steps == [] {
      assert [step][1..] == [];
      assert [] + [step] == [step];
    } else {
      assert (steps + [step])[1..] == steps[1..] + [step];
      Extends(Next(s, steps[0]), steps[1..], step);
    }
  }
}
