/**
 * What the stores ask of an authenticated cipher. Keys are named; a nonce stands for the randomness of one encryption,
 * and None is an exception.
 */
module Sealing {
  import opened Base

  datatype Cipher<!A> = Cipher(encrypt: (string, string, string, A, nat) -> Option<string>,
                               decrypt: (string, string, string, A) -> Option<string>)

  /** Decrypting under the same key and associated data gives the plaintext back. */
  ghost predicate LawfulCipher<A(!new)>(c: Cipher<A>) {
    forall subject, key, text, aad, nonce :: var sealed := c.encrypt(subject, key, text, aad, nonce);
      sealed.Some? ==> c.decrypt(subject, key, sealed.value, aad) == Some(text)
  }

  /** Decrypting under other associated data fails. */
  ghost predicate BindingCipher<A(!new)>(c: Cipher<A>) {
    forall subject, key, text, aad, nonce, other :: var sealed := c.encrypt(subject, key, text, aad, nonce);
      sealed.Some? && other != aad ==> c.decrypt(subject, key, sealed.value, other).None?
  }

  /** The key the cipher names for a new encryption, None when it raises, and the randomness of that encryption. */
  datatype Sealing = Sealing(keyId: Option<string>, nonce: nat)
}
