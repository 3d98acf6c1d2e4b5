// Symbolic cryptography. A key id stands for a data key, an identity number for a person's key
// pair (its public halves carry the same number). Randomness is always a parameter: the caller
// passes the nonce or key that was drawn.
module Crypto {
  import opened Wrappers

  type KeyId = nat
  type Nonce = nat
  type PersonId = nat

  /** What an AEAD box contains; `Noise` is any string that no key produced. */
  datatype Ciphertext = Sealed(key: KeyId, nonce: Nonce, plain: string) | Noise(tag: nat)

  datatype EncryptedValue = EncryptedValue(nonce: Nonce, ciphertext: Ciphertext)

  function EncryptValue(key: KeyId, nonce: Nonce, plain: string): EncryptedValue {
    EncryptedValue(nonce, Sealed(key, nonce, plain))
  }

  /** Authenticated decryption: any other key, nonce or string fails closed. */
  function DecryptValue(key: KeyId, value: EncryptedValue): Option<string> {
    match value.ciphertext
    case Sealed(k, n, plain) => if k == key && n == value.nonce then Some(plain) else None
    case Noise(_) => None
  }

  /** An anonymous sealed box holding a data key for one recipient. */
  datatype SealedDek = Box(recipient: PersonId, dek: KeyId) | BadBox(tag: nat)

  function WrapDek(dek: KeyId, recipient: PersonId): SealedDek {
    Box(recipient, dek)
  }

  function UnwrapDek(box: SealedDek, person: PersonId): Option<KeyId> {
    match box
    case Box(recipient, dek) => if recipient == person then Some(dek) else None
    case BadBox(_) => None
  }
}
