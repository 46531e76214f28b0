/**
 * A stand-in for the Fernet cipher that protects stored secrets.
 *
 * A token is the version marker, then the key it was made under (standing for the
 * HMAC that binds a Fernet token to its key), then the per-token nonce (Fernet's
 * random IV, supplied by the caller), then the plaintext. Confidentiality is not
 * modelled; what is modelled is that a token decrypts back to its plaintext under
 * its own key and that anything else fails to decrypt.
 */
module Cipher {
  import opened Wrappers
  import opened Errors

  /** A Fernet key is 32 bytes in URL-safe base64. */
  const KeyLength: nat := 44
  /** The initialisation vector carried by every token. */
  const NonceLength: nat := 16
  /** The prefix every token of this cipher starts with. */
  const Version: string := "gAAAAA"

  type Key = k: string | |k| == KeyLength witness seq(KeyLength, i => 'k')
  type Nonce = n: string | |n| == NonceLength witness seq(NonceLength, i => 'n')

  /** Length of the part of a token that precedes the plaintext. */
  const HeaderLength: nat := |Version| + KeyLength + NonceLength

  /** `encrypt_value` (config.py:90-92). */
  function Encrypt(key: Key, nonce: Nonce, plaintext: string): (token: string)
    ensures token != plaintext
    ensures Decrypt(key, token) == Ok(plaintext)
  {
    var token := Version + key + nonce + plaintext;
    assert token[..|Version|] == Version;
    assert token[|Version|..|Version| + KeyLength] == key;
    assert token[HeaderLength..] == plaintext;
    token
  }

  /** `decrypt_value` (config.py:94-100): any failure surfaces as one RuntimeError. */
  function Decrypt(key: Key, token: string): (r: Result<string, Error>)
    ensures r.Err? ==> r.error == DecryptFailed
  {
    if |token| >= HeaderLength && token[..|Version|] == Version
       && token[|Version|..|Version| + KeyLength] == key
    then Ok(token[HeaderLength..])
    else Err(DecryptFailed)
  }

  /** Only a token made under `key` decrypts under `key`. */
  lemma OnlyTokensDecrypt(key: Key, token: string)
    requires Decrypt(key, token).Ok?
    ensures exists nonce: Nonce, p: string :: token == Encrypt(key, nonce, p)
  {
    var nonce: Nonce := token[|Version| + KeyLength..HeaderLength];
    var p := token[HeaderLength..];
    assert token == token[..|Version|] + token[|Version|..|Version| + KeyLength] + nonce + p;
    assert token == Encrypt(key, nonce, p);
  }

  /** A token made under another key fails to decrypt. */
  lemma ForeignTokenFails(made: Key, used: Key, nonce: Nonce, plaintext: string)
    requires made != used
    ensures Decrypt(used, Encrypt(made, nonce, plaintext)) == Err(DecryptFailed)
  {
    var token := Encrypt(made, nonce, plaintext);
    assert token[|Version|..|Version| + KeyLength] == made;
  }
}
