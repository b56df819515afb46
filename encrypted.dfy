/** The `Encrypted` attribute cast (app/Casts/Encrypted.php) over a model of
    Laravel's `Crypt::encryptString` / `Crypt::decryptString`.

    The real cipher (an authenticated symmetric encryption under the
    application key) is replaced by a tagged encoding. The model relies only on
    what the cast's callers rely on: decrypting what was encrypted gives the
    plaintext back, and a value that was not produced by encryption does not
    decrypt. */
module Encrypted {
  import opened Wrappers
  import opened PhpValues

  const Tag: string := "enc:"

  /** `Crypt::encryptString`. */
  function Encrypt(plain: string): (c: string)
    ensures |c| > |plain|
    ensures Truthy(c)
  {
    Tag + plain
  }

  /** `Crypt::decryptString`; `None` stands for a `DecryptException`. */
  function Decrypt(c: string): (p: Option<string>)
    ensures p.Some? ==> |p.value| < |c|
  {
    if |c| >= |Tag| && c[..|Tag|] == Tag then Some(c[|Tag|..]) else None
  }

  /** The cipher's one law: decrypting an encryption gives the plaintext. */
  lemma DecryptEncrypt(x: string)
    ensures Decrypt(Encrypt(x)) == Some(x)
  {
    assert Encrypt(x)[..|Tag|] == Tag;
    assert Encrypt(x)[|Tag|..] == x;
  }

  /** `Encrypted::get`: the stored column value to the attribute value. */
  function Get(raw: Option<string>): (v: Option<string>)
    ensures raw.None? ==> v.None?
    ensures raw.Some? && Decrypt(raw.value).None? ==> v.None?
    ensures raw.Some? && Decrypt(raw.value).Some? ==> v == Decrypt(raw.value)
  {
    match raw
    case None => None
    case Some(c) => Decrypt(c)
  }

  /** `Encrypted::set`: the attribute value to the stored column value. */
  function Set(v: Option<string>): (raw: Option<string>)
    ensures v.None? <==> raw.None?
    ensures v.Some? ==> Decrypt(raw.value) == Some(v.value)
  {
    match v
    case None => None
    case Some(x) => DecryptEncrypt(x); Some(Encrypt(x))
  }

  /** Reading back what was written gives the written value, null included. */
  lemma GetSet(v: Option<string>)
    ensures Get(Set(v)) == v
  {
    if v.Some? {
      DecryptEncrypt(v.value);
    }
  }

  /** Writing a value that is already a ciphertext through the cast stores its
      encryption; reading it back yields the ciphertext, not the plaintext. */
  lemma {:induction false} SetOfCiphertext(x: string)
    ensures Set(Some(Encrypt(x))) == Some(Encrypt(Encrypt(x)))
    ensures Get(Set(Some(Encrypt(x)))) == Some(Encrypt(x))
    ensures Get(Set(Some(Encrypt(x)))) != Some(x)
  {
    GetSet(Some(Encrypt(x)));
  }
}
