/** Seal and Open as they run: on key bytes borrowed from the provider and cleared afterwards (secure.go). */
module Sealing {
  import opened Results
  import opened Envelopes
  import opened KeyProvider
  import opened Text

  /** Puts a message in a box under the key the buffer holds at this moment. */
  method SealBox<T>(key: array<byte>, nonce: Bytes, plain: T, aad: string) returns (box: Sealed<T>)
    ensures box == Box(key[..], nonce, plain, aad)
  {
    box := Box(key[..], nonce, plain, aad);
  }

  method SealEnvelope(k: MemoryKeyProvider, plain: Plaintext, path: string, version: nat,
      r: Coins) returns (e: Result<Envelope>)
    requires k.Valid()
    ensures e == Seal(k.Model(), plain, path, version, r)
    ensures var kv := k.Model().current;
      var context := "lockgate:" + path + ":" + Decimal(version) + ":" + kv;
      e == Ok(Envelope(Box(r.dek, r.nonce, plain, context), r.nonce,
                       r.wrapNonce, Box(k.Model().keys[kv], r.wrapNonce, r.dek, context), "AES-256-GCM", kv))
  {
    var kv, key := k.Current();
    if key.Length != KEY_BYTES {
      return Err(Internal);
    }
    var aad := Context(path, version, kv);
    var dek := new byte[|r.dek|](i requires 0 <= i < |r.dek| => r.dek[i]);
    assert dek[..] == r.dek;
    var ciphertext := SealBox(dek, r.nonce, plain, aad);
    var wrapped := SealBox(key, r.wrapNonce, dek[..], aad);
    Clear(dek);
    e := Ok(Envelope(ciphertext, r.nonce, r.wrapNonce, wrapped, ALGORITHM, kv));
  }

  method OpenEnvelope(k: MemoryKeyProvider, e: Envelope, path: string, version: nat) returns (plain: Result<Plaintext>)
    requires k.Valid()
    ensures plain == Open(k.Model(), e, path, version)
    ensures var context := "lockgate:" + path + ":" + Decimal(version) + ":" + e.keyVersion;
      plain.Ok? <==>
        && e.algorithm == "AES-256-GCM" && e.keyVersion in k.Model().keys
        && e.wrapped.Box? && e.wrapped.key == k.Model().keys[e.keyVersion] && e.wrapped.nonce == e.wrapNonce
        && e.wrapped.aad == context && |e.wrapped.plain| == 32 && |e.nonce| == 12
        && e.ciphertext.Box? && e.ciphertext.key == e.wrapped.plain && e.ciphertext.nonce == e.nonce
        && e.ciphertext.aad == context
    ensures plain.Ok? ==> plain.value == e.ciphertext.plain
  {
    if e.algorithm != ALGORITHM {
      return Err(Internal);
    }
    var key := k.Key(e.keyVersion);
    if key.Err? {
      return Err(Internal);
    }
    if key.value.Length != KEY_BYTES {
      return Err(Internal);
    }
    var aad := Context(path, version, e.keyVersion);
    var dek := OpenBox(key.value[..], e.wrapNonce, e.wrapped, aad);
    if dek.Err? {
      return Err(Internal);
    }
    if |dek.value| != KEY_BYTES || |e.nonce| != NONCE_BYTES {
      return Err(Internal);
    }
    plain := OpenBox(dek.value, e.nonce, e.ciphertext, aad);
  }
}
