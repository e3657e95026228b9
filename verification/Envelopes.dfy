/** Envelope encryption under an ideal AEAD, and the context it authenticates (secure.go). */
module Envelopes {
  import opened Results
  import opened Text
  import Paths

  newtype byte = x: int | 0 <= x < 256
  type Bytes = seq<byte>
  type Values = map<string, string>

  /** What is encrypted: the JSON form of a secret's values, or an authenticator seed. */
  datatype Plaintext = Json(values: Values) | Seed(text: string)

  /** A sealed message of an ideal AEAD, or any other bytes, which open under nothing. */
  datatype Sealed<T> =
    | Box(key: Bytes, nonce: Bytes, plain: T, aad: string)
    | Noise(bytes: Bytes)

  datatype Envelope = Envelope(
    ciphertext: Sealed<Plaintext>, nonce: Bytes,
    wrapNonce: Bytes, wrapped: Sealed<Bytes>,
    algorithm: string, keyVersion: string)

  /** The master keys a process holds. */
  datatype Provider = Provider(current: string, keys: map<string, Bytes>)

  /** The random choices of one sealing. */
  datatype Coins = Coins(dek: Bytes, nonce: Bytes, wrapNonce: Bytes)

  const ALGORITHM := "AES-256-GCM"
  const KEY_BYTES := 32
  const NONCE_BYTES := 12

  predicate ValidCoins(r: Coins) {
    |r.dek| == KEY_BYTES && |r.nonce| == NONCE_BYTES && |r.wrapNonce| == NONCE_BYTES
  }

  predicate ValidProvider(k: Provider) {
    && k.current in k.keys && k.current != ""
    && forall v | v in k.keys :: |k.keys[v]| == KEY_BYTES
  }

  /** The associated data of both layers: `lockgate:<path>:<version>:<key version>`. */
  function Context(path: string, version: nat, keyVersion: string): string {
    "lockgate:" + path + ":" + Decimal(version) + ":" + keyVersion
  }

  function SeedPath(admin: nat): string {
    "admin-totp:" + Decimal(admin)
  }

  function OpenBox<T>(key: Bytes, nonce: Bytes, box: Sealed<T>, aad: string): Result<T> {
    if box.Box? && box.key == key && box.nonce == nonce && box.aad == aad then Ok(box.plain) else Err(Internal)
  }

  function SealWith(kv: string, key: Bytes, plain: Plaintext, path: string, version: nat, r: Coins): Envelope {
    var aad := Context(path, version, kv);
    Envelope(Box(r.dek, r.nonce, plain, aad), r.nonce, r.wrapNonce, Box(key, r.wrapNonce, r.dek, aad), ALGORITHM, kv)
  }

  function Seal(k: Provider, plain: Plaintext, path: string, version: nat, r: Coins): Result<Envelope> {
    if k.current !in k.keys || |k.keys[k.current]| != KEY_BYTES then Err(Internal)
    else Ok(SealWith(k.current, k.keys[k.current], plain, path, version, r))
  }

  function Open(k: Provider, e: Envelope, path: string, version: nat): Result<Plaintext> {
    if e.algorithm != ALGORITHM then Err(Internal)
    else if e.keyVersion !in k.keys || |k.keys[e.keyVersion]| != KEY_BYTES then Err(Internal)
    else
      var aad := Context(path, version, e.keyVersion);
      var dek := OpenBox(k.keys[e.keyVersion], e.wrapNonce, e.wrapped, aad);
      if dek.Err? then Err(Internal)
      else if |dek.value| != KEY_BYTES || |e.nonce| != NONCE_BYTES then Err(Internal)
      else OpenBox(dek.value, e.nonce, e.ciphertext, aad)
  }

  // ---- the context determines what it was printed from ----

  lemma CutAtColon(a: string, x: string, b: string, y: string)
    requires ':' !in a && ':' !in b
    requires a + ":" + x == b + ":" + y
    ensures a == b && x == y
  {
    var s := a + ":" + x;
    assert s[|a|] == ':' && s[|b|] == ':';
    assert forall i | 0 <= i < |a| :: s[i] == a[i];
    assert forall i | 0 <= i < |b| :: s[i] == b[i];
    assert |a| == |b|;
    assert s[..|a|] == a && s[..|b|] == b;
    assert s[|a| + 1..] == x && s[|b| + 1..] == y;
  }

  lemma DecimalHasNoColon(n: nat)
    ensures ':' !in Decimal(n)
  {
    ParseDecimal(n);
  }

  lemma ValidPathHasNoColon(path: string)
    requires Paths.ValidPath(path)
    ensures ':' !in path
  {
    if ':' in path {
      Paths.PathCharacters(path, ':');
      assert false;
    }
  }

  /** Over secret paths the printed context is injective. */
  lemma ContextInjective(p: string, v: nat, kv: string, p': string, v': nat, kv': string)
    requires Paths.ValidPath(p) && Paths.ValidPath(p')
    requires Context(p, v, kv) == Context(p', v', kv')
    ensures p == p' && v == v' && kv == kv'
  {
    ValidPathHasNoColon(p);
    ValidPathHasNoColon(p');
    DecimalHasNoColon(v);
    DecimalHasNoColon(v');
    ContextBody(p, v, kv);
    ContextBody(p', v', kv');
    CutAtColon(p, Decimal(v) + ":" + kv, p', Decimal(v') + ":" + kv');
    CutAtColon(Decimal(v), kv, Decimal(v'), kv');
    ParseDecimal(v);
    ParseDecimal(v');
  }

  lemma ContextBody(p: string, v: nat, kv: string)
    ensures Context(p, v, kv)[9..] == p + ":" + (Decimal(v) + ":" + kv)
  {
    assert Context(p, v, kv) == "lockgate:" + (p + ":" + (Decimal(v) + ":" + kv));
  }

  /**
   * A secret's context equals an authenticator seed's context in one case only: the secret is
   * called `admin-totp`, its version is the administrator's number, and its key version starts
   * with the seed's version. A colon-free key version rules that out.
   */
  lemma SeedContextCollision(p: string, v: nat, kv: string, admin: nat, kv': string)
    requires Paths.ValidPath(p)
    ensures Context(p, v, kv) == Context(SeedPath(admin), 1, kv') <==>
            p == "admin-totp" && v == admin && kv == "1:" + kv'
    ensures ':' !in kv ==> Context(p, v, kv) != Context(SeedPath(admin), 1, kv')
  {
    ValidPathHasNoColon(p);
    DecimalHasNoColon(v);
    DecimalHasNoColon(admin);
    ContextBody(p, v, kv);
    ContextBody(SeedPath(admin), 1, kv');
    assert Decimal(1) == "1";
    assert SeedPath(admin) + ":" + ("1" + ":" + kv') == "admin-totp" + ":" + (Decimal(admin) + ":" + ("1:" + kv'));
    if Context(p, v, kv) == Context(SeedPath(admin), 1, kv') {
      CutAtColon(p, Decimal(v) + ":" + kv, "admin-totp", Decimal(admin) + ":" + ("1:" + kv'));
      CutAtColon(Decimal(v), kv, Decimal(admin), "1:" + kv');
      ParseDecimal(v);
      ParseDecimal(admin);
    }
    if p == "admin-totp" && v == admin && kv == "1:" + kv' {
      assert Context(p, v, kv) == "lockgate:" + (p + ":" + (Decimal(v) + ":" + kv));
      assert Context(SeedPath(admin), 1, kv') == "lockgate:" + (SeedPath(admin) + ":" + ("1" + ":" + kv'));
    }
    if kv == "1:" + kv' {
      assert kv[1] == ':';
    }
  }

  // ---- opening ----

  /** Opening succeeds on exactly the envelopes sealed under a held key for that context. */
  lemma OpensExactlySealed(k: Provider, e: Envelope, path: string, version: nat, plain: Plaintext)
    ensures Open(k, e, path, version) == Ok(plain) <==>
            && e.keyVersion in k.keys && |k.keys[e.keyVersion]| == KEY_BYTES
            && exists r: Coins :: |r.dek| == KEY_BYTES && |r.nonce| == NONCE_BYTES
                 && e == SealWith(e.keyVersion, k.keys[e.keyVersion], plain, path, version, r)
  {
    if Open(k, e, path, version) == Ok(plain) {
      var r := Coins(e.wrapped.plain, e.nonce, e.wrapNonce);
      assert e == SealWith(e.keyVersion, k.keys[e.keyVersion], plain, path, version, r);
    }
  }

  lemma SealedOpens(k: Provider, plain: Plaintext, p: string, v: nat, r: Coins)
    requires ValidProvider(k) && ValidCoins(r)
    ensures Seal(k, plain, p, v, r).Ok?
    ensures Open(k, Seal(k, plain, p, v, r).value, p, v) == Ok(plain)
  {
  }

  /** What an envelope is sealed for: a version of a secret, or an administrator's authenticator. */
  datatype Purpose = SecretVersion(path: string, version: nat) | Authenticator(admin: nat)

  predicate ValidPurpose(u: Purpose) {
    u.SecretVersion? ==> Paths.ValidPath(u.path)
  }

  function PurposePath(u: Purpose): string {
    match u
    case SecretVersion(path, _) => path
    case Authenticator(admin) => SeedPath(admin)
  }

  function PurposeVersion(u: Purpose): nat {
    if u.SecretVersion? then u.version else 1
  }

  /** Authenticator paths have one colon, after which comes the administrator's number. */
  lemma SeedPathsApart(admin: nat, admin': nat, kv: string)
    requires Context(SeedPath(admin), 1, kv) == Context(SeedPath(admin'), 1, kv)
    ensures admin == admin'
  {
    ContextBody(SeedPath(admin), 1, kv);
    ContextBody(SeedPath(admin'), 1, kv);
    SeedContextBody(admin, kv);
    SeedContextBody(admin', kv);
    DecimalHasNoColon(admin);
    DecimalHasNoColon(admin');
    var rest := Decimal(1) + ":" + kv;
    CutAtColon("admin-totp", Decimal(admin) + ":" + rest, "admin-totp", Decimal(admin') + ":" + rest);
    CutAtColon(Decimal(admin), rest, Decimal(admin'), rest);
    ParseDecimal(admin);
    ParseDecimal(admin');
  }

  lemma SeedContextBody(admin: nat, kv: string)
    ensures SeedPath(admin) + ":" + (Decimal(1) + ":" + kv) == "admin-totp" + ":" + (Decimal(admin) + ":" + (Decimal(1) + ":" + kv))
  {
  }

  /** Under one key version two purposes never share a context. */
  lemma PurposesApart(u: Purpose, u': Purpose, kv: string)
    requires ValidPurpose(u) && ValidPurpose(u')
    requires Context(PurposePath(u), PurposeVersion(u), kv) == Context(PurposePath(u'), PurposeVersion(u'), kv)
    ensures u == u'
  {
    hide Context, Paths.ValidPath;
    match (u, u')
    case (SecretVersion(p, v), SecretVersion(p', v')) => ContextInjective(p, v, kv, p', v', kv);
    case (SecretVersion(p, v), Authenticator(admin)) => SeedContextCollision(p, v, kv, admin, kv);
    case (Authenticator(admin), SecretVersion(p, v)) => SeedContextCollision(p, v, kv, admin, kv);
    case (Authenticator(admin), Authenticator(admin')) => SeedPathsApart(admin, admin', kv);
  }

  /**
   * A sealed envelope opens for one purpose and one key only, and then to what was sealed: never
   * for another path, version or administrator, a secret's never as a seed nor a seed's as a secret.
   */
  lemma SealedOpensOnlyInContext(k: Provider, plain: Plaintext, u: Purpose, r: Coins, k': Provider, u': Purpose)
    requires ValidProvider(k) && ValidCoins(r) && ValidPurpose(u) && ValidPurpose(u')
    ensures var e := Seal(k, plain, PurposePath(u), PurposeVersion(u), r);
      && e.Ok?
      && (Open(k', e.value, PurposePath(u'), PurposeVersion(u')).Ok? <==>
            k.current in k'.keys && k'.keys[k.current] == k.keys[k.current] && u' == u)
      && (Open(k', e.value, PurposePath(u'), PurposeVersion(u')).Ok? ==>
            Open(k', e.value, PurposePath(u'), PurposeVersion(u')) == Ok(plain))
  {
    hide Context, Paths.ValidPath;
    var kv := k.current;
    if Context(PurposePath(u), PurposeVersion(u), kv) == Context(PurposePath(u'), PurposeVersion(u'), kv) {
      PurposesApart(u, u', kv);
    }
  }
}
