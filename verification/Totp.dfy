/**
 * Time-based one-time passwords as the program computes them, against the definitions of RFC 4226
 * (section 5.3) and RFC 6238 (section 5.2). The MAC and the base32 decoder are parameters (secure.go).
 */
module Totp {
  import opened Results
  import opened Envelopes
  import opened Text

  const DIGEST_BYTES := 20
  const MIN_KEY := 16
  const STEP := 30
  const CODE_DIGITS := 6
  const MODULUS := 1_000_000
  const WORD := 0x1_0000_0000_0000_0000

  /** HMAC-SHA-1: whatever the key and message, twenty bytes. */
  type Mac = f: (Bytes, Bytes) -> Bytes | forall k, m :: |f(k, m)| == DIGEST_BYTES witness (k, m) => seq(20, i => 0)

  // ---- big-endian numbers ----

  function BigEndian(s: Bytes): nat {
    if s == [] then 0 else 256 * BigEndian(s[..|s| - 1]) + s[|s| - 1] as nat
  }

  function Power(n: nat): nat {
    if n == 0 then 1 else 256 * Power(n - 1)
  }

  /** The last n bytes of v. */
  function LowBytes(v: nat, n: nat): (s: Bytes)
    ensures |s| == n
  {
    if n == 0 then [] else LowBytes(v / 256, n - 1) + [(v % 256) as byte]
  }

  lemma {:induction false} LowBytesValue(v: nat, n: nat)
    requires v < Power(n)
    ensures BigEndian(LowBytes(v, n)) == v
  {
    if n > 0 {
      LowBytesValue(v / 256, n - 1);
      var s := LowBytes(v, n);
      assert s[..n - 1] == LowBytes(v / 256, n - 1);
    }
  }

  lemma {:induction false} BytesOfValue(s: Bytes)
    ensures BigEndian(s) < Power(|s|) && LowBytes(BigEndian(s), |s|) == s
  {
    if s != [] {
      BytesOfValue(s[..|s| - 1]);
      var v := BigEndian(s);
      assert v / 256 == BigEndian(s[..|s| - 1]) && (v % 256) as byte == s[|s| - 1];
      assert s == s[..|s| - 1] + [s[|s| - 1]];
    }
  }

  lemma WordIsEightBytes()
    ensures Power(8) == WORD
  {
    assert Power(4) == 0x1_0000_0000;
    assert Power(8) == 256 * (256 * (256 * (256 * Power(4))));
  }

  /** The loop that writes the counter's bytes from the last to the first. */
  method FillCounter(value: nat) returns (counter: array<byte>)
    ensures fresh(counter) && counter[..] == LowBytes(value, 8)
  {
    counter := new byte[8](_ => 0);
    var v := value;
    var i := 7;
    while i >= 0
      invariant -1 <= i <= 7
      invariant LowBytes(value, 8) == LowBytes(v, i + 1) + counter[i + 1..]
    {
      ghost var tail := counter[i + 1..];
      counter[i] := (v % 256) as byte;
      assert counter[i..] == [(v % 256) as byte] + tail;
      v := v / 256;
      i := i - 1;
    }
    assert counter[0..] == counter[..];
  }

  /** The eight bytes are the big-endian form of the counter, and of no other. */
  lemma CounterIsBigEndian(value: nat, s: Bytes)
    requires value < WORD && |s| == 8
    ensures s == LowBytes(value, 8) <==> BigEndian(s) == value
  {
    WordIsEightBytes();
    LowBytesValue(value, 8);
    BytesOfValue(s);
  }

  // ---- truncation ----

  function Offset(digest: Bytes): (i: nat)
    requires |digest| == DIGEST_BYTES
    ensures i + 3 < |digest|
  {
    (digest[|digest| - 1] % 16) as nat
  }

  /** The program's four shifted bytes, the first without its top bit. */
  function Truncated(digest: Bytes): nat
    requires |digest| == DIGEST_BYTES
  {
    var i := Offset(digest);
    (digest[i] % 128) as nat * 0x100_0000 + digest[i + 1] as nat * 0x1_0000 + digest[i + 2] as nat * 0x100 + digest[i + 3] as nat
  }

  /** Section 5.3 of RFC 4226: the low 31 bits of the four bytes at the offset. */
  lemma TruncationIsStandard(digest: Bytes)
    requires |digest| == DIGEST_BYTES
    ensures var i := Offset(digest);
      Truncated(digest) == BigEndian(digest[i..i + 4]) % 0x8000_0000
  {
    var i := Offset(digest);
    var s := digest[i..i + 4];
    assert s[..3][..2][..1][..0] == [];
    assert BigEndian(s[..1]) == s[0] as nat;
    assert BigEndian(s[..2]) == 256 * s[0] as nat + s[1] as nat by { assert s[..2][..1] == s[..1]; }
    assert BigEndian(s[..3]) == 256 * (256 * s[0] as nat + s[1] as nat) + s[2] as nat by { assert s[..3][..2] == s[..2]; }
    var top := s[0] as nat;
    var low := s[1] as nat * 0x1_0000 + s[2] as nat * 0x100 + s[3] as nat;
    assert BigEndian(s) == top * 0x100_0000 + low;
    assert top == 128 * (top / 128) + top % 128;
    assert BigEndian(s) == 0x8000_0000 * (top / 128) + ((top % 128) * 0x100_0000 + low);
  }

  // ---- six digits ----

  function Zeros(n: nat): string { seq(n, i => '0') }

  /** `%06d` */
  function SixDigits(m: nat): string {
    var s := Decimal(m);
    if |s| < CODE_DIGITS then Zeros(CODE_DIGITS - |s|) + s else s
  }

  lemma {:induction false} DecimalLength(m: nat, k: nat)
    requires k >= 1 && m < Ten(k)
    ensures |Decimal(m)| <= k
  {
    if m >= 10 {
      DecimalLength(m / 10, k - 1);
    }
  }

  function Ten(k: nat): nat {
    if k == 0 then 1 else 10 * Ten(k - 1)
  }

  lemma {:induction false} ParsePadded(n: nat, s: string)
    requires forall c | c in s :: IsDigit(c)
    ensures forall c | c in Zeros(n) + s :: IsDigit(c)
    ensures Parse(Zeros(n) + s) == Parse(s)
  {
    var all := Zeros(n) + s;
    if s != "" {
      ParsePadded(n, s[..|s| - 1]);
      assert all[..|all| - 1] == Zeros(n) + s[..|s| - 1];
    } else if n > 0 {
      ParsePadded(n - 1, s);
      assert all[..n - 1] == Zeros(n - 1) + s;
    }
  }

  /** Always six digits, and they read back as the number. */
  lemma SixDigitsParse(m: nat)
    requires m < MODULUS
    ensures |SixDigits(m)| == CODE_DIGITS
    ensures forall c | c in SixDigits(m) :: IsDigit(c)
    ensures Parse(SixDigits(m)) == m
  {
    assert Ten(6) == MODULUS;
    ParseDecimal(m);
    DecimalLength(m, 6);
    ParsePadded(CODE_DIGITS - |Decimal(m)|, Decimal(m));
  }

  // ---- the code of a moment ----

  /** The decoded seed, if there is one and it is long enough. */
  function KeyOf(base32: string -> Option<Bytes>, seed: string): Option<Bytes> {
    var key := base32(seed);
    if key.None? || |key.value| < MIN_KEY then None else key
  }

  /** The one-time password of RFC 4226 for a counter. */
  ghost function Hotp(mac: Mac, key: Bytes, counter: nat): string {
    var digest := mac(key, LowBytes(counter, 8));
    SixDigits(BigEndian(digest[Offset(digest)..Offset(digest) + 4]) % 0x8000_0000 % MODULUS)
  }

  /** Integer division as Go does it, towards zero. */
  function Quotient(a: int, b: nat): int
    requires b > 0
  {
    if a >= 0 then a / b else -((-a) / b)
  }

  /** The counter of a moment: the quotient, wrapped to 64 bits. */
  function CounterAt(t: int): (v: nat)
    ensures v < WORD
  {
    Quotient(t, STEP) % WORD
  }

  ghost function CodeAt(mac: Mac, base32: string -> Option<Bytes>, seed: string, t: int): string {
    match KeyOf(base32, seed)
    case None => ""
    case Some(key) => Hotp(mac, key, CounterAt(t))
  }

  method TotpCode(mac: Mac, base32: string -> Option<Bytes>, seed: string, t: int) returns (code: string)
    ensures code == CodeAt(mac, base32, seed, t)
  {
    var key := base32(seed);
    if key.None? || |key.value| < MIN_KEY {
      return "";
    }
    var counter := FillCounter(CounterAt(t));
    var digest := mac(key.value, counter[..]);
    TruncationIsStandard(digest);
    code := SixDigits(Truncated(digest) % MODULUS);
  }

  predicate Digits(code: string) {
    |code| == CODE_DIGITS && forall i | 0 <= i < |code| :: IsDigit(code[i])
  }

  method VerifyTotp(mac: Mac, base32: string -> Option<Bytes>, seed: string, code: string, t: int) returns (ok: bool)
    ensures ok <==> Verifies(mac, base32, seed, code, t)
  {
    hide CodeAt;
    if |code| != CODE_DIGITS {
      return false;
    }
    for i := 0 to |code|
      invariant forall j | 0 <= j < i :: IsDigit(code[j])
    {
      if !IsDigit(code[i]) {
        return false;
      }
    }
    var offset := -1;
    while offset <= 1
      invariant -1 <= offset <= 2
      invariant forall d | -1 <= d < offset :: code != CodeAt(mac, base32, seed, t + d * STEP)
    {
      var expected := TotpCode(mac, base32, seed, t + offset * STEP);
      if code == expected {
        return true;
      }
      offset := offset + 1;
    }
    ok := false;
  }

  ghost predicate Verifies(mac: Mac, base32: string -> Option<Bytes>, seed: string, code: string, t: int) {
    Digits(code) && exists d | -1 <= d <= 1 :: code == CodeAt(mac, base32, seed, t + d * STEP)
  }

  // ---- which codes verify ----

  lemma HotpDigits(mac: Mac, key: Bytes, counter: nat)
    ensures Digits(Hotp(mac, key, counter))
  {
    var digest := mac(key, LowBytes(counter, 8));
    SixDigitsParse(BigEndian(digest[Offset(digest)..Offset(digest) + 4]) % 0x8000_0000 % MODULUS);
  }

  /** The counters whose codes are accepted at a moment. */
  function AcceptedCounters(t: nat): set<nat> {
    if t >= STEP then {t / STEP - 1, t / STEP, t / STEP + 1}
    else if t > 0 then {0, 1}
    else {WORD - 1, 0, 1}
  }

  lemma CountersAround(t: nat)
    requires t / STEP + 1 < WORD
    ensures {CounterAt(t - STEP), CounterAt(t), CounterAt(t + STEP)} == AcceptedCounters(t)
  {
    assert (t + STEP) / STEP == t / STEP + 1;
    if t >= STEP {
      assert (t - STEP) / STEP == t / STEP - 1;
    } else if t == 0 {
      assert CounterAt(-30) == WORD - 1;
    } else {
      assert Quotient(t - STEP, STEP) == 0;
    }
  }

  /**
   * A code verifies exactly when the seed is well formed and it is the code of an accepted
   * counter: from 30 seconds on, of the step before, the step itself or the step after.
   */
  lemma VerifiesExactly(mac: Mac, base32: string -> Option<Bytes>, seed: string, code: string, t: nat)
    requires t / 30 + 1 < 0x1_0000_0000_0000_0000
    ensures Verifies(mac, base32, seed, code, t) <==>
            && base32(seed).Some? && |base32(seed).value| >= 16
            && exists n: nat | (if t >= 30 then t / 30 - 1 <= n <= t / 30 + 1
                                else n == 0 || n == 1 || (t == 0 && n == 0xFFFF_FFFF_FFFF_FFFF)) ::
                 code == Hotp(mac, base32(seed).value, n)
  {
    hide Hotp, CounterAt, Digits, AcceptedCounters;
    CountersAround(t);
    AcceptedWrittenOut(t);
    match KeyOf(base32, seed)
    case None =>
      if Verifies(mac, base32, seed, code, t) { EmptyIsNoCode(); }
    case Some(key) =>
      var s := {CounterAt(t - STEP), CounterAt(t), CounterAt(t + STEP)};
      forall n { HotpDigits(mac, key, n); }
      if n :| n in s && code == Hotp(mac, key, n) {
        var d := if n == CounterAt(t) then 0 else if n == CounterAt(t - STEP) then -1 else 1;
        assert code == CodeAt(mac, base32, seed, t + d * STEP);
      }
      if Verifies(mac, base32, seed, code, t) {
        var d :| -1 <= d <= 1 && code == CodeAt(mac, base32, seed, t + d * STEP);
        assert CounterAt(t + d * STEP) in s;
        assert CounterAt(t + d * STEP) in AcceptedCounters(t);
      }
  }

  /**
   * The one-time password of a counter: the six digits of the number that the low 31 bits of four
   * bytes of the digest leave modulo a million, read from the place the last byte's low half names.
   * The digest is of the counter's eight bytes, most significant first.
   */
  lemma HotpWrittenOut(mac: Mac, key: Bytes, counter: nat)
    requires counter < 0x1_0000_0000_0000_0000
    ensures exists message: Bytes | |message| == 8 && BigEndian(message) == counter ::
              var d := mac(key, message);
              var o := (d[19] % 16) as nat;
              var n := (d[o] % 128) as nat * 0x100_0000 + d[o + 1] as nat * 0x1_0000 + d[o + 2] as nat * 0x100 + d[o + 3] as nat;
              && |Hotp(mac, key, counter)| == 6
              && (forall c | c in Hotp(mac, key, counter) :: '0' <= c <= '9')
              && Parse(Hotp(mac, key, counter)) == n % 1_000_000
  {
    hide SixDigits, Parse;
    var message := LowBytes(counter, 8);
    CounterIsBigEndian(counter, message);
    var digest := mac(key, message);
    TruncationIsStandard(digest);
    SixDigitsParse(Truncated(digest) % MODULUS);
  }

  lemma AcceptedWrittenOut(t: nat)
    ensures forall n: nat :: n in AcceptedCounters(t) <==>
              if t >= 30 then t / 30 - 1 <= n <= t / 30 + 1
              else n == 0 || n == 1 || (t == 0 && n == 0xFFFF_FFFF_FFFF_FFFF)
  {
  }

  lemma EmptyIsNoCode()
    ensures !Digits("")
  {
  }
}
