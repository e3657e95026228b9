/** The login limiter: ten attempts per address and window, over a bounded map (server.go). */
module RateLimiter {

  const SECOND := 1_000_000_000
  const WINDOW := 600 * SECOND
  const LIMIT := 10
  const CAPACITY := 10000

  datatype Attempt = Attempt(count: nat, until: int)
  type Attempts = map<string, Attempt>

  // ---- one call ----

  function Prune(m: Attempts, now: int): Attempts {
    map k | k in m && now <= m[k].until :: m[k]
  }

  function Allow(m: Attempts, ip: string, now: int): (Attempts, bool) {
    var p := Prune(m, now);
    if ip !in p && |p| >= CAPACITY then (p, false)
    else
      var v := if ip in p then p[ip] else Attempt(0, now + WINDOW);
      (p[ip := v.(count := v.count + 1)], v.count + 1 <= LIMIT)
  }

  class Limiter {
    var attempts: Attempts

    constructor ()
      ensures attempts == map[]
    {
      attempts := map[];
    }

    method LoginAllowed(ip: string, now: int) returns (ok: bool)
      modifies this
      ensures (attempts, ok) == Allow(old(attempts), ip, now)
      ensures forall k | k != ip :: k in attempts <==> k in old(attempts) && now <= old(attempts)[k].until
      ensures forall k | k != ip && k in attempts :: attempts[k] == old(attempts)[k]
      ensures ip in old(attempts) && now <= old(attempts)[ip].until ==>
                && ip in attempts && attempts[ip] == Attempt(old(attempts)[ip].count + 1, old(attempts)[ip].until)
                && (ok <==> old(attempts)[ip].count + 1 <= 10)
      ensures !(ip in old(attempts) && now <= old(attempts)[ip].until) ==>
                if |set k | k in old(attempts) && now <= old(attempts)[k].until| < 10_000
                then ok && ip in attempts && attempts[ip] == Attempt(1, now + 600_000_000_000)
                else !ok && ip !in attempts
    {
      var todo := attempts.Keys;
      while todo != {}
        invariant todo <= attempts.Keys <= old(attempts).Keys
        invariant forall k | k in attempts :: attempts[k] == old(attempts)[k]
        invariant forall k | k in old(attempts) && k !in todo :: k in attempts <==> now <= old(attempts)[k].until
        decreases |todo|
      {
        var k :| k in todo;
        if now > attempts[k].until {
          attempts := attempts - {k};
        }
        todo := todo - {k};
      }
      assert attempts == Prune(old(attempts), now);
      var v: Attempt;
      if ip in attempts {
        v := attempts[ip];
      } else {
        if |attempts| >= CAPACITY {
          return false;
        }
        v := Attempt(0, now + WINDOW);
      }
      v := v.(count := v.count + 1);
      attempts := attempts[ip := v];
      ok := v.count <= LIMIT;
    }
  }

  // ---- runs ----

  datatype Try = Try(ip: string, at: int)

  /** The clock never goes back. */
  ghost predicate Timely(h: seq<Try>) {
    forall i, j | 0 <= i <= j < |h| :: h[i].at <= h[j].at
  }

  function StateAfter(h: seq<Try>): Attempts {
    if h == [] then map[] else Allow(StateAfter(h[..|h| - 1]), h[|h| - 1].ip, h[|h| - 1].at).0
  }

  predicate AdmittedAt(h: seq<Try>, i: nat)
    requires i < |h|
  {
    Allow(StateAfter(h[..i]), h[i].ip, h[i].at).1
  }

  /** How many attempts of an address were admitted at times lo..hi. */
  function Admitted(h: seq<Try>, ip: string, lo: int, hi: int): nat {
    if h == [] then 0
    else
      var n := |h| - 1;
      Admitted(h[..n], ip, lo, hi) + if h[n].ip == ip && lo <= h[n].at <= hi && AdmittedAt(h, n) then 1 else 0
  }

  // ---- the map stays bounded, and a full one refuses strangers ----

  lemma CardinalitySubset<T>(s: set<T>, u: set<T>)
    requires s <= u
    ensures |s| <= |u|
  {
    assert u == s + (u - s);
  }

  lemma {:induction false} MapBounded(h: seq<Try>)
    ensures |StateAfter(h)| <= 10_000
  {
    if h != [] {
      var n := |h| - 1;
      MapBounded(h[..n]);
      var m := StateAfter(h[..n]);
      var p := Prune(m, h[n].at);
      CardinalitySubset(p.Keys, m.Keys);
      if h[n].ip in p {
        assert StateAfter(h).Keys == p.Keys;
      }
    }
  }

  /** When ten thousand windows are open, a new address is refused and no window changes. */
  lemma FullRefuses(m: Attempts, ip: string, now: int)
    requires forall k | k in m :: now <= m[k].until
    requires |m| >= 10_000 && ip !in m
    ensures Allow(m, ip, now) == (m, false)
  {
    assert Prune(m, now) == m;
  }

  // ---- each window admits its first ten attempts ----

  ghost predicate Opens(h: seq<Try>, i: nat)
    requires i < |h|
  {
    var p := Prune(StateAfter(h[..i]), h[i].at);
    h[i].ip !in p && |p| < CAPACITY
  }

  function Count(h: seq<Try>, ip: string, from: nat): nat
    requires from <= |h|
    decreases |h|
  {
    if |h| == from then 0 else Count(h[..|h| - 1], ip, from) + if h[|h| - 1].ip == ip then 1 else 0
  }

  function Least(x: nat, y: nat): nat { if x < y then x else y }

  /** While the window opened by attempt i lasts, exactly the address's first ten attempts in it are admitted. */
  lemma {:induction false} WindowAdmitsTen(h: seq<Try>, i: nat)
    requires Timely(h) && i < |h| && Opens(h, i) && h[|h| - 1].at <= h[i].at + 600_000_000_000
    ensures h[i].ip in StateAfter(h)
    ensures StateAfter(h)[h[i].ip] == Attempt(Count(h, h[i].ip, i), h[i].at + 600_000_000_000)
    ensures h[|h| - 1].ip == h[i].ip ==> (AdmittedAt(h, |h| - 1) <==> Count(h, h[i].ip, i) <= 10)
    decreases |h|
  {
    var n := |h| - 1;
    if i < n {
      assert h[..n][..i] == h[..i];
      assert Opens(h[..n], i);
      WindowAdmitsTen(h[..n], i);
    } else {
      assert Count(h[..n], h[i].ip, i) == 0;
    }
  }

  // ---- any closed interval of one window length ----

  /** What an address may have used up of the interval starting at s, given its open window. */
  ghost predicate Budget(m: Attempts, ip: string, s: int, now: int, used: nat) {
    && (now < s ==> used == 0)
    && used <= 19
    && if ip !in m then used <= 9 || now > s + WINDOW
       else
         var opened_ := m[ip].until - WINDOW;
         && m[ip].count >= 1 && opened_ <= now
         && (opened_ < s ==> used <= Least(m[ip].count, LIMIT) - 1)
         && (s <= opened_ <= s + WINDOW ==> used <= 9 + Least(m[ip].count, LIMIT))
  }

  lemma BudgetStep(m: Attempts, x: Try, ip: string, s: int, before: int, used: nat)
    requires Budget(m, ip, s, before, used) && before <= x.at
    ensures var r := Allow(m, x.ip, x.at);
      Budget(r.0, ip, s, x.at, used + if x.ip == ip && s <= x.at <= s + WINDOW && r.1 then 1 else 0)
  {
  }

  lemma {:induction false} BudgetKept(h: seq<Try>, ip: string, s: int)
    requires Timely(h)
    ensures h != [] ==> Budget(StateAfter(h), ip, s, h[|h| - 1].at, Admitted(h, ip, s, s + WINDOW))
  {
    if h != [] {
      var n := |h| - 1;
      BudgetKept(h[..n], ip, s);
      BudgetStep(StateAfter(h[..n]), h[n], ip, s, if n > 0 then h[n - 1].at else h[n].at, Admitted(h[..n], ip, s, s + WINDOW));
    }
  }

  /** No closed interval as long as a window admits more than nineteen attempts of one address. */
  lemma NineteenAtMost(h: seq<Try>, ip: string, s: int)
    requires Timely(h)
    ensures Admitted(h, ip, s, s + 600_000_000_000) <= 19
  {
    BudgetKept(h, ip, s);
  }

  // ---- more attempts after a known history ----

  function Burst(h: seq<Try>, x: Try, n: nat): (r: seq<Try>)
    ensures |r| == |h| + n
    ensures forall i | |h| <= i < |r| :: r[i] == x
    ensures r[..|h|] == h
  {
    if n == 0 then h else Burst(h, x, n - 1) + [x]
  }

  lemma Snoc(h: seq<Try>, x: Try, ip: string, lo: int, hi: int)
    ensures (StateAfter(h + [x]), AdmittedAt(h + [x], |h|)) == Allow(StateAfter(h), x.ip, x.at)
    ensures Admitted(h + [x], ip, lo, hi)
         == Admitted(h, ip, lo, hi) + if x.ip == ip && lo <= x.at <= hi && AdmittedAt(h + [x], |h|) then 1 else 0
  {
    assert (h + [x])[..|h|] == h;
  }

  /** While its window lasts, attempts of an address are admitted up to the limit. */
  lemma {:induction false} BurstAdmitted(h: seq<Try>, x: Try, n: nat, c: nat, until: int, lo: int, hi: int)
    requires x.ip in StateAfter(h) && StateAfter(h)[x.ip] == Attempt(c, until)
    requires x.at <= until && c + n <= LIMIT && lo <= x.at <= hi
    ensures x.ip in StateAfter(Burst(h, x, n)) && StateAfter(Burst(h, x, n))[x.ip] == Attempt(c + n, until)
    ensures Admitted(Burst(h, x, n), x.ip, lo, hi) == Admitted(h, x.ip, lo, hi) + n
  {
    hide StateAfter, Admitted, AdmittedAt;
    if n > 0 {
      BurstAdmitted(h, x, n - 1, c, until, lo, hi);
      Snoc(Burst(h, x, n - 1), x, x.ip, lo, hi);
    }
  }

  /** Once its window is over, an address that was in the map gets a new one: its own old entry makes room. */
  lemma Reopens(h: seq<Try>, x: Try, lo: int, hi: int)
    requires x.ip in StateAfter(h) && StateAfter(h)[x.ip].until < x.at && lo <= x.at <= hi
    ensures x.ip in StateAfter(h + [x]) && StateAfter(h + [x])[x.ip] == Attempt(1, x.at + WINDOW)
    ensures Admitted(h + [x], x.ip, lo, hi) == Admitted(h, x.ip, lo, hi) + 1
  {
    hide StateAfter, Admitted, AdmittedAt;
    var m := StateAfter(h);
    var p := Prune(m, x.at);
    MapBounded(h);
    CardinalitySubset(p.Keys, m.Keys - {x.ip});
    Snoc(h, x, x.ip, lo, hi);
  }

  lemma TimelyBurst(h: seq<Try>, x: Try, n: nat)
    requires Timely(h) && (h != [] ==> h[|h| - 1].at <= x.at)
    ensures Timely(Burst(h, x, n))
  {
    var r := Burst(h, x, n);
    forall i, j | 0 <= i <= j < |r| ensures r[i].at <= r[j].at {
      if i < |h| { assert r[i] == r[..|h|][i] == h[i]; }
      if j < |h| { assert r[j] == r[..|h|][j] == h[j]; }
    }
  }

  // ---- nineteen is reached ----

  /** One attempt at 0, nine when the window ends, ten a moment later: nineteen within one window length. */
  lemma NineteenReached(ip: string)
    ensures exists h: seq<Try> :: Timely(h) && Admitted(h, ip, 1, 1 + 600_000_000_000) == 19
  {
    var first := [Try(ip, 0)];
    assert first[..0] == [];
    assert StateAfter(first) == map[ip := Attempt(1, WINDOW)];
    var h := TwoWindows(first, ip, 1, 1, WINDOW);
  }

  /** `r` goes on from `h` with attempts between `from` and `to`. */
  ghost predicate Extends(h: seq<Try>, r: seq<Try>, from: int, to: int) {
    && |h| <= |r| && r[..|h|] == h && Timely(r)
    && forall i | |h| <= i < |r| :: from <= r[i].at <= to
  }

  lemma BurstExtends(h: seq<Try>, r: seq<Try>, x: Try, n: nat, from: int, to: int)
    requires Extends(h, r, from, to) && to <= x.at && from <= x.at && (h != [] ==> h[|h| - 1].at <= x.at)
    ensures Extends(h, Burst(r, x, n), from, x.at)
  {
    hide Timely;
    assert r != [] ==> r[|r| - 1].at <= x.at by {
      if r != [] && |r| == |h| { assert r[|r| - 1] == r[..|h|][|h| - 1]; }
    }
    TimelyBurst(r, x, n);
    var t := Burst(r, x, n);
    assert t[..|h|] == t[..|r|][..|h|];
    forall i | |h| <= i < |t| ensures from <= t[i].at <= x.at {
      if i < |r| { assert t[i] == t[..|r|][i]; }
    }
  }

  /** Fills an open window at `s` and the next one right after its end. */
  lemma TwoWindows(h: seq<Try>, ip: string, s: int, c: nat, until: int) returns (r: seq<Try>)
    requires Timely(h) && (h != [] ==> h[|h| - 1].at < s)
    requires ip in StateAfter(h) && StateAfter(h)[ip] == Attempt(c, until) && c <= LIMIT
    requires s <= until < s + WINDOW
    ensures Extends(h, r, s, until + 1)
    ensures Admitted(r, ip, s, s + WINDOW) == Admitted(h, ip, s, s + WINDOW) + (LIMIT - c) + LIMIT
  {
    hide StateAfter, Admitted, AdmittedAt, Timely, Extends;
    var now, next := Try(ip, s), Try(ip, until + 1);
    assert Extends(h, h, s, s) by { ExtendsItself(h, s); }
    var full := Burst(h, now, LIMIT - c);
    BurstExtends(h, h, now, LIMIT - c, s, s);
    BurstAdmitted(h, now, LIMIT - c, c, until, s, s + WINDOW);
    var reopened := Burst(full, next, 1);
    assert reopened == full + [next];
    BurstExtends(h, full, next, 1, s, s);
    Reopens(full, next, s, s + WINDOW);
    r := Burst(reopened, next, LIMIT - 1);
    BurstExtends(h, reopened, next, LIMIT - 1, s, until + 1);
    BurstAdmitted(reopened, next, LIMIT - 1, 1, next.at + WINDOW, s, s + WINDOW);
  }

  lemma ExtendsItself(h: seq<Try>, s: int)
    requires Timely(h)
    ensures Extends(h, h, s, s)
  {
  }

  // ---- when ten is the bound ----

  /** What an address may have used of the interval from s on, if it began without a half-used window. */
  ghost predicate Spared(m: Attempts, ip: string, s: int, now: int, used: nat) {
    && used <= LIMIT
    && if ip !in m then used == 0 || now > s + WINDOW
       else
         var opened_ := m[ip].until - WINDOW;
         && opened_ <= now
         && (opened_ < s ==> used == 0 && (m[ip].count >= LIMIT || m[ip].until < s))
         && (s <= opened_ <= s + WINDOW ==> used <= Least(m[ip].count, LIMIT))
  }

  lemma SparedStep(m: Attempts, x: Try, ip: string, s: int, before: int, used: nat)
    requires Spared(m, ip, s, before, used) && before <= x.at && s <= x.at
    ensures var r := Allow(m, x.ip, x.at);
      Spared(r.0, ip, s, x.at, used + if x.ip == ip && s <= x.at <= s + WINDOW && r.1 then 1 else 0)
  {
  }

  /** The address has no open window at s, or one already used up. */
  predicate FreshOrFull(m: Attempts, ip: string, s: int) {
    ip !in Prune(m, s) || m[ip].count >= LIMIT
  }

  /** The attempts from s on come after those of h. */
  ghost predicate Continues(h: seq<Try>, g: seq<Try>, s: int) {
    Timely(h + g) && forall x | x in g :: s <= x.at
  }

  lemma {:induction false} NothingBefore(h: seq<Try>, ip: string, s: int)
    requires forall x | x in h :: x.at < s
    ensures Admitted(h, ip, s, s + WINDOW) == 0
  {
    if h != [] { NothingBefore(h[..|h| - 1], ip, s); }
  }

  lemma {:induction false} UntilBounded(h: seq<Try>, ip: string, s: int)
    requires forall x | x in h :: x.at < s
    ensures ip in StateAfter(h) ==> StateAfter(h)[ip].until < s + WINDOW
  {
    if h != [] { UntilBounded(h[..|h| - 1], ip, s); }
  }

  lemma ContinuesInit(h: seq<Try>, g: seq<Try>, s: int)
    requires Continues(h, g, s) && g != []
    ensures Continues(h, g[..|g| - 1], s) && s <= g[|g| - 1].at
    ensures |g| > 1 ==> g[|g| - 2].at <= g[|g| - 1].at
  {
    var n := |g| - 1;
    assert (h + g)[..|h| + n] == h + g[..n];
    assert (h + g)[|h| + n] == g[n] && (n > 0 ==> (h + g)[|h| + n - 1] == g[n - 1]);
  }

  lemma SparedAtFirst(h: seq<Try>, ip: string, s: int)
    requires (forall x | x in h :: x.at < s) && FreshOrFull(StateAfter(h), ip, s)
    ensures Spared(StateAfter(h), ip, s, s, Admitted(h, ip, s, s + WINDOW))
  {
    hide StateAfter, Admitted;
    NothingBefore(h, ip, s);
    UntilBounded(h, ip, s);
  }

  lemma {:induction false} SparedKept(h: seq<Try>, g: seq<Try>, ip: string, s: int)
    requires (forall x | x in h :: x.at < s) && Continues(h, g, s) && FreshOrFull(StateAfter(h), ip, s)
    ensures Spared(StateAfter(h + g), ip, s, if g == [] then s else g[|g| - 1].at, Admitted(h + g, ip, s, s + WINDOW))
  {
    hide StateAfter, Admitted, AdmittedAt, FreshOrFull, Spared, Continues, Allow;
    if g == [] {
      assert h + g == h;
      SparedAtFirst(h, ip, s);
    } else {
      var n := |g| - 1;
      var init, x := g[..n], g[n];
      assert h + g == (h + init) + [x];
      ContinuesInit(h, g, s);
      SparedKept(h, init, ip, s);
      SparedStep(StateAfter(h + init), x, ip, s, if n == 0 then s else init[n - 1].at, Admitted(h + init, ip, s, s + WINDOW));
      Snoc(h + init, x, ip, s, s + WINDOW);
    }
  }

  /**
   * Ten attempts in ten minutes is what an interval admits, whatever comes, exactly when it begins
   * with no open window of the address or with a full one.
   */
  lemma TenExactly(h: seq<Try>, ip: string, s: int)
    requires Timely(h) && forall x | x in h :: x.at < s
    ensures (forall g | Continues(h, g, s) :: Admitted(h + g, ip, s, s + 600_000_000_000) <= 10)
            <==> (ip in StateAfter(h) && s <= StateAfter(h)[ip].until ==> StateAfter(h)[ip].count >= 10)
  {
    hide StateAfter, Admitted, AdmittedAt, Timely;
    if FreshOrFull(StateAfter(h), ip, s) {
      forall g | Continues(h, g, s) ensures Admitted(h + g, ip, s, s + WINDOW) <= LIMIT {
        SparedKept(h, g, ip, s);
      }
    } else {
      var v := StateAfter(h)[ip];
      UntilBounded(h, ip, s);
      NothingBefore(h, ip, s);
      var r := TwoWindows(h, ip, s, v.count, v.until);
      var g := r[|h|..];
      assert r == h + g;
      assert Continues(h, g, s);
    }
  }
}
