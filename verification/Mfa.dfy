/**
 * The administrator's authenticator: setting it up, switching it on and off, and signing in,
 * under any interleaving of transactions that lock the administrator's row (admin.go).
 */
module Mfa {
  import opened Results
  import opened Envelopes
  import opened KeyProvider
  import opened Sealing
  import opened Text
  import Totp

  /** The authenticator columns of an administrator, complete or absent together. */
  datatype AdminRow = AdminRow(enabled: bool, seed: Option<Envelope>)

  const FRESH := AdminRow(false, None)

  /** What the process works with: its keys, HMAC-SHA-1 and the base32 decoder. */
  datatype Setup = Setup(keys: Provider, mac: Totp.Mac, base32: string -> Option<Bytes>)

  ghost predicate Accepts(x: Setup, seed: string, code: string, at: int) {
    Totp.Verifies(x.mac, x.base32, seed, code, at)
  }

  // ---- the two transactions on one row ----

  function Offered(row: AdminRow, e: Envelope): Result<AdminRow> {
    if row.enabled then Err(Conflict) else Ok(AdminRow(false, Some(e)))
  }

  function SeedOf(keys: Provider, admin: nat, row: AdminRow): Result<string> {
    if row.seed.None? then Err(Conflict)
    else
      match Open(keys, row.seed.value, SeedPath(admin), 1)
      case Ok(Seed(text)) => Ok(text)
      case Ok(Json(_)) => Err(MFARequired)
      case Err(e) => Err(e)
  }

  ghost function Switched(x: Setup, admin: nat, row: AdminRow, code: string, enable: bool, at: int): Result<AdminRow> {
    if row.enabled == enable || row.seed.None? then Err(Conflict)
    else
      var seed := SeedOf(x.keys, admin, row);
      if seed.Err? then Err(seed.error)
      else if !Accepts(x, seed.value, code, at) then Err(MFARequired)
      else Ok(if enable then row.(enabled := true) else FRESH)
  }

  /** Whether a sign-in succeeds, given the row it read. */
  ghost predicate Admits(x: Setup, admin: nat, row: AdminRow, passwordOk: bool, otp: string, at: int) {
    passwordOk && (row.enabled ==> SeedOf(x.keys, admin, row).Ok? && Accepts(x, SeedOf(x.keys, admin, row).value, otp, at))
  }

  /** The administrators' rows as the program updates them. */
  class Admins {
    const keys: MemoryKeyProvider
    const mac: Totp.Mac
    const base32: string -> Option<Bytes>
    var rows: map<nat, AdminRow>

    ghost function Using(): Setup
      reads keys, keys.keys.Values
    {
      Setup(keys.Model(), mac, base32)
    }

    constructor (keys: MemoryKeyProvider, mac: Totp.Mac, base32: string -> Option<Bytes>, admins: set<nat>)
      ensures this.keys == keys && this.mac == mac && this.base32 == base32
      ensures rows == map a | a in admins :: FRESH
    {
      this.keys := keys;
      this.mac := mac;
      this.base32 := base32;
      rows := map a | a in admins :: FRESH;
    }

    method ReadSeed(admin: nat) returns (r: Result<string>)
      requires keys.Valid() && admin in rows
      ensures r == SeedOf(keys.Model(), admin, rows[admin])
    {
      if rows[admin].seed.None? {
        return Err(Conflict);
      }
      var plain := OpenEnvelope(keys, rows[admin].seed.value, SeedPath(admin), 1);
      match plain {
        case Err(e) => r := Err(e);
        case Ok(Json(_)) => r := Err(MFARequired);
        case Ok(Seed(text)) => r := Ok(text);
      }
    }

    method BeginMFA(admin: nat, seed: string, coins: Coins) returns (failed: Option<Error>)
      requires keys.Valid()
      modifies this
      ensures match Seal(keys.Model(), Seed(seed), SeedPath(admin), 1, coins)
        case Err(e) => failed == Some(e) && rows == old(rows)
        case Ok(e) =>
          if admin !in old(rows) || old(rows)[admin].enabled then failed == Some(Conflict) && rows == old(rows)
          else failed == None && rows == old(rows)[admin := AdminRow(false, Some(e))]
      ensures failed == None <==> admin in old(rows) && !old(rows)[admin].enabled
      ensures failed == None && ValidCoins(coins) ==>
                && rows.Keys == old(rows).Keys && !rows[admin].enabled && rows[admin].seed.Some?
                && Open(keys.Model(), rows[admin].seed.value, "admin-totp:" + Decimal(admin), 1) == Ok(Seed(seed))
    {
      var e := SealEnvelope(keys, Seed(seed), SeedPath(admin), 1, coins);
      if e.Err? {
        assert false;
        return Some(Internal);
      }
      if admin !in rows || rows[admin].enabled {
        return Some(Conflict);
      }
      rows := rows[admin := AdminRow(false, Some(e.value))];
      failed := None;
    }

    method SetMFA(admin: nat, code: string, enable: bool, at: int) returns (failed: Option<Error>)
      requires keys.Valid()
      modifies this
      ensures if admin !in old(rows) then failed == Some(Internal) && rows == old(rows)
        else
          match Switched(Using(), admin, old(rows)[admin], code, enable, at)
          case Err(e) => failed == Some(e) && rows == old(rows)
          case Ok(row) => failed == None && rows == old(rows)[admin := row]
      ensures failed.Some? ==> rows == old(rows)
      ensures failed == None ==>
                && admin in old(rows) && old(rows)[admin].enabled != enable
                && rows == old(rows)[admin := AdminRow(enable, if enable then old(rows)[admin].seed else None)]
      ensures forall seed: string | admin in old(rows) && old(rows)[admin].seed.Some?
                && Open(keys.Model(), old(rows)[admin].seed.value, "admin-totp:" + Decimal(admin), 1) == Ok(Seed(seed)) ::
                failed == if old(rows)[admin].enabled == enable then Some(Conflict)
                          else if Totp.Verifies(mac, base32, seed, code, at) then None else Some(MFARequired)
      ensures admin in old(rows) && old(rows)[admin].seed.None? ==> failed == Some(Conflict)
    {
      if admin !in rows {
        return Some(Internal);
      }
      var current := rows[admin];
      if current.enabled == enable || current.seed.None? {
        return Some(Conflict);
      }
      var seed := ReadSeed(admin);
      if seed.Err? {
        return Some(seed.error);
      }
      var valid := Totp.VerifyTotp(mac, base32, seed.value, code, at);
      if !valid {
        return Some(MFARequired);
      }
      if enable {
        rows := rows[admin := current.(enabled := true)];
      } else {
        rows := rows[admin := AdminRow(false, None)];
      }
      failed := None;
    }

    method Login(admin: nat, passwordOk: bool, otp: string, at: int) returns (ok: bool)
      requires keys.Valid()
      ensures ok <==> admin in rows && Admits(Using(), admin, rows[admin], passwordOk, otp, at)
      ensures ok ==> passwordOk && admin in rows
      ensures passwordOk && admin in rows && !rows[admin].enabled ==> ok
      ensures forall seed: string | admin in rows && rows[admin].enabled && rows[admin].seed.Some?
                && Open(keys.Model(), rows[admin].seed.value, "admin-totp:" + Decimal(admin), 1) == Ok(Seed(seed)) ::
                ok <==> passwordOk && Totp.Verifies(mac, base32, seed, otp, at)
      ensures ok && rows[admin].enabled ==>
                rows[admin].seed.Some? && Open(keys.Model(), rows[admin].seed.value, "admin-totp:" + Decimal(admin), 1).Ok?
    {
      var valid := passwordOk && admin in rows;
      if valid && rows[admin].enabled {
        var seed := ReadSeed(admin);
        if seed.Err? {
          return false;
        }
        valid := Totp.VerifyTotp(mac, base32, seed.value, otp, at);
      }
      ok := valid;
    }
  }

  // ---- interleaved transactions ----

  datatype Op =
    | Begin(admin: nat, seed: string, coins: Coins)
    | Set(admin: nat, code: string, enable: bool, at: int)

  datatype Event =
    | Begun(admin: nat, seed: string)
    | Enabled(admin: nat, seed: string, code: string, at: int)
    | Disabled(admin: nat, seed: string, code: string, at: int)
    | SignedIn(admin: nat, otp: string, at: int)

  /** Waiting for the row lock, holding it with the row read, or with a new row not yet committed. */
  datatype Stage = Queued | Holding(row: AdminRow) | Written(row: AdminRow, event: Event) | Refused

  datatype Txn = Txn(op: Op, stage: Stage)
  datatype Machine = Machine(rows: map<nat, AdminRow>, txns: map<nat, Txn>, log: seq<Event>)

  datatype Move =
    | Start(id: nat, op: Op)
    | Step(id: nat)
    | Commit(id: nat)
    | Abort(id: nat)
    | SignIn(admin: nat, passwordOk: bool, otp: string, at: int)

  ghost predicate RowFree(m: Machine, admin: nat) {
    forall id | id in m.txns && m.txns[id].op.admin == admin :: m.txns[id].stage.Queued?
  }

  ghost predicate Possible(m: Machine, v: Move) {
    match v
    case Start(id, op) => id !in m.txns && (op.Begin? ==> ValidCoins(op.coins))
    case Step(id) =>
      && id in m.txns && !m.txns[id].stage.Written? && !m.txns[id].stage.Refused?
      && (m.txns[id].stage.Queued? ==> RowFree(m, m.txns[id].op.admin))
    case Commit(id) => id in m.txns && m.txns[id].stage.Written?
    case Abort(id) => id in m.txns
    case SignIn(_, _, _, _) => true
  }

  /** One statement, over the committed row. */
  ghost function Advance(x: Setup, op: Op, stage: Stage, rows: map<nat, AdminRow>): Stage {
    match stage
    case Queued =>
      if op.admin !in rows then Refused
      else if op.Set? then Holding(rows[op.admin])
      else
        var e := Seal(x.keys, Seed(op.seed), SeedPath(op.admin), 1, op.coins);
        if e.Err? then Refused
        else
          var row := Offered(rows[op.admin], e.value);
          if row.Err? then Refused else Written(row.value, Begun(op.admin, op.seed))
    case Holding(row) =>
      if op.Begin? then Refused
      else
        var next := Switched(x, op.admin, row, op.code, op.enable, op.at);
        if next.Err? then Refused
        else
          var seed := SeedOf(x.keys, op.admin, row).value;
          Written(next.value, if op.enable then Enabled(op.admin, seed, op.code, op.at) else Disabled(op.admin, seed, op.code, op.at))
    case _ => stage
  }

  ghost function Perform(x: Setup, m: Machine, v: Move): Machine
    requires Possible(m, v)
  {
    match v
    case Start(id, op) => m.(txns := m.txns[id := Txn(op, Queued)])
    case Step(id) => m.(txns := m.txns[id := Txn(m.txns[id].op, Advance(x, m.txns[id].op, m.txns[id].stage, m.rows))])
    case Commit(id) =>
      var t := m.txns[id];
      Machine(m.rows[t.op.admin := t.stage.row], m.txns - {id}, m.log + [t.stage.event])
    case Abort(id) => m.(txns := m.txns - {id})
    case SignIn(admin, passwordOk, otp, at) =>
      if admin in m.rows && Admits(x, admin, m.rows[admin], passwordOk, otp, at) then m.(log := m.log + [SignedIn(admin, otp, at)]) else m
  }

  ghost function Initially(admins: set<nat>): Machine {
    Machine(map a | a in admins :: FRESH, map[], [])
  }

  ghost predicate Legal(x: Setup, admins: set<nat>, moves: seq<Move>)
    decreases |moves|, 0
  {
    moves == [] ||
    (Legal(x, admins, moves[..|moves| - 1]) && Possible(After(x, admins, moves[..|moves| - 1]), moves[|moves| - 1]))
  }

  ghost function After(x: Setup, admins: set<nat>, moves: seq<Move>): Machine
    requires Legal(x, admins, moves)
    decreases |moves|, 1
  {
    if moves == [] then Initially(admins) else Perform(x, After(x, admins, moves[..|moves| - 1]), moves[|moves| - 1])
  }

  // ---- what the history allows ----

  datatype Phase = Off | Offer(seed: string) | On(seed: string)

  /** A seed may be replaced until it is confirmed; a code for the stored seed switches on and off, and lets sign in. */
  ghost function Follows(x: Setup, p: Phase, e: Event): Option<Phase> {
    match e
    case Begun(_, seed) => if p.On? then None else Some(Offer(seed))
    case Enabled(_, seed, code, at) => if p == Offer(seed) && Accepts(x, seed, code, at) then Some(On(seed)) else None
    case Disabled(_, seed, code, at) => if p == On(seed) && Accepts(x, seed, code, at) then Some(Off) else None
    case SignedIn(_, otp, at) => if p.On? && !Accepts(x, p.seed, otp, at) then None else Some(p)
  }

  /** The phase an administrator's events lead to, if they are possible at all. */
  ghost function PhaseOf(x: Setup, log: seq<Event>, admin: nat): Option<Phase> {
    if log == [] then Some(Off)
    else
      var before, e := PhaseOf(x, log[..|log| - 1], admin), log[|log| - 1];
      if before.None? || e.admin != admin then before else Follows(x, before.value, e)
  }

  lemma PhaseSnoc(x: Setup, log: seq<Event>, e: Event, admin: nat)
    ensures PhaseOf(x, log + [e], admin)
         == if PhaseOf(x, log, admin).None? || e.admin != admin then PhaseOf(x, log, admin) else Follows(x, PhaseOf(x, log, admin).value, e)
  {
    assert (log + [e])[..|log|] == log;
  }

  /** The stored row is the one the phase calls for, and its envelope opens to the phase's seed. */
  ghost predicate Stands(x: Setup, admin: nat, row: AdminRow, p: Phase) {
    match p
    case Off => row == FRESH
    case Offer(seed) => !row.enabled && SeedOf(x.keys, admin, row) == Ok(seed)
    case On(seed) => row.enabled && SeedOf(x.keys, admin, row) == Ok(seed)
  }

  // ---- the invariant ----

  ghost predicate TxnFits(x: Setup, m: Machine, t: Txn) {
    var rows := m.rows;
    match t.stage
    case Queued => t.op.Begin? ==> ValidCoins(t.op.coins)
    case Refused => true
    case Holding(row) => t.op.Set? && t.op.admin in rows && row == rows[t.op.admin]
    case Written(row, event) =>
      && t.op.admin in rows
      && if t.op.Set? then
           && Switched(x, t.op.admin, rows[t.op.admin], t.op.code, t.op.enable, t.op.at) == Ok(row)
           && event == (if t.op.enable then Enabled(t.op.admin, SeedOf(x.keys, t.op.admin, rows[t.op.admin]).value, t.op.code, t.op.at)
                        else Disabled(t.op.admin, SeedOf(x.keys, t.op.admin, rows[t.op.admin]).value, t.op.code, t.op.at))
         else
           && !rows[t.op.admin].enabled && !row.enabled && SeedOf(x.keys, t.op.admin, row) == Ok(t.op.seed)
           && event == Begun(t.op.admin, t.op.seed)
  }

  ghost predicate Inv(x: Setup, m: Machine) {
    && (forall id | id in m.txns :: TxnFits(x, m, m.txns[id]))
    && (forall i, j | i in m.txns && j in m.txns && m.txns[i].op.admin == m.txns[j].op.admin
          && !m.txns[i].stage.Queued? && !m.txns[j].stage.Queued? :: i == j)
    && (forall a | a in m.rows :: PhaseOf(x, m.log, a).Some? && Stands(x, a, m.rows[a], PhaseOf(x, m.log, a).value))
  }

  lemma StepFits(x: Setup, m: Machine, id: nat)
    requires ValidProvider(x.keys) && Inv(x, m) && Possible(m, Step(id))
    ensures TxnFits(x, m, Txn(m.txns[id].op, Advance(x, m.txns[id].op, m.txns[id].stage, m.rows)))
  {
    hide Totp.Verifies, PhaseOf;
    var t := m.txns[id];
    assert TxnFits(x, m, t);
    if t.op.Begin? && t.stage.Queued? {
      SealedOpens(x.keys, Seed(t.op.seed), SeedPath(t.op.admin), 1, t.op.coins);
    }
  }

  lemma CommitStands(x: Setup, m: Machine, id: nat)
    requires Inv(x, m) && Possible(m, Commit(id))
    ensures var n := Perform(x, m, Commit(id));
      forall a | a in n.rows :: PhaseOf(x, n.log, a).Some? && Stands(x, a, n.rows[a], PhaseOf(x, n.log, a).value)
  {
    hide Totp.Verifies, PhaseOf, Accepts;
    var t := m.txns[id];
    assert TxnFits(x, m, t);
    forall a { PhaseSnoc(x, m.log, t.stage.event, a); }
  }

  lemma MoveKeeps(x: Setup, m: Machine, v: Move)
    requires ValidProvider(x.keys) && Inv(x, m) && Possible(m, v)
    ensures Inv(x, Perform(x, m, v))
  {
    hide PhaseOf, Stands, Advance, Switched, SeedOf, Admits;
    match v
    case Start(_, _) =>
    case Step(id) => StepFits(x, m, id);
    case Commit(id) =>
      CommitStands(x, m, id);
      assert TxnFits(x, m, m.txns[id]);
    case Abort(_) =>
    case SignIn(admin, passwordOk, otp, at) => SignInStands(x, m, admin, passwordOk, otp, at);
  }

  lemma SignInStands(x: Setup, m: Machine, admin: nat, passwordOk: bool, otp: string, at: int)
    requires Inv(x, m)
    ensures var n := Perform(x, m, SignIn(admin, passwordOk, otp, at));
      forall a | a in n.rows :: PhaseOf(x, n.log, a).Some? && Stands(x, a, n.rows[a], PhaseOf(x, n.log, a).value)
  {
    hide Totp.Verifies, PhaseOf, Accepts;
    forall a { PhaseSnoc(x, m.log, SignedIn(admin, otp, at), a); }
  }

  lemma {:induction false} AlwaysInv(x: Setup, admins: set<nat>, moves: seq<Move>)
    requires ValidProvider(x.keys) && Legal(x, admins, moves)
    ensures Inv(x, After(x, admins, moves))
  {
    hide Inv, Perform, Possible;
    if moves == [] {
      InvInitially(x, admins);
    } else {
      var init := moves[..|moves| - 1];
      AlwaysInv(x, admins, init);
      MoveKeeps(x, After(x, admins, init), moves[|moves| - 1]);
    }
  }

  lemma InvInitially(x: Setup, admins: set<nat>)
    ensures Inv(x, Initially(admins))
  {
  }

  // ---- the theorems ----

  /** Only sign-ins of this administrator from event i on. */
  ghost predicate Quiet(log: seq<Event>, i: nat, admin: nat) {
    forall j | i <= j < |log| && log[j].admin == admin :: log[j].SignedIn?
  }

  ghost predicate Confirms(x: Setup, e: Event, admin: nat, seed: string) {
    e.Enabled? && e.admin == admin && e.seed == seed && Accepts(x, seed, e.code, e.at)
  }

  lemma {:induction false} OnMeansConfirmed(x: Setup, log: seq<Event>, admin: nat, seed: string)
    requires PhaseOf(x, log, admin) == Some(On(seed))
    ensures exists i: nat | i < |log| && Confirms(x, log[i], admin, seed) :: Quiet(log, i + 1, admin)
  {
    hide Accepts;
    var n := |log| - 1;
    if log[n].admin == admin && log[n].Enabled? {
      assert Confirms(x, log[n], admin, seed) && Quiet(log, n + 1, admin);
    } else {
      OnMeansConfirmed(x, log[..n], admin, seed);
      var i: nat :| i < n && Confirms(x, log[..n][i], admin, seed) && Quiet(log[..n], i + 1, admin);
      assert Confirms(x, log[i], admin, seed);
      forall j | i + 1 <= j < |log| && log[j].admin == admin ensures log[j].SignedIn? {
        if j < n { assert log[..n][j] == log[j]; }
      }
    }
  }

  /**
   * In every interleaving, while the authenticator is on, the stored seed is the very one whose
   * code switched it on, and nothing but sign-ins has happened since.
   */
  lemma EnabledSeedIsConfirmed(x: Setup, admins: set<nat>, moves: seq<Move>, admin: nat)
    requires ValidProvider(x.keys) && Legal(x, admins, moves)
    requires admin in After(x, admins, moves).rows && After(x, admins, moves).rows[admin].enabled
    ensures var m := After(x, admins, moves);
      exists seed: string, i: nat | SeedOf(x.keys, admin, m.rows[admin]) == Ok(seed) && i < |m.log| && Confirms(x, m.log[i], admin, seed) ::
        Quiet(m.log, i + 1, admin)
  {
    hide Legal, After, TxnFits;
    var m := After(x, admins, moves);
    AlwaysInv(x, admins, moves);
    var p := PhaseOf(x, m.log, admin).value;
    assert Stands(x, admin, m.rows[admin], p);
    OnMeansConfirmed(x, m.log, admin, p.seed);
    var i: nat :| i < |m.log| && Confirms(x, m.log[i], admin, p.seed) && Quiet(m.log, i + 1, admin);
  }

  ghost predicate Releases(x: Setup, e: Event, admin: nat, seed: string) {
    e.Disabled? && e.admin == admin && e.seed == seed && Accepts(x, seed, e.code, e.at)
  }

  lemma {:induction false} StaysOn(x: Setup, log: seq<Event>, i: nat, admin: nat, seed: string)
    requires i <= |log| && PhaseOf(x, log[..i], admin) == Some(On(seed)) && PhaseOf(x, log, admin).Some?
    requires forall j | i <= j < |log| :: !Releases(x, log[j], admin, seed)
    ensures PhaseOf(x, log, admin) == Some(On(seed))
  {
    hide Accepts;
    if i == |log| {
      assert log[..i] == log;
    } else {
      var n := |log| - 1;
      assert log[..n][..i] == log[..i];
      forall j | i <= j < n ensures !Releases(x, log[..n][j], admin, seed) {
        assert log[..n][j] == log[j];
      }
      StaysOn(x, log[..n], i, admin, seed);
      assert !Releases(x, log[n], admin, seed);
    }
  }

  lemma {:induction false} PrefixPossible(x: Setup, log: seq<Event>, i: nat, admin: nat)
    requires i <= |log| && PhaseOf(x, log, admin).Some?
    ensures PhaseOf(x, log[..i], admin).Some?
  {
    if i == |log| {
      assert log[..i] == log;
    } else {
      assert log[..|log| - 1][..i] == log[..i];
      PrefixPossible(x, log[..|log| - 1], i, admin);
    }
  }

  /** Whoever signs in while the authenticator is on has given a code valid for the confirmed seed. */
  lemma SignInNeedsCode(x: Setup, admins: set<nat>, moves: seq<Move>, i: nat, seed: string)
    requires ValidProvider(x.keys) && Legal(x, admins, moves)
    requires var log := After(x, admins, moves).log;
      && i < |log| && log[i].SignedIn? && log[i].admin in After(x, admins, moves).rows
      && PhaseOf(x, log[..i], log[i].admin) == Some(On(seed))
    ensures Accepts(x, seed, After(x, admins, moves).log[i].otp, After(x, admins, moves).log[i].at)
  {
    hide Legal, After, TxnFits, Accepts;
    AlwaysInv(x, admins, moves);
    var log := After(x, admins, moves).log;
    PrefixPossible(x, log, i + 1, log[i].admin);
    assert log[..i + 1] == log[..i] + [log[i]];
    PhaseSnoc(x, log[..i], log[i], log[i].admin);
  }

  lemma {:induction false} LogGrows(x: Setup, admins: set<nat>, moves: seq<Move>, n: nat)
    requires Legal(x, admins, moves) && n <= |moves|
    ensures Legal(x, admins, moves[..n]) && After(x, admins, moves[..n]).log <= After(x, admins, moves).log
    ensures After(x, admins, moves[..n]).rows.Keys <= After(x, admins, moves).rows.Keys
  {
    hide Possible, Advance, Admits;
    if n == |moves| {
      assert moves[..n] == moves;
    } else {
      var init := moves[..|moves| - 1];
      assert init[..n] == moves[..n];
      LogGrows(x, admins, init, n);
    }
  }

  /** Once on, the stored seed stays until a code valid for that seed switches it off. */
  lemma SeedStaysUntilReleased(x: Setup, admins: set<nat>, moves: seq<Move>, n: nat, admin: nat)
    requires ValidProvider(x.keys) && Legal(x, admins, moves) && n <= |moves| && Legal(x, admins, moves[..n])
    requires var m := After(x, admins, moves[..n]); admin in m.rows && m.rows[admin].enabled
    ensures var m, u := After(x, admins, moves[..n]), After(x, admins, moves);
      && |m.log| <= |u.log| && admin in u.rows && SeedOf(x.keys, admin, m.rows[admin]).Ok?
      && ((u.rows[admin].enabled && SeedOf(x.keys, admin, u.rows[admin]) == SeedOf(x.keys, admin, m.rows[admin]))
          || exists j | |m.log| <= j < |u.log| :: Releases(x, u.log[j], admin, SeedOf(x.keys, admin, m.rows[admin]).value))
  {
    hide Legal, After, TxnFits, Releases, Follows;
    var m, u := After(x, admins, moves[..n]), After(x, admins, moves);
    AlwaysInv(x, admins, moves[..n]);
    AlwaysInv(x, admins, moves);
    LogGrows(x, admins, moves, n);
    var p := PhaseOf(x, m.log, admin).value;
    assert Stands(x, admin, m.rows[admin], p);
    assert u.log[..|m.log|] == m.log;
    if forall j | |m.log| <= j < |u.log| :: !Releases(x, u.log[j], admin, p.seed) {
      StaysOn(x, u.log, |m.log|, admin, p.seed);
      assert Stands(x, admin, u.rows[admin], On(p.seed));
    }
  }

  // ---- which moves sign in, and that nothing else stands in the way ----

  lemma LegalSnoc(x: Setup, admins: set<nat>, moves: seq<Move>, v: Move)
    requires Legal(x, admins, moves) && Possible(After(x, admins, moves), v)
    ensures Legal(x, admins, moves + [v]) && After(x, admins, moves + [v]) == Perform(x, After(x, admins, moves), v)
  {
    hide Possible, Perform;
    assert (moves + [v])[..|moves|] == moves;
  }

  /** Every sign-in comes from an attempt with the right password. */
  lemma {:induction false} SignedInByPassword(x: Setup, admins: set<nat>, moves: seq<Move>, i: nat)
    requires ValidProvider(x.keys) && Legal(x, admins, moves)
    requires i < |After(x, admins, moves).log| && After(x, admins, moves).log[i].SignedIn?
    ensures var e := After(x, admins, moves).log[i];
      exists n | 0 <= n < |moves| :: moves[n] == SignIn(e.admin, true, e.otp, e.at)
  {
    hide Possible, Inv;
    if moves == [] {
      assert false;
    } else {
      var init, v := moves[..|moves| - 1], moves[|moves| - 1];
      var m, e := After(x, admins, init), After(x, admins, moves).log[i];
      AlwaysInv(x, admins, init);
      EventOfMove(x, m, v);
      if i < |m.log| {
        SignedInByPassword(x, admins, init, i);
        var n :| 0 <= n < |init| && init[n] == SignIn(e.admin, true, e.otp, e.at);
        assert moves[n] == init[n];
      } else {
        assert moves[|moves| - 1] == SignIn(e.admin, true, e.otp, e.at);
      }
    }
  }

  /** A move adds at most one event, and only a sign-in with the right password adds a sign-in. */
  lemma EventOfMove(x: Setup, m: Machine, v: Move)
    requires Inv(x, m) && Possible(m, v)
    ensures var n := Perform(x, m, v);
      && m.log <= n.log && |n.log| <= |m.log| + 1
      && (|n.log| > |m.log| && n.log[|m.log|].SignedIn? ==>
            v == SignIn(n.log[|m.log|].admin, true, n.log[|m.log|].otp, n.log[|m.log|].at))
  {
    hide Advance, PhaseOf, Switched, SeedOf, Stands, Totp.Verifies;
    if v.Commit? { assert TxnFits(x, m, m.txns[v.id]); }
  }

  /**
   * At any moment an attempt signs in exactly if the administrator exists, the password is right
   * and, while the authenticator is on, the code is valid for the confirmed seed.
   */
  lemma SignInExactly(x: Setup, admins: set<nat>, moves: seq<Move>, admin: nat, passwordOk: bool, otp: string, at: int)
    requires ValidProvider(x.keys) && Legal(x, admins, moves)
    ensures var m := After(x, admins, moves);
      var next := moves + [SignIn(admin, passwordOk, otp, at)];
      && Legal(x, admins, next)
      && After(x, admins, next).log
         == if admin in m.rows && passwordOk
               && (forall seed: string | PhaseOf(x, m.log, admin) == Some(On(seed)) :: Totp.Verifies(x.mac, x.base32, seed, otp, at))
            then m.log + [SignedIn(admin, otp, at)] else m.log
  {
    hide Legal, After, PhaseOf, TxnFits, Totp.Verifies, SeedOf;
    var m := After(x, admins, moves);
    AlwaysInv(x, admins, moves);
    LegalSnoc(x, admins, moves, SignIn(admin, passwordOk, otp, at));
    if admin in m.rows {
      var p := PhaseOf(x, m.log, admin).value;
      assert Stands(x, admin, m.rows[admin], p);
    }
  }

  /** A transaction that finds its row free and has a valid code comes to its commit, and then the row is switched. */
  lemma SwitchesAlone(x: Setup, admins: set<nat>, moves: seq<Move>, id: nat, admin: nat, code: string, enable: bool,
      at: int, seed: string)
    requires ValidProvider(x.keys) && Legal(x, admins, moves)
    requires var m := After(x, admins, moves);
      && id !in m.txns && RowFree(m, admin) && admin in m.rows && m.rows[admin].enabled != enable && m.rows[admin].seed.Some?
      && Open(x.keys, m.rows[admin].seed.value, "admin-totp:" + Decimal(admin), 1) == Ok(Seed(seed))
      && Totp.Verifies(x.mac, x.base32, seed, code, at)
    ensures var m := After(x, admins, moves);
      var more := moves + [Start(id, Set(admin, code, enable, at))] + [Step(id)] + [Step(id)] + [Commit(id)];
      && Legal(x, admins, more)
      && After(x, admins, more) == Machine(
           m.rows[admin := AdminRow(enable, if enable then m.rows[admin].seed else None)], m.txns,
           m.log + [if enable then Enabled(admin, seed, code, at) else Disabled(admin, seed, code, at)])
  {
    hide Legal, After, Totp.Verifies, Open;
    var m := After(x, admins, moves);
    var op := Set(admin, code, enable, at);
    LegalSnoc(x, admins, moves, Start(id, op));
    var one := moves + [Start(id, op)];
    LegalSnoc(x, admins, one, Step(id));
    var two := one + [Step(id)];
    LegalSnoc(x, admins, two, Step(id));
    var three := two + [Step(id)];
    LegalSnoc(x, admins, three, Commit(id));
    assert m.txns[id := Txn(op, Queued)] - {id} == m.txns;
  }

  /** And while the authenticator is off, a new seed can be offered the same way. */
  lemma BeginsAlone(x: Setup, admins: set<nat>, moves: seq<Move>, id: nat, admin: nat, seed: string, coins: Coins)
    requires ValidProvider(x.keys) && ValidCoins(coins) && Legal(x, admins, moves)
    requires var m := After(x, admins, moves);
      id !in m.txns && RowFree(m, admin) && admin in m.rows && !m.rows[admin].enabled
    ensures var m := After(x, admins, moves);
      var more := moves + [Start(id, Begin(admin, seed, coins))] + [Step(id)] + [Commit(id)];
      && Legal(x, admins, more)
      && var n := After(x, admins, more);
         && n.txns == m.txns && n.log == m.log + [Begun(admin, seed)]
         && admin in n.rows && n.rows == m.rows[admin := n.rows[admin]] && !n.rows[admin].enabled && n.rows[admin].seed.Some?
         && Open(x.keys, n.rows[admin].seed.value, "admin-totp:" + Decimal(admin), 1) == Ok(Seed(seed))
  {
    hide Legal, After, Open, Seal;
    var m := After(x, admins, moves);
    var op := Begin(admin, seed, coins);
    SealedOpens(x.keys, Seed(seed), SeedPath(admin), 1, coins);
    LegalSnoc(x, admins, moves, Start(id, op));
    var one := moves + [Start(id, op)];
    LegalSnoc(x, admins, one, Step(id));
    var two := one + [Step(id)];
    LegalSnoc(x, admins, two, Commit(id));
    assert m.txns[id := Txn(op, Queued)] - {id} == m.txns;
  }
}
