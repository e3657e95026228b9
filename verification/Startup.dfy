/**
 * Processes that start, crash and restart concurrently over one database, and the secret writers
 * they run, statement by statement: the advisory lock, the key row, the row lock of each secret
 * (store.go, secrets.go).
 */
module Startup {
  import opened Results
  import opened Envelopes
  import opened Vault
  import opened MasterKey
  import Paths

  /** How far a process has got; from `Checking` to `Settling` it holds the advisory lock. */
  datatype Process =
    | Locking(boot: Bootstrap)
    | Checking(boot: Bootstrap)
    | Missing(boot: Bootstrap)
    | Generating
    | Settling(row: KeyRow, inserted: bool)
    | Up(keys: Provider)

  datatype Work = SaveWork(values: Values) | RestoreWork(version: nat) | ArchiveWork

  /** A writer waits for the row lock of its path, holds it, or has written but not committed. */
  datatype Stage = Queued | Locked | Sealed(version: nat, envelope: Envelope, values: Values) | Tombstoned | Refused

  datatype Writer = Writer(process: nat, path: string, work: Work, coins: Coins, stage: Stage)

  /** The committed tables, the plain values they should stand for, and what is in flight. */
  datatype Machine = Machine(
    key: Option<KeyRow>, secrets: Secrets, plain: Plain,
    seeds: map<nat, Envelope>, texts: map<nat, string>,
    processes: map<nat, Process>, writers: map<nat, Writer>)

  datatype Move =
    | Start(p: nat, boot: Bootstrap)
    | Boot(p: nat, random: Bytes)
    | Crash(p: nat)
    | Begin(w: nat, process: nat, path: string, work: Work, coins: Coins)
    | Step(w: nat)
    | Commit(w: nat)
    | Abort(w: nat)
    | StoreSeed(p: nat, admin: nat, text: string, coins: Coins)
    | DropSeed(p: nat, admin: nat)

  predicate HoldsAdvisoryLock(q: Process) {
    q.Checking? || q.Missing? || q.Generating? || q.Settling?
  }

  predicate HoldsRow(s: Stage) {
    s.Locked? || s.Sealed? || s.Tombstoned?
  }

  /** A secret version or an authenticator seed is stored. */
  predicate HasData(s: Secrets, seeds: map<nat, Envelope>) {
    (exists p | p in s :: s[p].versions != map[]) || seeds != map[]
  }

  /** The sealed authenticator seeds stand for these texts. */
  ghost predicate SeedsStand(k: Provider, seeds: map<nat, Envelope>, texts: map<nat, string>) {
    && seeds.Keys == texts.Keys
    && forall a | a in seeds :: Open(k, seeds[a], SeedPath(a), 1) == Ok(Seed(texts[a]))
  }

  // ---- the database a first start finds ----

  /** What a former file-backed setup left behind, if anything: its key file's bytes, its data, and what they stand for. */
  datatype Origin = Origin(
    material: Bytes, secrets: Secrets, plain: Plain, seeds: map<nat, Envelope>, texts: map<nat, string>)

  function LegacyKeys(o: Origin): Provider {
    ProviderOf(KeyRow(FILE_VERSION, o.material))
  }

  ghost predicate WellFormed(o: Origin) {
    && |o.material| == KEY_BYTES
    && Represents(LegacyKeys(o), o.secrets, o.plain) && SeedsStand(LegacyKeys(o), o.seeds, o.texts)
  }

  // ---- moves ----

  ghost predicate Possible(m: Machine, v: Move) {
    match v
    case Start(p, boot) => p !in m.processes && ReadableFile(boot)
    case Boot(p, random) =>
      && p in m.processes && !m.processes[p].Up? && |random| == KEY_BYTES
      && (m.processes[p].Locking? ==> forall q | q in m.processes :: !HoldsAdvisoryLock(m.processes[q]))
    case Crash(p) => p in m.processes
    case Begin(w, p, path, work, coins) =>
      w !in m.writers && p in m.processes && m.processes[p].Up? && Paths.ValidPath(path) && ValidCoins(coins)
    case Step(w) =>
      && w in m.writers && (m.writers[w].stage.Queued? || m.writers[w].stage.Locked?)
      && (m.writers[w].stage.Queued? && MustWait(m, m.writers[w]) ==>
            forall x | x in m.writers && m.writers[x].path == m.writers[w].path :: !HoldsRow(m.writers[x].stage))
    case Commit(w) => w in m.writers && (m.writers[w].stage.Sealed? || m.writers[w].stage.Tombstoned?)
    case Abort(w) => w in m.writers
    case StoreSeed(p, _, _, coins) => p in m.processes && m.processes[p].Up? && ValidCoins(coins)
    case DropSeed(p, admin) =>
      && p in m.processes && m.processes[p].Up?
      && admin in m.seeds && Open(m.processes[p].keys, m.seeds[admin], SeedPath(admin), 1).Ok?
  }

  /** A restore or an archive of a path without a committed row finds nothing to wait for. */
  predicate MustWait(m: Machine, x: Writer) {
    x.work.SaveWork? || x.path in m.secrets
  }

  function Dropping(m: Machine, p: nat): map<nat, Writer> {
    map w | w in m.writers && m.writers[w].process != p :: m.writers[w]
  }

  /** A process that gives up or crashes takes its uncommitted work with it. */
  function Down(m: Machine, p: nat): Machine {
    m.(processes := m.processes - {p}, writers := Dropping(m, p))
  }

  /** The stage after the next statement of a start, if the process does not give up. */
  function NextStage(m: Machine, q: Process, random: Bytes): Option<Process> {
    match q
    case Locking(boot) => Some(Checking(boot))
    case Checking(boot) =>
      if m.key.None? then Some(Missing(boot)) else if ValidRow(m.key.value) then Some(Settling(m.key.value, false)) else None
    case Missing(boot) =>
      if boot.BadFile? then None
      else if boot.File? then Some(Settling(KeyRow(FILE_VERSION, boot.material), true))
      else if HasData(m.secrets, m.seeds) then None else Some(Generating)
    case Generating => Some(Settling(KeyRow(DATABASE_VERSION, random), true))
    case _ => None
  }

  /** The next step of a start: one statement, or the commit that makes the process serve. */
  function Booted(m: Machine, p: nat, random: Bytes): Machine
    requires p in m.processes && !m.processes[p].Up?
  {
    var q := m.processes[p];
    var next := NextStage(m, q, random);
    if q.Settling? then
      m.(key := if q.inserted then Some(q.row) else m.key, processes := m.processes[p := Up(ProviderOf(q.row))])
    else if next.Some? then m.(processes := m.processes[p := next.value])
    else Down(m, p)
  }

  /** The values a writer is going to seal: its own, or those of the version it restores. */
  ghost function Wanted(k: Provider, x: Writer, s: Secrets): Result<Values> {
    if x.work.SaveWork? then Ok(x.work.values)
    else if x.work.RestoreWork? && x.work.version >= 1 then ReadVersion(k, s, x.path, x.work.version)
    else Err(Invalid)
  }

  ghost function Advanced(k: Provider, x: Writer, s: Secrets): Stage {
    if x.stage.Queued? then
      if !x.work.SaveWork? && x.path !in s then Refused
      else if !x.work.ArchiveWork? then Locked
      else if s[x.path].archived then Refused else Tombstoned
    else if !x.stage.Locked? then x.stage
    else
      var values := Wanted(k, x, s);
      if values.Err? then Refused
      else
        var written := WriteVersion(k, s, x.path, values.value, x.coins);
        if written.Err? then Refused
        else Sealed(written.value.version, written.value.row.versions[written.value.version], values.value)
  }

  function Committed(m: Machine, w: nat): Machine
    requires w in m.writers && (m.writers[w].stage.Sealed? || m.writers[w].stage.Tombstoned?)
  {
    var x := m.writers[w];
    var rest := m.(writers := m.writers - {w});
    match x.stage
    case Sealed(version, envelope, values) =>
      var versions := if x.path in m.secrets then m.secrets[x.path].versions else map[];
      rest.(secrets := m.secrets[x.path := SecretRow(false, versions[version := envelope])],
            plain := m.plain[x.path := PlainRow(false, HistoryOf(m.plain, x.path) + [values])])
    case _ =>
      if x.path in m.secrets && x.path in m.plain then
        rest.(secrets := m.secrets[x.path := m.secrets[x.path].(archived := true)],
              plain := m.plain[x.path := m.plain[x.path].(archived := true)])
      else rest
  }

  ghost function Perform(m: Machine, v: Move): Machine
    requires Possible(m, v)
  {
    match v
    case Start(p, boot) => m.(processes := m.processes[p := Locking(boot)])
    case Boot(p, random) => Booted(m, p, random)
    case Crash(p) => Down(m, p)
    case Begin(w, p, path, work, coins) => m.(writers := m.writers[w := Writer(p, path, work, coins, Queued)])
    case Step(w) =>
      var x := m.writers[w];
      if x.process in m.processes && m.processes[x.process].Up? then
        m.(writers := m.writers[w := x.(stage := Advanced(m.processes[x.process].keys, x, m.secrets))])
      else m
    case Commit(w) => Committed(m, w)
    case Abort(w) => m.(writers := m.writers - {w})
    case StoreSeed(p, admin, text, coins) =>
      var e := Seal(m.processes[p].keys, Seed(text), SeedPath(admin), 1, coins);
      if e.Err? then m else m.(seeds := m.seeds[admin := e.value], texts := m.texts[admin := text])
    case DropSeed(_, admin) => m.(seeds := m.seeds - {admin}, texts := m.texts - {admin})
  }

  ghost function Initially(o: Origin): Machine {
    Machine(None, o.secrets, o.plain, o.seeds, o.texts, map[], map[])
  }

  ghost predicate Legal(o: Origin, moves: seq<Move>)
    decreases |moves|, 0
  {
    moves == [] ||
    (Legal(o, moves[..|moves| - 1]) && Possible(After(o, moves[..|moves| - 1]), moves[|moves| - 1]))
  }

  ghost function After(o: Origin, moves: seq<Move>): Machine
    requires Legal(o, moves)
    decreases |moves|, 1
  {
    if moves == [] then Initially(o) else Perform(After(o, moves[..|moves| - 1]), moves[|moves| - 1])
  }

  // ---- what is stored ----

  /** The envelope's data key is wrapped under the provider's current key. */
  ghost predicate UnderKey(k: Provider, e: Envelope) {
    && k.current in k.keys && e.keyVersion == k.current
    && e.wrapped.Box? && e.wrapped.key == k.keys[k.current]
  }

  ghost predicate Legacy(o: Origin, p: string, v: nat) {
    p in o.secrets && v in o.secrets[p].versions
  }

  /** A version found at the origin is still what it was; any other was sealed under the committed key. */
  ghost predicate EntryStands(o: Origin, k: Provider, p: string, v: nat, e: Envelope, values: Values) {
    if Legacy(o, p, v)
    then e == o.secrets[p].versions[v] && p in o.plain && 1 <= v <= |o.plain[p].history| && values == o.plain[p].history[v - 1]
    else UnderKey(k, e) && Open(k, e, p, v) == Ok(Json(values))
  }

  ghost predicate RowStands(o: Origin, k: Provider, p: string, row: SecretRow, plain: PlainRow) {
    && Paths.ValidPath(p) && row.archived == plain.archived && plain.history != []
    && (forall v :: v in row.versions <==> 1 <= v <= |plain.history|)
    && (forall v | v in row.versions :: EntryStands(o, k, p, v, row.versions[v], plain.history[v - 1]))
    && (forall v :: Legacy(o, p, v) ==> v in row.versions)
  }

  /** The store holds the legacy versions untouched and everything else sealed under the committed key. */
  ghost predicate Stands(o: Origin, k: Provider, s: Secrets, m: Plain) {
    && s.Keys == m.Keys && o.secrets.Keys <= s.Keys
    && forall p | p in s :: RowStands(o, k, p, s[p], m[p])
  }

  ghost predicate LegacySeed(o: Origin, a: nat, e: Envelope) {
    a in o.seeds && e == o.seeds[a]
  }

  ghost predicate SeedHolds(o: Origin, k: Provider, a: nat, e: Envelope, text: string) {
    || (LegacySeed(o, a, e) && a in o.texts && text == o.texts[a])
    || (UnderKey(k, e) && Open(k, e, SeedPath(a), 1) == Ok(Seed(text)))
  }

  ghost predicate SeedsHold(o: Origin, k: Provider, seeds: map<nat, Envelope>, texts: map<nat, string>) {
    && seeds.Keys == texts.Keys
    && forall a | a in seeds :: SeedHolds(o, k, a, seeds[a], texts[a])
  }

  // ---- the invariant ----

  /** A key row that may be committed: with legacy data it can only have come from a file. */
  ghost predicate Committable(o: Origin, row: KeyRow) {
    ValidRow(row) && (HasData(o.secrets, o.seeds) ==> row.version == FILE_VERSION)
  }

  ghost predicate ProcessFits(o: Origin, m: Machine, q: Process) {
    match q
    case Locking(boot) => ReadableFile(boot)
    case Checking(boot) => ReadableFile(boot)
    case Missing(boot) => m.key.None? && ReadableFile(boot)
    case Generating => m.key.None? && !HasData(o.secrets, o.seeds)
    case Settling(row, inserted) =>
      && (inserted ==> m.key.None? && Committable(o, row))
      && (!inserted ==> m.key == Some(row))
    case Up(keys) => m.key.Some? && keys == ProviderOf(m.key.value)
  }

  function HistoryOf(m: Plain, p: string): seq<Values> {
    if p in m then m[p].history else []
  }

  /** What a writer has sealed is what it was given, or the very version it restores. */
  ghost predicate Meant(work: Work, history: seq<Values>, values: Values) {
    match work
    case SaveWork(given) => values == given
    case RestoreWork(version) => 1 <= version <= |history| && values == history[version - 1]
    case ArchiveWork => false
  }

  ghost predicate WriterFits(m: Machine, x: Writer) {
    && x.process in m.processes && m.processes[x.process].Up?
    && Paths.ValidPath(x.path) && ValidCoins(x.coins)
    && match x.stage
       case Sealed(version, envelope, values) =>
         && version == |HistoryOf(m.plain, x.path)| + 1
         && UnderKey(m.processes[x.process].keys, envelope)
         && Open(m.processes[x.process].keys, envelope, x.path, version) == Ok(Json(values))
         && Meant(x.work, HistoryOf(m.plain, x.path), values)
       case Tombstoned => x.work.ArchiveWork? && x.path in m.secrets && x.path in m.plain
       case _ => true
  }

  ghost predicate StoreFits(o: Origin, m: Machine) {
    match m.key
    case None =>
      && m.secrets == o.secrets && m.plain == o.plain && m.seeds == o.seeds && m.texts == o.texts
      && forall p | p in m.processes :: !m.processes[p].Up?
    case Some(row) =>
      && Committable(o, row)
      && Stands(o, ProviderOf(row), m.secrets, m.plain) && SeedsHold(o, ProviderOf(row), m.seeds, m.texts)
  }

  ghost predicate Inv(o: Origin, m: Machine) {
    && StoreFits(o, m)
    && (forall p | p in m.processes :: ProcessFits(o, m, m.processes[p]))
    && (forall p, q | p in m.processes && q in m.processes
          && HoldsAdvisoryLock(m.processes[p]) && HoldsAdvisoryLock(m.processes[q]) :: p == q)
    && (forall w | w in m.writers :: WriterFits(m, m.writers[w]))
    && (forall w, x | w in m.writers && x in m.writers && m.writers[w].path == m.writers[x].path
          && HoldsRow(m.writers[w].stage) && HoldsRow(m.writers[x].stage) :: w == x)
  }

  /** Whatever key is committed, the origin's data stands as legacy data. */
  lemma OriginStands(o: Origin, k: Provider)
    requires WellFormed(o)
    ensures Stands(o, k, o.secrets, o.plain) && SeedsHold(o, k, o.seeds, o.texts)
  {
    hide Open, UnderKey, Paths.ValidPath;
    forall p | p in o.secrets ensures RowStands(o, k, p, o.secrets[p], o.plain[p]) {
      assert RowRepresents(LegacyKeys(o), p, o.secrets[p], o.plain[p]);
    }
  }

  lemma StandsRow(o: Origin, k: Provider, s: Secrets, m: Plain, p: string)
    requires Stands(o, k, s, m)
    ensures p in s <==> p in m
    ensures p !in s ==> forall v :: !Legacy(o, p, v)
    ensures p in s ==> RowStands(o, k, p, s[p], m[p])
  {
    hide RowStands;
  }

  /** Versions are numbered without gaps, so the next one is the length of the history plus one. */
  lemma NextNumber(o: Origin, k: Provider, s: Secrets, m: Plain, p: string)
    requires Stands(o, k, s, m)
    ensures MaxOf((if p in s then s[p].versions else map[]).Keys) == |HistoryOf(m, p)|
  {
    hide EntryStands, Paths.ValidPath;
    StandsRow(o, k, s, m, p);
    var versions := if p in s then s[p].versions else map[];
    if p in s {
      assert RowStands(o, k, p, s[p], m[p]) && |m[p].history| in versions.Keys;
    } else {
      assert versions.Keys == {};
    }
  }

  /** Two providers never open one envelope to different plaintexts. */
  lemma OpenAgrees(k: Provider, k': Provider, e: Envelope, path: string, version: nat)
    requires Open(k, e, path, version).Ok? && Open(k', e, path, version).Ok?
    ensures Open(k, e, path, version) == Open(k', e, path, version)
  {
  }

  /** A version that can be read is the one the plain history has in its place. */
  lemma ReadMeansHistory(o: Origin, k: Provider, s: Secrets, m: Plain, p: string, v: nat)
    requires WellFormed(o) && Stands(o, k, s, m) && v >= 1 && ReadVersion(k, s, p, v).Ok?
    ensures 1 <= v <= |HistoryOf(m, p)| && ReadVersion(k, s, p, v) == Ok(HistoryOf(m, p)[v - 1])
  {
    hide Open, UnderKey, Paths.ValidPath;
    StandsRow(o, k, s, m, p);
    assert RowStands(o, k, p, s[p], m[p]);
    assert EntryStands(o, k, p, v, s[p].versions[v], m[p].history[v - 1]);
    if Legacy(o, p, v) {
      assert RowRepresents(LegacyKeys(o), p, o.secrets[p], o.plain[p]);
      OpenAgrees(k, LegacyKeys(o), s[p].versions[v], p, v);
    }
  }

  lemma RowGrows(o: Origin, k: Provider, s: Secrets, m: Plain, p: string, e: Envelope, values: Values)
    requires Stands(o, k, s, m) && Paths.ValidPath(p)
    requires UnderKey(k, e) && Open(k, e, p, |HistoryOf(m, p)| + 1) == Ok(Json(values))
    ensures var versions := if p in s then s[p].versions else map[];
      RowStands(o, k, p, SecretRow(false, versions[|HistoryOf(m, p)| + 1 := e]), PlainRow(false, HistoryOf(m, p) + [values]))
  {
    hide Open, UnderKey, Paths.ValidPath;
    StandsRow(o, k, s, m, p);
    var versions := if p in s then s[p].versions else map[];
    var n := |HistoryOf(m, p)|;
    var after, history := versions[n + 1 := e], HistoryOf(m, p) + [values];
    assert p in s ==> RowStands(o, k, p, s[p], m[p]);
    forall v | v in after ensures EntryStands(o, k, p, v, after[v], history[v - 1]) {
      if v <= n {
        assert v in versions && after[v] == versions[v] && history[v - 1] == HistoryOf(m, p)[v - 1];
        assert EntryStands(o, k, p, v, s[p].versions[v], m[p].history[v - 1]);
      }
    }
  }

  lemma StandsUpdate(o: Origin, k: Provider, s: Secrets, m: Plain, p: string, row: SecretRow, plain: PlainRow)
    requires Stands(o, k, s, m) && RowStands(o, k, p, row, plain)
    ensures Stands(o, k, s[p := row], m[p := plain])
  {
    hide RowStands;
  }

  lemma StandsArchived(o: Origin, k: Provider, s: Secrets, m: Plain, p: string)
    requires Stands(o, k, s, m) && p in s
    ensures Stands(o, k, s[p := s[p].(archived := true)], m[p := m[p].(archived := true)])
  {
    hide EntryStands, Paths.ValidPath;
    assert RowStands(o, k, p, s[p], m[p]);
    assert RowStands(o, k, p, s[p].(archived := true), m[p].(archived := true));
  }

  /** What opens under a one-key provider was wrapped under that key. */
  lemma OpensUnderKey(row: KeyRow, e: Envelope, path: string, version: nat)
    requires Open(ProviderOf(row), e, path, version).Ok?
    ensures UnderKey(ProviderOf(row), e)
  {
  }

  /** A process that is not up moves on to a stage that fits. */
  lemma ProcessMoves(o: Origin, m: Machine, p: nat, q: Process)
    requires Inv(o, m) && p in m.processes && !m.processes[p].Up? && !q.Up? && ProcessFits(o, m, q)
    requires HoldsAdvisoryLock(q) ==> forall r | r in m.processes && r != p :: !HoldsAdvisoryLock(m.processes[r])
    ensures Inv(o, m.(processes := m.processes[p := q]))
  {
    hide Stands, SeedsHold, Committable, Paths.ValidPath, Open, UnderKey, Meant, HasData;
  }

  lemma KeyCommitted(o: Origin, m: Machine, p: nat, random: Bytes)
    requires WellFormed(o) && Inv(o, m) && p in m.processes && m.processes[p].Settling?
    ensures Inv(o, Booted(m, p, random))
  {
    hide Stands, SeedsHold, Committable, Paths.ValidPath, Open, UnderKey, Meant, HasData, WellFormed;
    assert ProcessFits(o, m, m.processes[p]);
    OriginStands(o, ProviderOf(m.processes[p].row));
  }

  lemma AloneAtTheLock(o: Origin, m: Machine, p: nat)
    requires Inv(o, m) && p in m.processes && HoldsAdvisoryLock(m.processes[p])
    ensures forall r | r in m.processes && r != p :: !HoldsAdvisoryLock(m.processes[r])
  {
    hide WriterFits, ProcessFits, StoreFits;
  }

  lemma NextFits(o: Origin, m: Machine, p: nat, random: Bytes)
    requires Inv(o, m) && p in m.processes && |random| == KEY_BYTES && NextStage(m, m.processes[p], random).Some?
    ensures ProcessFits(o, m, NextStage(m, m.processes[p], random).value)
  {
    hide Stands, SeedsHold, WriterFits, HasData;
    assert ProcessFits(o, m, m.processes[p]);
  }

  lemma BootKeeps(o: Origin, m: Machine, p: nat, random: Bytes)
    requires WellFormed(o) && Inv(o, m) && Possible(m, Boot(p, random))
    ensures Inv(o, Booted(m, p, random))
  {
    hide Inv, ProcessFits, WellFormed, HasData, Down;
    var next := NextStage(m, m.processes[p], random);
    if m.processes[p].Settling? {
      KeyCommitted(o, m, p, random);
    } else if next.Some? {
      if !m.processes[p].Locking? { AloneAtTheLock(o, m, p); }
      NextFits(o, m, p, random);
      ProcessMoves(o, m, p, next.value);
    } else {
      DownKeeps(o, m, p);
    }
  }

  lemma DownKeeps(o: Origin, m: Machine, p: nat)
    requires Inv(o, m) && p in m.processes
    ensures Inv(o, Down(m, p))
  {
    hide Stands, SeedsHold, Committable, Paths.ValidPath, Open, UnderKey, Meant, HasData;
  }

  /** What a writer that holds the row seals next is numbered n+1, under the committed key, and what was meant. */
  lemma SealedMeant(o: Origin, row: KeyRow, s: Secrets, m: Plain, x: Writer)
    requires WellFormed(o) && ValidRow(row) && Stands(o, ProviderOf(row), s, m)
    requires x.stage.Locked? && Paths.ValidPath(x.path) && ValidCoins(x.coins)
    ensures var k := ProviderOf(row);
      var next := Advanced(k, x, s);
      next.Refused? ||
      (next.Sealed? && next.version == |HistoryOf(m, x.path)| + 1 && UnderKey(k, next.envelope)
        && Open(k, next.envelope, x.path, next.version) == Ok(Json(next.values)) && Meant(x.work, HistoryOf(m, x.path), next.values))
  {
    hide Stands, Paths.ValidPath, Open, Seal, ReadVersion, UnderKey, WellFormed;
    var k := ProviderOf(row);
    var values := Wanted(k, x, s);
    if values.Ok? {
      NextNumber(o, k, s, m, x.path);
      SealedOpens(k, Json(values.value), x.path, |HistoryOf(m, x.path)| + 1, x.coins);
      var written := WriteVersion(k, s, x.path, values.value, x.coins).value;
      OpensUnderKey(row, written.row.versions[written.version], x.path, written.version);
      if x.work.RestoreWork? { ReadMeansHistory(o, k, s, m, x.path, x.work.version); }
    }
  }

  lemma StepFits(o: Origin, m: Machine, w: nat)
    requires WellFormed(o) && Inv(o, m) && Possible(m, Step(w))
    ensures WriterFits(Perform(m, Step(w)), Perform(m, Step(w)).writers[w])
  {
    hide Stands, SeedsHold, Paths.ValidPath, Open, WriteVersion, Wanted, UnderKey, WellFormed, HasData, Meant,
      HistoryOf;
    var x := m.writers[w];
    assert WriterFits(m, x);
    assert ProcessFits(o, m, m.processes[x.process]);
    var k := ProviderOf(m.key.value);
    StandsRow(o, k, m.secrets, m.plain, x.path);
    if x.stage.Locked? { SealedMeant(o, m.key.value, m.secrets, m.plain, x); }
  }

  lemma StepKeeps(o: Origin, m: Machine, w: nat)
    requires WellFormed(o) && Inv(o, m) && Possible(m, Step(w))
    ensures Inv(o, Perform(m, Step(w)))
  {
    hide Stands, SeedsHold, Committable, Paths.ValidPath, Open, UnderKey, Meant, HasData, Advanced, WellFormed;
    StepFits(o, m, w);
    assert WriterFits(m, m.writers[w]);
    RefusedHoldsNothing(o, m, w);
  }

  /** A step that did not have to wait for the row does not take it. */
  lemma RefusedHoldsNothing(o: Origin, m: Machine, w: nat)
    requires Possible(m, Step(w))
    ensures m.writers[w].stage.Queued? && !MustWait(m, m.writers[w]) ==> !HoldsRow(Perform(m, Step(w)).writers[w].stage)
  {
  }

  lemma CommitStands(o: Origin, m: Machine, w: nat)
    requires Inv(o, m) && Possible(m, Commit(w))
    ensures StoreFits(o, Committed(m, w))
  {
    hide Stands, SeedsHold, Committable, Paths.ValidPath, Open, UnderKey, HasData, Meant;
    var x := m.writers[w];
    assert WriterFits(m, x);
    assert ProcessFits(o, m, m.processes[x.process]);
    var k := ProviderOf(m.key.value);
    if x.stage.Sealed? {
      RowGrows(o, k, m.secrets, m.plain, x.path, x.stage.envelope, x.stage.values);
      var versions := if x.path in m.secrets then m.secrets[x.path].versions else map[];
      StandsUpdate(o, k, m.secrets, m.plain, x.path,
        SecretRow(false, versions[x.stage.version := x.stage.envelope]), PlainRow(false, HistoryOf(m.plain, x.path) + [x.stage.values]));
    } else {
      StandsArchived(o, k, m.secrets, m.plain, x.path);
    }
  }

  /** Writers of other paths do not notice a commit, and no other writer holds this path's row. */
  lemma OtherWriterFits(o: Origin, m: Machine, w: nat, y: nat)
    requires Inv(o, m) && Possible(m, Commit(w)) && y in m.writers && y != w
    ensures WriterFits(Committed(m, w), m.writers[y])
  {
    hide StoreFits, ProcessFits, Paths.ValidPath, Open, UnderKey, Meant;
    assert WriterFits(m, m.writers[w]) && WriterFits(m, m.writers[y]);
  }

  /** Committing does to the plain store what the writer was asked to do, whatever ran beside it. */
  lemma CommitIsPlain(o: Origin, moves: seq<Move>, w: nat)
    requires WellFormed(o) && Legal(o, moves) && Possible(After(o, moves), Commit(w))
    ensures var m := After(o, moves);
      var x := m.writers[w];
      var after := Perform(m, Commit(w)).plain;
      match x.work
      case SaveWork(values) => after == PlainWrite(m.plain, x.path, values)
      case RestoreWork(v) =>
        1 <= v <= |HistoryOf(m.plain, x.path)| && after == PlainWrite(m.plain, x.path, HistoryOf(m.plain, x.path)[v - 1])
      case ArchiveWork => x.path in m.plain && after == m.plain[x.path := m.plain[x.path].(archived := true)]
  {
    hide StoreFits, ProcessFits, Legal, After, Open, UnderKey, WellFormed, Paths.ValidPath;
    AlwaysInv(o, moves);
    assert WriterFits(After(o, moves), After(o, moves).writers[w]);
  }

  lemma CommitFields(m: Machine, w: nat)
    requires Possible(m, Commit(w))
    ensures var n := Committed(m, w); n.key == m.key && n.processes == m.processes && n.writers == m.writers - {w}
  {
  }

  lemma CommitKeeps(o: Origin, m: Machine, w: nat)
    requires Inv(o, m) && Possible(m, Commit(w))
    ensures Inv(o, Committed(m, w))
  {
    hide StoreFits, WriterFits, Committable, Committed;
    CommitStands(o, m, w);
    CommitFields(m, w);
    forall y | y in m.writers && y != w ensures WriterFits(Committed(m, w), m.writers[y]) {
      OtherWriterFits(o, m, w, y);
    }
  }

  lemma MoveKeeps(o: Origin, m: Machine, v: Move)
    requires WellFormed(o) && Inv(o, m) && Possible(m, v)
    ensures Inv(o, Perform(m, v))
  {
    hide Inv, Booted, Committed, Down, Advanced, WellFormed;
    match v
    case Start(_, _) => StartKeeps(o, m, v);
    case Boot(p, random) => BootKeeps(o, m, p, random);
    case Crash(p) => DownKeeps(o, m, p);
    case Begin(_, _, _, _, _) => BeginKeeps(o, m, v);
    case Step(w) => StepKeeps(o, m, w);
    case Commit(w) => CommitKeeps(o, m, w);
    case Abort(w) => AbortKeeps(o, m, w);
    case StoreSeed(_, _, _, _) => SeedKeeps(o, m, v);
    case DropSeed(_, _) => SeedKeeps(o, m, v);
  }

  lemma StartKeeps(o: Origin, m: Machine, v: Move)
    requires Inv(o, m) && v.Start? && Possible(m, v)
    ensures Inv(o, Perform(m, v))
  {
    hide Stands, SeedsHold, Committable, Paths.ValidPath, Open, UnderKey, Meant, HasData;
  }

  lemma BeginKeeps(o: Origin, m: Machine, v: Move)
    requires Inv(o, m) && v.Begin? && Possible(m, v)
    ensures Inv(o, Perform(m, v))
  {
    hide Stands, SeedsHold, Committable, Paths.ValidPath, Open, UnderKey, Meant, HasData;
  }

  lemma SeedsMove(o: Origin, row: KeyRow, seeds: map<nat, Envelope>, texts: map<nat, string>, admin: nat,
      text: string, coins: Coins)
    requires SeedsHold(o, ProviderOf(row), seeds, texts) && ValidRow(row) && ValidCoins(coins)
    ensures var e := Seal(ProviderOf(row), Seed(text), SeedPath(admin), 1, coins);
      e.Ok? && SeedsHold(o, ProviderOf(row), seeds[admin := e.value], texts[admin := text])
  {
    hide Open, Seal, UnderKey;
    SealedOpens(ProviderOf(row), Seed(text), SeedPath(admin), 1, coins);
    OpensUnderKey(row, Seal(ProviderOf(row), Seed(text), SeedPath(admin), 1, coins).value, SeedPath(admin), 1);
  }

  lemma SeedsFewer(o: Origin, k: Provider, seeds: map<nat, Envelope>, texts: map<nat, string>, admin: nat)
    requires SeedsHold(o, k, seeds, texts)
    ensures SeedsHold(o, k, seeds - {admin}, texts - {admin})
  {
  }

  lemma SeedKeeps(o: Origin, m: Machine, v: Move)
    requires Inv(o, m) && (v.StoreSeed? || v.DropSeed?) && Possible(m, v)
    ensures Inv(o, Perform(m, v))
  {
    hide Stands, SeedsHold, Committable, Paths.ValidPath, Open, Seal, UnderKey, HasData, Meant;
    assert ProcessFits(o, m, m.processes[v.p]);
    assert ValidRow(m.key.value) by { CommittableValid(o, m.key.value); }
    if v.StoreSeed? {
      SeedsMove(o, m.key.value, m.seeds, m.texts, v.admin, v.text, v.coins);
    } else {
      SeedsFewer(o, ProviderOf(m.key.value), m.seeds, m.texts, v.admin);
    }
  }

  lemma CommittableValid(o: Origin, row: KeyRow)
    requires Committable(o, row)
    ensures ValidRow(row)
  {
  }

  lemma AbortKeeps(o: Origin, m: Machine, w: nat)
    requires Inv(o, m) && w in m.writers
    ensures Inv(o, Perform(m, Abort(w)))
  {
    hide Stands, SeedsHold, Committable, Paths.ValidPath, Open, UnderKey, Meant, HasData;
  }

  lemma {:induction false} AlwaysInv(o: Origin, moves: seq<Move>)
    requires WellFormed(o) && Legal(o, moves)
    ensures Inv(o, After(o, moves))
  {
    hide Inv, Perform, Possible, WellFormed;
    if moves == [] {
      InvInitially(o);
    } else {
      var init := moves[..|moves| - 1];
      AlwaysInv(o, init);
      MoveKeeps(o, After(o, init), moves[|moves| - 1]);
    }
  }

  lemma InvInitially(o: Origin)
    ensures Inv(o, Initially(o))
  {
  }

  // ---- the theorems ----

  /**
   * Whatever processes start, with whatever files, crash and write: all that are up hold the one
   * committed key, every half-written version is sealed under it, restores seal the version they
   * name, and what is stored is the legacy data untouched and versions sealed under that key.
   */
  lemma OneKeyForAll(o: Origin, moves: seq<Move>)
    requires WellFormed(o) && Legal(o, moves)
    ensures var m := After(o, moves);
      && (forall p | p in m.processes && m.processes[p].Up? :: m.key.Some? && m.processes[p].keys == ProviderOf(m.key.value))
      && (m.key.None? ==> m.secrets == o.secrets && m.plain == o.plain && m.seeds == o.seeds)
      && (m.key.Some? ==>
            Stands(o, ProviderOf(m.key.value), m.secrets, m.plain) && SeedsHold(o, ProviderOf(m.key.value), m.seeds, m.texts))
      && (forall w | w in m.writers && m.writers[w].stage.Sealed? ::
            && m.key.Some? && UnderKey(ProviderOf(m.key.value), m.writers[w].stage.envelope)
            && Meant(m.writers[w].work, HistoryOf(m.plain, m.writers[w].path), m.writers[w].stage.values))
  {
    hide Stands, SeedsHold, UnderKey, Legal, After, Open, WellFormed, HasData, Meant;
    AlwaysInv(o, moves);
    var m := After(o, moves);
    forall w | w in m.writers && m.writers[w].stage.Sealed?
      ensures m.key.Some? && UnderKey(ProviderOf(m.key.value), m.writers[w].stage.envelope)
        && Meant(m.writers[w].work, HistoryOf(m.plain, m.writers[w].path), m.writers[w].stage.values)
    {
      assert WriterFits(m, m.writers[w]);
      assert ProcessFits(o, m, m.processes[m.writers[w].process]);
    }
  }

  // ---- when the data opens under the committed key ----

  /** An envelope sealed under the legacy key opens under a committed file key exactly when it is that key. */
  lemma LegacyOpens(o: Origin, row: KeyRow, e: Envelope, path: string, version: nat)
    requires Open(LegacyKeys(o), e, path, version).Ok? && ValidRow(row) && row.version == FILE_VERSION
    ensures Open(ProviderOf(row), e, path, version)
         == if row.material == o.material then Open(LegacyKeys(o), e, path, version) else Err(Internal)
  {
  }

  lemma EntryReads(o: Origin, row: KeyRow, s: Secrets, m: Plain, p: string, v: nat)
    requires WellFormed(o) && Committable(o, row) && Stands(o, ProviderOf(row), s, m) && p in s && v in s[p].versions
    ensures p in m && 1 <= v <= |m[p].history|
    ensures ReadVersion(ProviderOf(row), s, p, v)
         == if Legacy(o, p, v) && row.material != o.material then Err(Internal) else Ok(m[p].history[v - 1])
  {
    hide Open, UnderKey, Paths.ValidPath;
    StandsRow(o, ProviderOf(row), s, m, p);
    assert RowStands(o, ProviderOf(row), p, s[p], m[p]);
    assert EntryStands(o, ProviderOf(row), p, v, s[p].versions[v], m[p].history[v - 1]);
    if Legacy(o, p, v) {
      assert RowRepresents(LegacyKeys(o), p, o.secrets[p], o.plain[p]);
      LegacyOpens(o, row, s[p].versions[v], p, v);
    }
  }

  /** The sealed store stands for the plain one exactly when nothing is left of another key's data. */
  lemma RepresentsExactly(o: Origin, row: KeyRow, s: Secrets, m: Plain)
    requires WellFormed(o) && Committable(o, row) && Stands(o, ProviderOf(row), s, m)
    ensures Represents(ProviderOf(row), s, m) <==> o.secrets == map[] || row.material == o.material
  {
    hide Open, UnderKey, Paths.ValidPath, Stands, Committable, EntryStands;
    var k := ProviderOf(row);
    SameKeys(o, k, s, m);
    if o.secrets == map[] || row.material == o.material {
      forall p | p in s ensures RowRepresents(k, p, s[p], m[p]) {
        StandsRow(o, k, s, m, p);
        forall v | v in s[p].versions ensures Open(k, s[p].versions[v], p, v) == Ok(Json(m[p].history[v - 1])) {
          EntryReads(o, row, s, m, p, v);
          ReadOpens(k, s, p, v);
        }
      }
    } else {
      var p :| p in o.secrets;
      assert RowRepresents(LegacyKeys(o), p, o.secrets[p], o.plain[p]);
      assert Legacy(o, p, 1);
      StandsRow(o, k, s, m, p);
      EntryReads(o, row, s, m, p, 1);
      if Represents(k, s, m) { ReadRefines(k, s, m, p, 1); }
    }
  }

  lemma SameKeys(o: Origin, k: Provider, s: Secrets, m: Plain)
    requires Stands(o, k, s, m)
    ensures s.Keys == m.Keys && o.secrets.Keys <= s.Keys
  {
  }

  lemma ReadOpens(k: Provider, s: Secrets, p: string, v: nat)
    requires p in s && v in s[p].versions && v >= 1 && ReadVersion(k, s, p, v).Ok?
    ensures Open(k, s[p].versions[v], p, v) == Ok(Json(ReadVersion(k, s, p, v).value))
  {
    hide Open;
  }

  lemma SeedsExactly(o: Origin, row: KeyRow, seeds: map<nat, Envelope>, texts: map<nat, string>)
    requires WellFormed(o) && Committable(o, row) && SeedsHold(o, ProviderOf(row), seeds, texts)
    ensures SeedsStand(ProviderOf(row), seeds, texts) <==>
            row.material == o.material || forall a | a in seeds :: !LegacySeed(o, a, seeds[a])
  {
    hide Open, UnderKey, Represents;
    forall a | a in seeds && LegacySeed(o, a, seeds[a])
      ensures Open(ProviderOf(row), seeds[a], SeedPath(a), 1)
           == if row.material == o.material then Ok(Seed(o.texts[a])) else Err(Internal)
    {
      LegacyOpens(o, row, seeds[a], SeedPath(a), 1);
    }
    if row.material == o.material {
      forall a | a in seeds ensures Open(ProviderOf(row), seeds[a], SeedPath(a), 1) == Ok(Seed(texts[a])) {
        assert SeedHolds(o, ProviderOf(row), a, seeds[a], texts[a]);
      }
    }
  }

  /**
   * An imported file settles the key without a look at the data. After any run that has committed
   * a key, a stored version reads as its history says exactly when it was sealed in this run or
   * the committed key is the legacy one; so do all secrets, and all seeds.
   */
  lemma OpensWithTheRightKey(o: Origin, moves: seq<Move>)
    requires WellFormed(o) && Legal(o, moves) && After(o, moves).key.Some?
    ensures var m := After(o, moves);
      var row := m.key.value;
      var k := ProviderOf(row);
      && (forall p, v | p in m.secrets && v in m.secrets[p].versions ::
            && p in m.plain && 1 <= v <= |m.plain[p].history|
            && (ReadVersion(k, m.secrets, p, v) == Ok(m.plain[p].history[v - 1]) <==> (Legacy(o, p, v) ==> row.material == o.material)))
      && (Represents(k, m.secrets, m.plain) <==> o.secrets == map[] || row.material == o.material)
      && (SeedsStand(k, m.seeds, m.texts) <==>
            row.material == o.material || forall a | a in m.seeds :: !LegacySeed(o, a, m.seeds[a]))
  {
    hide Represents, SeedsStand, Stands, SeedsHold, ReadVersion, Legal, After, WellFormed, Committable, Legacy,
      LegacySeed;
    AlwaysInv(o, moves);
    var m := After(o, moves);
    var row := m.key.value;
    RepresentsExactly(o, row, m.secrets, m.plain);
    SeedsExactly(o, row, m.seeds, m.texts);
    forall p, v | p in m.secrets && v in m.secrets[p].versions
      ensures p in m.plain && 1 <= v <= |m.plain[p].history|
      ensures ReadVersion(ProviderOf(row), m.secrets, p, v) == Ok(m.plain[p].history[v - 1])
         <==> (Legacy(o, p, v) ==> row.material == o.material)
    {
      EntryReads(o, row, m.secrets, m.plain, p, v);
    }
  }

  lemma OneMore(o: Origin, moves: seq<Move>, v: Move)
    requires Legal(o, moves) && Possible(After(o, moves), v)
    ensures Legal(o, moves + [v]) && After(o, moves + [v]) == Perform(After(o, moves), v)
  {
    assert (moves + [v])[..|moves|] == moves;
  }

  /** Any readable file can become the key of a database that has none, whatever data it holds. */
  lemma AnyFileIsImported(o: Origin, imported: Bytes)
    requires |imported| == KEY_BYTES
    ensures exists moves :: Legal(o, moves) && After(o, moves).key == Some(KeyRow(FILE_VERSION, imported))
  {
    hide Legal, After;
    var boot := Boot(0, imported);
    assert Legal(o, []) && After(o, []) == Initially(o) by { NothingYet(o); }
    OneMore(o, [], Start(0, File(imported)));
    OneMore(o, [Start(0, File(imported))], boot);
    OneMore(o, [Start(0, File(imported))] + [boot], boot);
    OneMore(o, [Start(0, File(imported))] + [boot] + [boot], boot);
    OneMore(o, [Start(0, File(imported))] + [boot] + [boot] + [boot], boot);
    var moves := [Start(0, File(imported))] + [boot] + [boot] + [boot] + [boot];
    assert After(o, moves).key == Some(KeyRow(FILE_VERSION, imported));
  }

  lemma NothingYet(o: Origin)
    ensures Legal(o, []) && After(o, []) == Initially(o)
  {
  }

  /** A version never changes, the history only grows at its end, and the committed key stays. */
  ghost predicate Extends(m: Machine, n: Machine) {
    && (m.key.Some? ==> n.key == m.key)
    && (forall p | p in m.plain :: p in n.plain && m.plain[p].history <= n.plain[p].history)
    && (forall p | p in m.secrets :: p in n.secrets)
    && (forall p, v | p in m.secrets && v in m.secrets[p].versions ::
          v in n.secrets[p].versions && n.secrets[p].versions[v] == m.secrets[p].versions[v])
  }

  lemma MoveExtends(o: Origin, m: Machine, v: Move)
    requires Inv(o, m) && Possible(m, v)
    ensures Extends(m, Perform(m, v))
  {
    hide Inv, Booted, Committed, Advanced;
    if v.Boot? {
      BootExtends(o, m, v.p, v.random);
    } else if v.Commit? {
      CommitExtends(o, m, v.w);
    }
  }

  lemma BootExtends(o: Origin, m: Machine, p: nat, random: Bytes)
    requires Inv(o, m) && p in m.processes && !m.processes[p].Up?
    ensures Extends(m, Booted(m, p, random))
  {
    hide Stands, SeedsHold, WriterFits, HasData;
    assert ProcessFits(o, m, m.processes[p]);
  }

  lemma CommitExtends(o: Origin, m: Machine, w: nat)
    requires Inv(o, m) && Possible(m, Commit(w))
    ensures Extends(m, Committed(m, w))
  {
    hide Paths.ValidPath, Open, UnderKey, Stands, SeedsHold, Meant, HasData, ProcessFits;
    var x := m.writers[w];
    assert WriterFits(m, x);
    assert ProcessFits(o, m, m.processes[x.process]);
    assert m.key.Some? by { UpMeansKey(o, m, x.process); }
    NextIsNew(o, ProviderOf(m.key.value), m.secrets, m.plain, x.path);
  }

  lemma UpMeansKey(o: Origin, m: Machine, p: nat)
    requires p in m.processes && m.processes[p].Up? && ProcessFits(o, m, m.processes[p])
    ensures m.key.Some?
  {
  }

  lemma NextIsNew(o: Origin, k: Provider, s: Secrets, m: Plain, p: string)
    requires Stands(o, k, s, m)
    ensures p in s <==> p in m
    ensures p in s ==> |m[p].history| + 1 !in s[p].versions
  {
    hide EntryStands, Paths.ValidPath;
    StandsRow(o, k, s, m, p);
  }

  lemma ExtendsTransitive(l: Machine, m: Machine, n: Machine)
    requires Extends(l, m) && Extends(m, n)
    ensures Extends(l, n)
  {
    forall p, v | p in l.secrets && v in l.secrets[p].versions
      ensures v in n.secrets[p].versions && n.secrets[p].versions[v] == l.secrets[p].versions[v]
    {
      assert p in m.secrets && v in m.secrets[p].versions;
    }
  }

  lemma {:induction false} NothingIsRewritten(o: Origin, moves: seq<Move>, n: nat)
    requires WellFormed(o) && Legal(o, moves) && n <= |moves|
    ensures Legal(o, moves[..n]) && Extends(After(o, moves[..n]), After(o, moves))
  {
    hide Extends, Possible, Perform, Inv, WellFormed;
    if n == |moves| {
      assert moves[..n] == moves;
      ExtendsItself(After(o, moves));
    } else {
      var init := moves[..|moves| - 1];
      assert init[..n] == moves[..n];
      NothingIsRewritten(o, init, n);
      AlwaysInv(o, init);
      MoveExtends(o, After(o, init), moves[|moves| - 1]);
      ExtendsTransitive(After(o, moves[..n]), After(o, init), After(o, moves));
    }
  }

  lemma ExtendsItself(m: Machine)
    ensures Extends(m, m)
  {
  }

  /** No start is given a usable file. */
  ghost predicate NoImport(moves: seq<Move>) {
    forall i | 0 <= i < |moves| && moves[i].Start? :: !moves[i].boot.File?
  }

  ghost predicate Refusing(o: Origin, m: Machine) {
    && m.key.None? && m.secrets == o.secrets && m.seeds == o.seeds && m.writers == map[]
    && forall p | p in m.processes :: !m.processes[p].Generating? && !m.processes[p].Settling? && !m.processes[p].Up?
         && (m.processes[p].Locking? || m.processes[p].Checking? || m.processes[p].Missing? ==> !m.processes[p].boot.File?)
  }

  lemma RefusalKept(o: Origin, m: Machine, v: Move)
    requires Refusing(o, m) && HasData(o.secrets, o.seeds) && Possible(m, v) && (v.Start? ==> !v.boot.File?)
    ensures Refusing(o, Perform(m, v))
  {
    hide Advanced, HasData;
    if v.Boot? {
      assert m.processes[v.p].Locking? || m.processes[v.p].Checking? || m.processes[v.p].Missing?;
    }
  }

  lemma {:induction false} RefusesThroughout(o: Origin, moves: seq<Move>)
    requires Legal(o, moves) && HasData(o.secrets, o.seeds) && NoImport(moves)
    ensures Refusing(o, After(o, moves))
  {
    hide Refusing, Possible, Perform, HasData;
    if moves == [] {
      RefusalInitially(o);
    } else {
      var init := moves[..|moves| - 1];
      assert NoImport(init);
      RefusesThroughout(o, init);
      RefusalKept(o, After(o, init), moves[|moves| - 1]);
    }
  }

  lemma RefusalInitially(o: Origin)
    ensures Refusing(o, Initially(o))
  {
  }

  /** With a stored version or seed, no key row and no usable file, no process ever comes up and nothing is lost. */
  lemma NeverReplacesTheKey(o: Origin, moves: seq<Move>)
    requires Legal(o, moves) && forall i | 0 <= i < |moves| && moves[i].Start? :: !moves[i].boot.File?
    requires (exists p | p in o.secrets :: o.secrets[p].versions != map[]) || o.seeds != map[]
    ensures var m := After(o, moves);
      && m.key == None && m.secrets == o.secrets && m.seeds == o.seeds
      && forall p | p in m.processes :: !m.processes[p].Up?
  {
    hide Legal, After;
    RefusesThroughout(o, moves);
  }
}
