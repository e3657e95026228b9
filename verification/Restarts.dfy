/**
 * A start, and a writer, that nothing disturbs: each comes to its end, and what it leaves is what
 * the calls promise one by one (store.go, secrets.go).
 */
module Restarts {
  import opened Results
  import opened Envelopes
  import opened Vault
  import opened MasterKey
  import opened Startup
  import opened Text

  // ---- a start ----

  /** The same move again and again. */
  ghost function Repeated(moves: seq<Move>, v: Move, n: nat): seq<Move> {
    if n == 0 then moves else Repeated(moves, v, n - 1) + [v]
  }

  ghost predicate LockFree(m: Machine) {
    forall q | q in m.processes :: !HoldsAdvisoryLock(m.processes[q])
  }

  /** The process takes one more step of its start. */
  lemma StageReached(o: Origin, moves: seq<Move>, p: nat, random: Bytes, n: nat, m: Machine, q: Process)
    requires |random| == KEY_BYTES && LockFree(m) && p !in m.processes && !q.Up?
    requires Legal(o, Repeated(moves, Boot(p, random), n))
    requires After(o, Repeated(moves, Boot(p, random), n)) == m.(processes := m.processes[p := q])
    ensures Legal(o, Repeated(moves, Boot(p, random), n + 1))
    ensures After(o, Repeated(moves, Boot(p, random), n + 1)) == Booted(m.(processes := m.processes[p := q]), p, random)
  {
    hide Legal, After, Booted;
    OneMore(o, Repeated(moves, Boot(p, random), n), Boot(p, random));
  }

  /** What one step does to a process that has nothing in flight yet. */
  lemma StageAfter(m: Machine, p: nat, q: Process, random: Bytes)
    requires p !in m.processes && !q.Up? && forall w | w in m.writers :: m.writers[w].process != p
    ensures var n := Booted(m.(processes := m.processes[p := q]), p, random);
      var next := NextStage(m, q, random);
      n == if q.Settling? then m.(key := if q.inserted then Some(q.row) else m.key, processes := m.processes[p := Up(ProviderOf(q.row))])
           else if next.Some? then m.(processes := m.processes[p := next.value]) else m
  {
    hide HasData;
    var x := m.(processes := m.processes[p := q]);
    var next := NextStage(m, q, random);
    assert NextStage(x, q, random) == next;
    assert x.processes - {p} == m.processes;
    assert Dropping(x, p) == m.writers;
    if q.Settling? {
      assert x.processes[p := Up(ProviderOf(q.row))] == m.processes[p := Up(ProviderOf(q.row))];
    } else if next.Some? {
      assert x.processes[p := next.value] == m.processes[p := next.value];
    }
  }

  lemma NoWriters(o: Origin, m: Machine, p: nat)
    requires Inv(o, m) && p !in m.processes
    ensures forall w | w in m.writers :: m.writers[w].process != p
  {
    hide StoreFits, ProcessFits;
    forall w | w in m.writers ensures m.writers[w].process != p {
      assert WriterFits(m, m.writers[w]);
    }
  }

  /**
   * A start that meets the advisory lock free and runs its statements undisturbed ends with the
   * process serving the key row that `InitializeMasterKey` settles on, and that row committed; if
   * it settles on none, the process is gone and nothing has changed.
   */
  lemma StartsAlone(o: Origin, moves: seq<Move>, p: nat, boot: Bootstrap, random: Bytes) returns (n: nat)
    requires WellFormed(o) && Legal(o, moves)
    requires p !in After(o, moves).processes && LockFree(After(o, moves)) && ReadableFile(boot) && |random| == KEY_BYTES
    ensures var m := After(o, moves);
      var more := Repeated(moves + [Start(p, boot)], Boot(p, random), n);
      && Legal(o, more)
      && After(o, more)
         == match Settled(m.key, boot, HasData(m.secrets, m.seeds), random)
            case Ok(row) => m.(key := Some(row), processes := m.processes[p := Up(ProviderOf(row))])
            case Err(_) => m
  {
    hide Legal, After, Booted, HasData, Inv, WellFormed, LockFree, NextStage, Settled, Leads;
    var m := After(o, moves);
    AlwaysInv(o, moves);
    NoWriters(o, m, p);
    OneMore(o, moves, Start(p, boot));
    var begun := moves + [Start(p, boot)];
    n := 0;
    var q := Locking(boot);
    assert Leads(m, boot, random, q) by { LeadsFirst(m, boot, random); }
    var done := false;
    while !done
      invariant Legal(o, Repeated(begun, Boot(p, random), n))
      invariant !done ==> !q.Up? && After(o, Repeated(begun, Boot(p, random), n)) == m.(processes := m.processes[p := q])
      invariant !done ==> Leads(m, boot, random, q)
      invariant done ==> After(o, Repeated(begun, Boot(p, random), n)) == Ends(m, p, boot, random)
      decreases if done then 0 else 1 + Left(q)
    {
      StageReached(o, begun, p, random, n, m, q);
      StageAfter(m, p, q, random);
      LeadsOn(m, p, boot, random, q);
      var next := NextStage(m, q, random);
      n := n + 1;
      if q.Settling? || next.None? {
        done := true;
      } else {
        q := next.value;
      }
    }
  }

  ghost function Ends(m: Machine, p: nat, boot: Bootstrap, random: Bytes): Machine {
    match Settled(m.key, boot, HasData(m.secrets, m.seeds), random)
    case Ok(row) => m.(key := Some(row), processes := m.processes[p := Up(ProviderOf(row))])
    case Err(_) => m
  }

  function Left(q: Process): nat {
    match q
    case Locking(_) => 5
    case Checking(_) => 4
    case Missing(_) => 3
    case Generating => 2
    case _ => 1
  }

  /** The stages on the way of this start, over this database. */
  ghost predicate Leads(m: Machine, boot: Bootstrap, random: Bytes, q: Process) {
    var settled := Settled(m.key, boot, HasData(m.secrets, m.seeds), random);
    match q
    case Locking(b) => b == boot
    case Checking(b) => b == boot
    case Missing(b) => b == boot && m.key.None?
    case Generating => m.key.None? && boot.NoFile? && !HasData(m.secrets, m.seeds)
    case Settling(row, inserted) => settled == Ok(row) && (inserted <==> m.key.None?)
    case Up(_) => false
  }

  lemma LeadsFirst(m: Machine, boot: Bootstrap, random: Bytes)
    ensures Leads(m, boot, random, Locking(boot))
  {
  }

  lemma LeadsOn(m: Machine, p: nat, boot: Bootstrap, random: Bytes, q: Process)
    requires Leads(m, boot, random, q) && !q.Up? && ReadableFile(boot)
    ensures var next := NextStage(m, q, random);
      if q.Settling? then
        Ends(m, p, boot, random)
        == m.(key := if q.inserted then Some(q.row) else m.key, processes := m.processes[p := Up(ProviderOf(q.row))])
      else if next.Some? then !next.value.Up? && Leads(m, boot, random, next.value) && Left(next.value) < Left(q)
      else Ends(m, p, boot, random) == m
  {
    hide HasData;
  }

  /** So a restart over a stored key always comes up with that key, whatever file it is given. */
  lemma RestartComesUp(o: Origin, moves: seq<Move>, p: nat, boot: Bootstrap, random: Bytes) returns (n: nat)
    requires WellFormed(o) && Legal(o, moves)
    requires p !in After(o, moves).processes && LockFree(After(o, moves)) && ReadableFile(boot) && |random| == KEY_BYTES
    requires After(o, moves).key.Some?
    ensures var m := After(o, moves);
      var row := m.key.value;
      var more := Repeated(moves + [Start(p, boot)], Boot(p, random), n);
      && Legal(o, more)
      && After(o, more) == m.(processes := m.processes[p := Up(Provider(row.version, map[row.version := row.material]))])
  {
    hide Legal, After, WellFormed, LockFree, HasData, Stands, SeedsHold, ProcessFits, WriterFits;
    AlwaysInv(o, moves);
    n := StartsAlone(o, moves, p, boot, random);
    assert Committable(o, After(o, moves).key.value);
  }

  // ---- a writer ----

  /** The values a write is about: those given, or those of a stored version that opens. */
  ghost predicate Writes(m: Machine, p: nat, path: string, work: Work, values: Values)
    requires p in m.processes && m.processes[p].Up?
  {
    match work
    case SaveWork(given) => values == given
    case RestoreWork(v) => v >= 1 && path in m.secrets && ReadVersion(m.processes[p].keys, m.secrets, path, v) == Ok(values)
    case ArchiveWork => false
  }

  /** A save or restore that meets its row free is committed as the next version, and reads back. */
  lemma WritesAlone(o: Origin, moves: seq<Move>, w: nat, p: nat, path: string, work: Work, values: Values, coins: Coins)
    requires WellFormed(o) && Legal(o, moves)
    requires var m := After(o, moves);
      && w !in m.writers && p in m.processes && m.processes[p].Up? && Paths.ValidPath(path) && ValidCoins(coins)
      && Writes(m, p, path, work, values)
      && forall x | x in m.writers && m.writers[x].path == path :: !HoldsRow(m.writers[x].stage)
    ensures var m := After(o, moves);
      var history := if path in m.plain then m.plain[path].history else [];
      var more := moves + [Begin(w, p, path, work, coins)] + [Step(w)] + [Step(w)] + [Commit(w)];
      && Legal(o, more)
      && var n := After(o, more);
         && n.plain == m.plain[path := PlainRow(false, history + [values])]
         && n.key == m.key && n.seeds == m.seeds && n.processes == m.processes && n.writers == m.writers
         && ReadVersion(m.processes[p].keys, n.secrets, path, |history| + 1) == Ok(values)
  {
    hide Legal, After, WellFormed, Paths.ValidPath, Open, Inv, Committed, Advanced, LockFree, ValidCoins, HistoryOf;
    var m := After(o, moves);
    var x := Writer(p, path, work, coins, Locked);
    LocksAlone(o, moves, w, p, path, work, coins);
    var two := moves + [Begin(w, p, path, work, coins)] + [Step(w)];
    AlwaysInv(o, moves);
    SealsAlone(o, m, p, x, values);
    OneMore(o, two, Step(w));
    var three := two + [Step(w)];
    OneMore(o, three, Commit(w));
    CommitsAlone(o, m, After(o, three), w);
    HistoryIs(m.plain, path);
  }

  lemma HistoryIs(m: Plain, path: string)
    ensures HistoryOf(m, path) == if path in m then m[path].history else []
  {
  }

  lemma LocksAlone(o: Origin, moves: seq<Move>, w: nat, p: nat, path: string, work: Work, coins: Coins)
    requires Legal(o, moves)
    requires var m := After(o, moves);
      && w !in m.writers && p in m.processes && m.processes[p].Up? && Paths.ValidPath(path) && ValidCoins(coins)
      && !work.ArchiveWork? && (work.RestoreWork? ==> path in m.secrets)
      && forall x | x in m.writers && m.writers[x].path == path :: !HoldsRow(m.writers[x].stage)
    ensures var two := moves + [Begin(w, p, path, work, coins)] + [Step(w)];
      && Legal(o, two)
      && After(o, two) == After(o, moves).(writers := After(o, moves).writers[w := Writer(p, path, work, coins, Locked)])
  {
    hide Legal, After, Paths.ValidPath;
    OneMore(o, moves, Begin(w, p, path, work, coins));
    OneMore(o, moves + [Begin(w, p, path, work, coins)], Step(w));
  }

  /** What the lock holder seals, and that it opens. */
  lemma SealsAlone(o: Origin, m: Machine, p: nat, x: Writer, values: Values)
    requires WellFormed(o) && Inv(o, m) && p in m.processes && m.processes[p].Up? && x.process == p
    requires x.stage.Locked? && Writes(m, p, x.path, x.work, values) && Paths.ValidPath(x.path) && ValidCoins(x.coins)
    ensures var k := m.processes[p].keys;
      var next := Advanced(k, x, m.secrets);
      && next.Sealed? && next.version == |HistoryOf(m.plain, x.path)| + 1 && next.values == values
      && Open(k, next.envelope, x.path, next.version) == Ok(Json(next.values))
  {
    hide WellFormed, Stands, SeedsHold, HasData, Paths.ValidPath, Open, Seal, UnderKey, WriterFits, ReadVersion;
    assert ProcessFits(o, m, m.processes[p]);
    var k := ProviderOf(m.key.value);
    assert ValidRow(m.key.value) by { assert Committable(o, m.key.value); }
    NextNumber(o, k, m.secrets, m.plain, x.path);
    SealedOpens(k, Json(values), x.path, |HistoryOf(m.plain, x.path)| + 1, x.coins);
  }

  lemma CommitsAlone(o: Origin, m: Machine, n: Machine, w: nat)
    requires w !in m.writers && w in n.writers && n == m.(writers := m.writers[w := n.writers[w]])
    requires n.writers[w].stage.Sealed? && n.writers[w].process in m.processes && m.processes[n.writers[w].process].Up?
    requires var x := n.writers[w];
      && x.stage.version == |HistoryOf(m.plain, x.path)| + 1
      && Open(m.processes[x.process].keys, x.stage.envelope, x.path, x.stage.version) == Ok(Json(x.stage.values))
    ensures var x := n.writers[w];
      var u := Committed(n, w);
      && u.plain == m.plain[x.path := PlainRow(false, HistoryOf(m.plain, x.path) + [x.stage.values])]
      && u.key == m.key && u.seeds == m.seeds && u.processes == m.processes && u.writers == m.writers
      && ReadVersion(m.processes[x.process].keys, u.secrets, x.path, x.stage.version) == Ok(x.stage.values)
  {
    hide Open;
    assert n.writers - {w} == m.writers;
  }

  /** And an archive of a live path whose row is free sets its tombstone; of any other path it is refused. */
  lemma ArchivesAlone(o: Origin, moves: seq<Move>, w: nat, p: nat, path: string, coins: Coins)
    requires WellFormed(o) && Legal(o, moves)
    requires var m := After(o, moves);
      && w !in m.writers && p in m.processes && m.processes[p].Up? && Paths.ValidPath(path) && ValidCoins(coins)
      && forall x | x in m.writers && m.writers[x].path == path :: !HoldsRow(m.writers[x].stage)
    ensures var m := After(o, moves);
      var two := moves + [Begin(w, p, path, ArchiveWork, coins)] + [Step(w)];
      && Legal(o, two)
      && if path in m.plain && !m.plain[path].archived then
           && Legal(o, two + [Commit(w)])
           && var n := After(o, two + [Commit(w)]);
              && n.plain == m.plain[path := PlainRow(true, m.plain[path].history)]
              && n.key == m.key && n.seeds == m.seeds && n.processes == m.processes && n.writers == m.writers
         else After(o, two).writers[w].stage.Refused? && After(o, two).secrets == m.secrets
  {
    hide Legal, After, WellFormed, Paths.ValidPath, Open, Inv, Stands, RowStands;
    var m := After(o, moves);
    AlwaysInv(o, moves);
    LiveTogether(o, m, p, path);
    OneMore(o, moves, Begin(w, p, path, ArchiveWork, coins));
    var one := moves + [Begin(w, p, path, ArchiveWork, coins)];
    OneMore(o, one, Step(w));
    if path in m.plain && !m.plain[path].archived {
      OneMore(o, one + [Step(w)], Commit(w));
      assert After(o, one + [Step(w)]).writers - {w} == m.writers;
    }
  }

  lemma LiveTogether(o: Origin, m: Machine, p: nat, path: string)
    requires Inv(o, m) && p in m.processes && m.processes[p].Up?
    ensures path in m.plain <==> path in m.secrets
    ensures path in m.plain ==> m.plain[path].archived == m.secrets[path].archived
  {
    hide SeedsHold, HasData, Paths.ValidPath, EntryStands, WriterFits;
    assert ProcessFits(o, m, m.processes[p]);
    StandsRow(o, ProviderOf(m.key.value), m.secrets, m.plain, path);
  }

  /** A restore or archive of a path that has no committed row waits for nobody and is refused. */
  lemma MissingIsRefused(o: Origin, moves: seq<Move>, w: nat)
    requires WellFormed(o) && Legal(o, moves)
    requires var m := After(o, moves);
      w in m.writers && m.writers[w].stage.Queued? && !m.writers[w].work.SaveWork? && m.writers[w].path !in m.secrets
    ensures Legal(o, moves + [Step(w)])
    ensures After(o, moves + [Step(w)]).writers[w].stage.Refused?
  {
    hide Legal, After, WellFormed, StoreFits, ProcessFits;
    AlwaysInv(o, moves);
    assert WriterFits(After(o, moves), After(o, moves).writers[w]);
    OneMore(o, moves, Step(w));
  }

  // ---- an authenticator seed ----

  /** A seed stored by a serving process opens to what was stored, and no other seed changes. */
  lemma SeedStored(o: Origin, moves: seq<Move>, p: nat, admin: nat, text: string, coins: Coins)
    requires WellFormed(o) && Legal(o, moves)
    requires p in After(o, moves).processes && After(o, moves).processes[p].Up? && ValidCoins(coins)
    ensures var m := After(o, moves);
      var more := moves + [StoreSeed(p, admin, text, coins)];
      && Legal(o, more)
      && var n := After(o, more);
         && admin in n.seeds && n == m.(seeds := m.seeds[admin := n.seeds[admin]], texts := m.texts[admin := text])
         && Open(m.processes[p].keys, n.seeds[admin], "admin-totp:" + Decimal(admin), 1) == Ok(Seed(text))
  {
    hide Legal, After, WellFormed, Stands, SeedsHold, HasData, Paths.ValidPath, Open, Seal, UnderKey, WriterFits;
    var m := After(o, moves);
    AlwaysInv(o, moves);
    assert ProcessFits(o, m, m.processes[p]);
    assert ValidRow(m.key.value) by { assert Committable(o, m.key.value); }
    SealedOpens(m.processes[p].keys, Seed(text), SeedPath(admin), 1, coins);
    OneMore(o, moves, StoreSeed(p, admin, text, coins));
  }

  /** Dropping a seed that opens drops that one only. */
  lemma SeedDropped(o: Origin, moves: seq<Move>, p: nat, admin: nat)
    requires Legal(o, moves)
    requires var m := After(o, moves);
      && p in m.processes && m.processes[p].Up? && admin in m.seeds
      && Open(m.processes[p].keys, m.seeds[admin], "admin-totp:" + Decimal(admin), 1).Ok?
    ensures var m := After(o, moves);
      var more := moves + [DropSeed(p, admin)];
      Legal(o, more) && After(o, more) == m.(seeds := m.seeds - {admin}, texts := m.texts - {admin})
  {
    hide Legal, After, Open;
    OneMore(o, moves, DropSeed(p, admin));
  }

  // ---- a crash ----

  /** A crash takes the process and its uncommitted work, its locks with it, and nothing that is committed. */
  lemma CrashLeavesNothing(o: Origin, moves: seq<Move>, p: nat)
    requires Legal(o, moves) && p in After(o, moves).processes
    ensures var m := After(o, moves);
      && Legal(o, moves + [Crash(p)])
      && var n := After(o, moves + [Crash(p)]);
         && n == m.(processes := m.processes - {p}, writers := n.writers)
         && (forall w :: w in n.writers <==> w in m.writers && m.writers[w].process != p)
         && (forall w | w in n.writers :: n.writers[w] == m.writers[w])
  {
    hide Legal, After;
    OneMore(o, moves, Crash(p));
  }
}
