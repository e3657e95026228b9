/**
 * The serialisability theorem: an interleaved run answers and leaves what some atomic run does,
 * each call placed between its beginning and its end, with every secret read at its own moment.
 */
module Serialisability {
  import opened Results
  import opened Envelopes
  import opened Vault
  import opened Database
  import opened Protocol
  import opened Statements
  import opened History
  import opened Interleaving

  // ---- observations come from the secret tables the statements met ----

  ghost predicate ListedIn(listed: set<string>, s: Secrets) {
    listed == LivePaths(s)
  }

  ghost predicate Probe(p: string, present: bool, s: Secrets) {
    present == LivePath(s, p)
  }

  ghost predicate Read(k: Provider, p: string, v: Result<Values>, s: Secrets) {
    v == ReadVersion(k, s, p, 0)
  }

  ghost predicate Met(k: Provider, obs: Obs, trace: seq<Secrets>) {
    && (obs.listed.Some? ==> exists s | s in trace :: ListedIn(obs.listed.value, s))
    && (forall p | p in obs.present :: exists s | s in trace :: Probe(p, obs.present[p], s))
    && (forall p | p in obs.plain :: exists s | s in trace :: Read(k, p, obs.plain[p], s))
  }

  /** A statement adds at most one observation, made on the secret tables of that moment. */
  ghost predicate OneMore(k: Provider, s: Secrets, obs: Obs, next: Obs) {
    || next == obs
    || next == obs.(listed := Some(LivePaths(s)))
    || (exists p :: next == WithProbe(s, obs, p))
    || (exists p :: next == WithRead(k, s, obs, p))
  }

  ghost function WithProbe(s: Secrets, obs: Obs, p: string): Obs {
    obs.(present := obs.present[p := LivePath(s, p)])
  }

  ghost function WithRead(k: Provider, s: Secrets, obs: Obs, p: string): Obs {
    obs.(plain := obs.plain[p := ReadVersion(k, s, p, 0)])
  }

  lemma AccessObserves(k: Provider, op: Op, pc: Pc, v: Tables, s: Secrets, obs: Obs)
    requires op.AccessOp? || op.PollOp?
    ensures OneMore(k, s, obs, ExecAccess(k, op, pc, v, s, obs).obs)
  {
    hide ReadVersion, LivePath, LivePaths;
    if pc.Probing? && pc.i < |pc.paths| && Fits(op, pc.then_) {
      assert ExecAccess(k, op, pc, v, s, obs).obs == WithProbe(s, obs, pc.paths[pc.i]);
    } else if pc.Reading? && pc.i < |pc.paths| {
      assert ExecAccess(k, op, pc, v, s, obs).obs == WithRead(k, s, obs, pc.paths[pc.i]);
    }
  }

  lemma Observes(k: Provider, op: Op, pc: Pc, v: Tables, s: Secrets, obs: Obs)
    ensures OneMore(k, s, obs, Exec(k, op, pc, v, s, obs).obs)
  {
    hide ExecAccess;
    if op.AccessOp? || op.PollOp? { AccessObserves(k, op, pc, v, s, obs); }
  }

  lemma MetOneMore(k: Provider, obs: Obs, next: Obs, trace: seq<Secrets>, s: Secrets)
    requires Met(k, obs, trace) && OneMore(k, s, obs, next)
    ensures Met(k, next, trace + [s])
  {
    hide ReadVersion, LivePath, LivePaths;
    var longer := trace + [s];
    assert s in longer;
    forall r | r in trace ensures r in longer {
    }
    if next.listed.Some? {
      var r :| r in longer && ListedIn(next.listed.value, r);
    }
    forall p | p in next.present ensures exists r | r in longer :: Probe(p, next.present[p], r) {
      if p in obs.present && next.present[p] == obs.present[p] {
        var r :| r in trace && Probe(p, obs.present[p], r);
        assert r in longer;
      } else {
        assert Probe(p, next.present[p], s);
      }
    }
    forall p | p in next.plain ensures exists r | r in longer :: Read(k, p, next.plain[p], r) {
      if p in obs.plain && next.plain[p] == obs.plain[p] {
        var r :| r in trace && Read(k, p, obs.plain[p], r);
        assert r in longer;
      } else {
        assert Read(k, p, next.plain[p], s);
      }
    }
  }

  lemma {:induction false} ReplayMet(k: Provider, op: Op, c: Tables, trace: seq<Secrets>)
    ensures Met(k, Replay(k, op, c, trace).obs, trace)
  {
    hide Exec, Met, OneMore;
    if trace == [] {
      MetNothing(k);
    } else {
      var init, last := trace[..|trace| - 1], trace[|trace| - 1];
      var l := Replay(k, op, c, init);
      ReplayMet(k, op, c, init);
      Observes(k, op, l.pc, Overlay(c, l.delta), last, l.obs);
      MetOneMore(k, l.obs, Replay(k, op, c, trace).obs, init, last);
      assert init + [last] == trace;
    }
  }

  lemma MetNothing(k: Provider)
    ensures Met(k, UNSEEN, [])
  {
  }

  // ---- and those were the committed tables between the beginning and the end ----

  /** `s` is the secret table some time after `lo` and before `hi` calls had finished. */
  ghost predicate CommittedDuring(k: Provider, h: seq<Call>, s: Secrets, lo: nat, hi: nat) {
    exists j: nat | lo <= j <= hi && j <= |h| :: WorldAt(k, h, j).secrets == s
  }

  /** The tables met by the statements, one after the other, were committed after so many calls each. */
  ghost predicate Timeline(k: Provider, h: seq<Call>, trace: seq<Secrets>, at: seq<nat>, lo: nat, hi: nat) {
    && |at| == |trace|
    && (forall x | 0 <= x < |at| :: lo <= at[x] <= hi && at[x] <= |h| && WorldAt(k, h, at[x]).secrets == trace[x])
    && (forall x, y | 0 <= x < y < |at| :: at[x] <= at[y])
  }

  ghost predicate AllDuring(k: Provider, h: seq<Call>, trace: seq<Secrets>, lo: nat, hi: nat) {
    exists at :: Timeline(k, h, trace, at, lo, hi)
  }

  lemma DuringLonger(k: Provider, h: seq<Call>, c: Call, trace: seq<Secrets>, lo: nat, hi: nat, hi': nat)
    requires AllDuring(k, h, trace, lo, hi) && hi <= hi'
    ensures AllDuring(k, h + [c], trace, lo, hi')
  {
    var at :| Timeline(k, h, trace, at, lo, hi);
    forall x | 0 <= x < |at| ensures WorldAt(k, h + [c], at[x]).secrets == trace[x] {
      assert (h + [c])[..at[x]] == h[..at[x]];
    }
    assert Timeline(k, h + [c], trace, at, lo, hi');
  }

  lemma NothingDuring(k: Provider, h: seq<Call>, n: nat)
    ensures AllDuring(k, h, [], n, n)
  {
    assert Timeline(k, h, [], [], n, n);
  }

  /** These statements, run over the tables of the moment the call ended, gave its answer and saw what it saw. */
  ghost predicate Ran(k: Provider, h: seq<Call>, r: Record, trace: seq<Secrets>, i: nat) {
    && r.call.Lock? && i <= |h|
    && var l := Replay(k, r.call.op, WorldAt(k, h, i).tables, trace);
       l.pc == Done(r.answer) && l.obs == r.call.obs
  }

  ghost predicate Timed(k: Provider, m: Machine) {
    && (forall id | id in m.txns :: m.txns[id].since <= |m.log| && AllDuring(k, Calls(m.log), m.txns[id].trace, m.txns[id].since, |m.log|))
    && (forall i | 0 <= i < |m.log| :: RecordTimed(k, Calls(m.log), m.log[i], i))
  }

  ghost predicate RecordTimed(k: Provider, h: seq<Call>, r: Record, i: nat) {
    && r.since <= i
    && (r.call.Lock? ==> exists trace :: Ran(k, h, r, trace, i) && AllDuring(k, h, trace, r.since, i))
  }

  lemma RecordStillTimed(k: Provider, h: seq<Call>, c: Call, r: Record, i: nat)
    requires RecordTimed(k, h, r, i) && i <= |h|
    ensures RecordTimed(k, h + [c], r, i)
  {
    hide Ran, AllDuring;
    if r.call.Lock? {
      var trace :| Ran(k, h, r, trace, i) && AllDuring(k, h, trace, r.since, i);
      DuringLonger(k, h, c, trace, r.since, i, i);
      StillRan(k, h, c, r, trace, i);
    }
  }

  lemma StillRan(k: Provider, h: seq<Call>, c: Call, r: Record, trace: seq<Secrets>, i: nat)
    requires Ran(k, h, r, trace, i)
    ensures Ran(k, h + [c], r, trace, i)
  {
    hide Replay;
    assert (h + [c])[..i] == h[..i];
  }

  /** The log grows by one timed record; transactions left in flight stay timed. */
  lemma LogTimed(k: Provider, m: Machine, r: Record, txns: map<nat, Txn>, world: World)
    requires Timed(k, m) && RecordTimed(k, Calls(m.log), r, |m.log|)
    requires txns.Keys <= m.txns.Keys && forall id | id in txns :: txns[id] == m.txns[id]
    ensures Timed(k, Machine(world, txns, m.log + [r]))
  {
    hide AllDuring, RecordTimed;
    var h, n := Calls(m.log), |m.log|;
    CallsSnoc(m.log, r);
    forall id | id in txns ensures AllDuring(k, h + [r.call], txns[id].trace, txns[id].since, n + 1) {
      DuringLonger(k, h, r.call, m.txns[id].trace, m.txns[id].since, n, n + 1);
    }
    forall i | 0 <= i <= n ensures RecordTimed(k, h + [r.call], (m.log + [r])[i], i) {
      RecordStillTimed(k, h, r.call, (m.log + [r])[i], i);
    }
  }

  lemma NowDuring(k: Provider, m: Machine, trace: seq<Secrets>, since: nat)
    requires Inv(k, m) && since <= |m.log| && AllDuring(k, Calls(m.log), trace, since, |m.log|)
    ensures AllDuring(k, Calls(m.log), trace + [m.world.secrets], since, |m.log|)
  {
    hide Undisturbed, FreshRun, Separate;
    var h := Calls(m.log);
    var at :| Timeline(k, h, trace, at, since, |m.log|);
    assert h[..|m.log|] == h;
    assert WorldAt(k, h, |m.log|).secrets == m.world.secrets;
    var n: nat := |m.log|;
    var longer: seq<nat> := at + [n];
    assert Timeline(k, h, trace + [m.world.secrets], longer, since, n);
  }

  lemma StatementTimed(k: Provider, m: Machine, id: nat)
    requires Inv(k, m) && Timed(k, m) && Enabled(m, Statement(id))
    ensures Timed(k, PerformStatement(k, m, id))
  {
    hide AllDuring, RecordTimed, Ran, Undisturbed, Explained, Separate, Advance;
    var x, y := m.txns[id], AfterStatement(k, m, id);
    NowDuring(k, m, x.trace, x.since);
    StatementFields(k, m, id);
    if x.local.pc.Start? && y.local.pc.Done? {
      var r := Record(Lock(y.op, y.local.obs), y.local.pc.answer, y.since);
      LookupRan(k, m, id, r);
      TimedRecord(k, Calls(m.log), r, y.trace, |m.log|);
      LogTimed(k, m, r, m.txns - {id}, m.world);
    }
  }

  lemma TimedRecord(k: Provider, h: seq<Call>, r: Record, trace: seq<Secrets>, n: nat)
    requires r.since <= n && Ran(k, h, r, trace, n) && AllDuring(k, h, trace, r.since, n)
    ensures RecordTimed(k, h, r, n)
  {
  }

  /** The committed tables are those after all finished calls. */
  lemma WorldNow(k: Provider, m: Machine)
    requires Inv(k, m)
    ensures WorldAt(k, Calls(m.log), |m.log|) == m.world
  {
    hide Undisturbed, FreshRun, Separate;
    assert Calls(m.log)[..|m.log|] == Calls(m.log);
  }

  lemma LookupRan(k: Provider, m: Machine, id: nat, r: Record)
    requires Inv(k, m) && id in m.txns && AfterStatement(k, m, id).local.pc.Done?
    requires var y := AfterStatement(k, m, id);
      r.call == Lock(y.op, y.local.obs) && r.answer == y.local.pc.answer
    ensures Ran(k, Calls(m.log), r, AfterStatement(k, m, id).trace, |m.log|)
  {
    hide Explained, Separate, Advance;
    var x := m.txns[id];
    assert Undisturbed(k, m.world.tables, x);
    WorldNow(k, m);
    ReplaySnoc(k, x.op, m.world.tables, x.trace, m.world.secrets);
  }

  lemma EndRan(k: Provider, m: Machine, id: nat, r: Record)
    requires Inv(k, m) && id in m.txns && m.txns[id].local.pc.Done?
    requires r.call == Lock(m.txns[id].op, m.txns[id].local.obs) && r.answer == m.txns[id].local.pc.answer
    ensures Ran(k, Calls(m.log), r, m.txns[id].trace, |m.log|)
  {
    hide Explained, Separate;
    assert Undisturbed(k, m.world.tables, m.txns[id]);
    WorldNow(k, m);
  }

  lemma EndTimed(k: Provider, m: Machine, id: nat)
    requires Inv(k, m) && Timed(k, m) && Enabled(m, End(id))
    ensures Timed(k, PerformEnd(m, id))
  {
    hide AllDuring, RecordTimed, Ran, Undisturbed, Explained, Separate, Overlay;
    var x := m.txns[id];
    var r := Record(Lock(x.op, x.local.obs), x.local.pc.answer, x.since);
    EndRan(k, m, id, r);
    TimedRecord(k, Calls(m.log), r, x.trace, |m.log|);
    LogTimed(k, m, r, m.txns - {id}, PerformEnd(m, id).world);
  }

  lemma MoveTimed(k: Provider, m: Machine, v: Move)
    requires Inv(k, m) && Timed(k, m) && Enabled(m, v)
    ensures Timed(k, Perform(k, m, v))
  {
    hide RecordTimed, AllDuring, Undisturbed, Explained, Separate, PerformStatement, PerformEnd, Apply, FreshCall;
    match v
    case Begin(_, _) => NothingDuring(k, Calls(m.log), |m.log|);
    case Statement(id) => StatementTimed(k, m, id);
    case End(id) => EndTimed(k, m, id);
    case Abort(_) =>
    case Outside(call) =>
      var r := Record(call, Apply(k, m.world, call).answer, |m.log|);
      OutsideTimed(k, Calls(m.log), r, |m.log|);
      LogTimed(k, m, r, m.txns, Apply(k, m.world, call).world);
  }

  lemma OutsideTimed(k: Provider, h: seq<Call>, r: Record, n: nat)
    requires !r.call.Lock? && r.since <= n
    ensures RecordTimed(k, h, r, n)
  {
  }

  lemma {:induction false} AlwaysTimed(k: Provider, moves: seq<Move>)
    requires Legal(k, moves)
    ensures Timed(k, After(k, moves))
  {
    hide Inv, Timed, Perform, Enabled;
    if moves == [] {
      TimedInitially(k);
    } else {
      var init := moves[..|moves| - 1];
      AlwaysTimed(k, init);
      AlwaysInv(k, init);
      MoveTimed(k, After(k, init), moves[|moves| - 1]);
    }
  }

  lemma TimedInitially(k: Provider)
    ensures Timed(k, IDLE)
  {
  }

  // ---- the theorem ----

  /** Each observation was true of the secret tables at some moment between the call's beginning and its end. */
  ghost predicate Observed(k: Provider, h: seq<Call>, obs: Obs, lo: nat, hi: nat) {
    && (obs.listed.Some? ==> exists s :: CommittedDuring(k, h, s, lo, hi) && ListedIn(obs.listed.value, s))
    && (forall p | p in obs.present :: exists s :: CommittedDuring(k, h, s, lo, hi) && Probe(p, obs.present[p], s))
    && (forall p | p in obs.plain :: exists s :: CommittedDuring(k, h, s, lo, hi) && Read(k, p, obs.plain[p], s))
  }

  lemma MetDuring(k: Provider, h: seq<Call>, obs: Obs, trace: seq<Secrets>, lo: nat, hi: nat)
    requires Met(k, obs, trace) && AllDuring(k, h, trace, lo, hi)
    ensures Observed(k, h, obs, lo, hi)
  {
    hide CommittedDuring, ReadVersion, LivePath, LivePaths, AllDuring;
    forall s | s in trace ensures CommittedDuring(k, h, s, lo, hi) {
      OneDuring(k, h, trace, s, lo, hi);
    }
    if obs.listed.Some? {
      var s :| s in trace && ListedIn(obs.listed.value, s);
      assert CommittedDuring(k, h, s, lo, hi);
    }
    forall p | p in obs.present ensures exists s :: CommittedDuring(k, h, s, lo, hi) && Probe(p, obs.present[p], s) {
      var s :| s in trace && Probe(p, obs.present[p], s);
      assert CommittedDuring(k, h, s, lo, hi);
    }
    forall p | p in obs.plain ensures exists s :: CommittedDuring(k, h, s, lo, hi) && Read(k, p, obs.plain[p], s) {
      var s :| s in trace && Read(k, p, obs.plain[p], s);
      assert CommittedDuring(k, h, s, lo, hi);
    }
  }

  lemma OneDuring(k: Provider, h: seq<Call>, trace: seq<Secrets>, s: Secrets, lo: nat, hi: nat)
    requires AllDuring(k, h, trace, lo, hi) && s in trace
    ensures CommittedDuring(k, h, s, lo, hi)
  {
    var at :| Timeline(k, h, trace, at, lo, hi);
    var x :| 0 <= x < |trace| && trace[x] == s;
    assert WorldAt(k, h, at[x]).secrets == s;
  }

  /** The call is its own statements, each run on the secret tables of a moment between its beginning and its end, in order. */
  ghost predicate RanInOrder(k: Provider, h: seq<Call>, r: Record, i: nat) {
    exists trace :: Ran(k, h, r, trace, i) && AllDuring(k, h, trace, r.since, i)
  }

  /**
   * Whatever transactions are interleaved, statement by statement: the committed tables are those
   * of the atomic run of the finished calls in the order they finished, every answer, failures
   * included, is the atomic answer, and what a call saw of the secrets is what its statements read,
   * in their order, at moments while it was running.
   */
  lemma Serialisable(k: Provider, moves: seq<Move>)
    requires Legal(k, moves)
    ensures var m := After(k, moves);
      var h := Calls(m.log);
      && FreshRun(k, h) && m.world == Run(k, h)
      && forall i | 0 <= i < |h| ::
           && m.log[i].answer == AnswerAt(k, h, i)
           && m.log[i].since <= i
           && (h[i].Lock? ==> RanInOrder(k, h, m.log[i], i) && Observed(k, h, h[i].obs, m.log[i].since, i))
  {
    hide Observed, AllDuring, Ran, Met;
    AlwaysInv(k, moves);
    AlwaysTimed(k, moves);
    var m := After(k, moves);
    var h := Calls(m.log);
    forall i | 0 <= i < |h| && h[i].Lock?
      ensures RanInOrder(k, h, m.log[i], i) && Observed(k, h, h[i].obs, m.log[i].since, i)
    {
      assert RecordTimed(k, h, m.log[i], i);
      var trace :| Ran(k, h, m.log[i], trace, i) && AllDuring(k, h, trace, m.log[i].since, i);
      RanMet(k, h, m.log[i], trace, i);
      MetDuring(k, h, h[i].obs, trace, m.log[i].since, i);
    }
  }

  lemma RanMet(k: Provider, h: seq<Call>, r: Record, trace: seq<Secrets>, i: nat)
    requires Ran(k, h, r, trace, i)
    ensures Met(k, r.call.obs, trace)
  {
    hide Met, Replay;
    ReplayMet(k, r.call.op, WorldAt(k, h, i).tables, trace);
  }

  // ---- when a call began ----

  /** Move b begins this operation, when so many calls have finished. */
  ghost predicate BegunAt(k: Provider, moves: seq<Move>, b: nat, op: Op, since: nat) {
    && b < |moves| && moves[b].Begin? && moves[b].op == op
    && Legal(k, moves[..b]) && |After(k, moves[..b]).log| == since
  }

  lemma BegunEarlier(k: Provider, moves: seq<Move>, b: nat, op: Op, since: nat)
    requires moves != [] && BegunAt(k, moves[..|moves| - 1], b, op, since)
    ensures BegunAt(k, moves, b, op, since)
  {
    assert moves[..|moves| - 1][..b] == moves[..b];
  }

  ghost predicate Beginnings(k: Provider, moves: seq<Move>, m: Machine) {
    && (forall id | id in m.txns :: exists b :: BegunAt(k, moves, b, m.txns[id].op, m.txns[id].since))
    && (forall i | 0 <= i < |m.log| && m.log[i].call.Lock? :: exists b :: BegunAt(k, moves, b, m.log[i].call.op, m.log[i].since))
  }

  /** A move adds the transaction it begins, or logs one that was in flight. */
  lemma MoveKeepsOps(k: Provider, m: Machine, v: Move)
    requires Enabled(m, v)
    ensures var n := Perform(k, m, v);
      && (forall id | id in n.txns ::
            if v.Begin? && id == v.id then n.txns[id].op == v.op && n.txns[id].since == |m.log|
            else id in m.txns && n.txns[id].op == m.txns[id].op && n.txns[id].since == m.txns[id].since)
      && m.log <= n.log && |n.log| <= |m.log| + 1
      && (|n.log| > |m.log| && n.log[|m.log|].call.Lock? ==>
            exists id | id in m.txns :: n.log[|m.log|].call.op == m.txns[id].op && n.log[|m.log|].since == m.txns[id].since)
  {
    hide Advance, Apply, Fresh, FreshCall, Apart, LockFree;
  }

  lemma {:induction false} AlwaysBegun(k: Provider, moves: seq<Move>)
    requires Legal(k, moves)
    ensures Beginnings(k, moves, After(k, moves))
  {
    hide Perform, Enabled, BegunAt;
    if moves != [] {
      var init, v := moves[..|moves| - 1], moves[|moves| - 1];
      var m, n := After(k, init), After(k, moves);
      AlwaysBegun(k, init);
      MoveKeepsOps(k, m, v);
      forall b, op, since | BegunAt(k, init, b, op, since) ensures BegunAt(k, moves, b, op, since) {
        BegunEarlier(k, moves, b, op, since);
      }
      if v.Begin? { BeginsNow(k, moves, v); }
      forall i | 0 <= i < |n.log| && n.log[i].call.Lock? ensures exists b :: BegunAt(k, moves, b, n.log[i].call.op, n.log[i].since) {
        if i < |m.log| { assert n.log[i] == m.log[i]; }
      }
    }
  }

  lemma BeginsNow(k: Provider, moves: seq<Move>, v: Move)
    requires Legal(k, moves) && moves != [] && v == moves[|moves| - 1] && v.Begin?
    ensures BegunAt(k, moves, |moves| - 1, v.op, |After(k, moves[..|moves| - 1]).log|)
  {
    hide Perform, Enabled;
  }

  /** The `since` of a finished call is the number of calls that had finished when it began. */
  lemma SinceItBegan(k: Provider, moves: seq<Move>, i: nat)
    requires Legal(k, moves) && i < |After(k, moves).log| && After(k, moves).log[i].call.Lock?
    ensures var r := After(k, moves).log[i];
      exists b: nat | b < |moves| && Legal(k, moves[..b]) ::
        moves[b].Begin? && moves[b].op == r.call.op && |After(k, moves[..b]).log| == r.since
  {
    hide Legal, After;
    AlwaysBegun(k, moves);
    var r := After(k, moves).log[i];
    var b: nat :| BegunAt(k, moves, b, r.call.op, r.since);
  }
}
