/**
 * A transaction that nothing disturbs: it comes to its end, and leaves and answers what the atomic
 * call does on the secrets as they stand (access.go, store.go).
 */
module Completion {
  import opened Results
  import opened Envelopes
  import opened Vault
  import opened Database
  import opened Protocol
  import opened Statements
  import opened Sequential
  import opened Invariants
  import opened History
  import opened Interleaving
  import Serialisability
  import opened Text
  import opened Paths

  // ---- every statement goes forward ----

  /** How many kinds of statement may still follow this one. */
  function Stage(pc: Pc): nat {
    match pc
    case Start => 12
    case Queued(_) => 11
    case Rechecking(_, _) => 10
    case Deciding(_) => 10
    case Retiring(_) => 10
    case Listing(_, _) => 9
    case Finding(_, _) => 9
    case Issuing(_) => 9
    case Editing(_) => 9
    case Granting(_) => 9
    case Recording(_) => 8
    case Probing(_, _, _, _) => 8
    case WithdrawingGrants(_) => 8
    case Expiring(_, _, _) => 7
    case CancellingRequests(_) => 7
    case Searching(_, _, _) => 6
    case Logging(_) => 6
    case Reading(_, _, _, _) => 5
    case Noting(_, _, _, _) => 5
    case Asking(_, _) => 5
    case Announcing(_, _, _) => 4
    case Joining(_, _, _) => 3
    case Comparing(_, _, _, _) => 2
    case Done(_) => 1
  }

  /** How many statements of this kind may still follow. */
  function Left(pc: Pc): nat {
    match pc
    case Probing(_, paths, i, _) => if i <= |paths| then |paths| - i else 0
    case Reading(_, paths, i, _) => if i <= |paths| then 2 * (|paths| - i) + 1 else 0
    case Noting(_, paths, i, _) => if i <= |paths| then 2 * (|paths| - i) else 0
    case _ => 0
  }

  predicate Before(next: Pc, pc: Pc) {
    Stage(next) < Stage(pc) || (Stage(next) == Stage(pc) && Left(next) < Left(pc))
  }

  lemma Forward(k: Provider, op: Op, c: Tables, s: Secrets, l: Local)
    requires Shape(op, c, l) && !l.pc.Done?
    ensures Before(Advance(k, op, c, s, l).pc, l.pc)
  {
    hide ExecAccess, Overlay, Locate, Prepare, ValidApplication, HasActiveGrant, Decide, Distinct, Elements;
    if (op.AccessOp? || op.PollOp?) && !l.pc.Start? && !l.pc.Queued? {
      ForwardAccess(k, op, Overlay(c, l.delta), s, l);
    }
  }

  lemma ForwardAccess(k: Provider, op: Op, view: Tables, s: Secrets, l: Local)
    requires (op.AccessOp? || op.PollOp?) && ShapeOfAccess(op, l)
    ensures Before(ExecAccess(k, op, l.pc, view, s, l.obs).pc, l.pc)
  {
    hide ReadVersion, LivePath, LivePaths, Assigned, Ordered, AllAllowed, Normalize, HandleOf, TokenLive, PendingOf,
      InstancesWith, HasCurrentGrant, ExpireGrants, Printed, Distinct, ExecProbing, ExecReading, ExecNoting;
    if l.pc.Probing? || l.pc.Reading? || l.pc.Noting? {
      ForwardReading(k, op, view, s, l);
    }
  }

  lemma ForwardReading(k: Provider, op: Op, view: Tables, s: Secrets, l: Local)
    requires (op.AccessOp? || op.PollOp?) && ShapeOfAccess(op, l) && (l.pc.Probing? || l.pc.Reading? || l.pc.Noting?)
    ensures Before(ExecAccess(k, op, l.pc, view, s, l.obs).pc, l.pc)
  {
    hide ReadVersion, LivePath, Distinct, ExecAsking, ExecJoining, ExecComparing, ExecSearching, ExecListing, ExecFinding,
      ExecRechecking, Overlay;
  }

  // ---- alone, the statements end ----

  /** The secret tables stand still while `n` statements run. */
  function Still(s: Secrets, n: nat): seq<Secrets> {
    seq(n, _ => s)
  }

  lemma StillLonger(s: Secrets, n: nat)
    ensures Still(s, n) + [s] == Still(s, n + 1)
  {
  }

  /** What one more statement over still tables does: the transaction stays undisturbed and goes forward. */
  lemma OneStatement(k: Provider, op: Op, c: Tables, s: Secrets, n: nat)
    requires StoredSorted(c) && !Replay(k, op, c, Still(s, n)).pc.Done?
    ensures Replay(k, op, c, Still(s, n + 1)) == Advance(k, op, c, s, Replay(k, op, c, Still(s, n)))
    ensures Before(Replay(k, op, c, Still(s, n + 1)).pc, Replay(k, op, c, Still(s, n)).pc)
  {
    hide Advance, Shape, Before, Replay;
    StillLonger(s, n);
    ReplaySnoc(k, op, c, Still(s, n), s);
    ReplayRest(k, op, c, Still(s, n), UNSEEN);
    Forward(k, op, c, s, Replay(k, op, c, Still(s, n)));
  }

  // ---- and what they answer ----

  /** Two sets of observations that tell a transaction the same. */
  ghost predicate SameSight(x: Obs, y: Obs) {
    && (if x.listed.Some? then x.listed.value else {}) == (if y.listed.Some? then y.listed.value else {})
    && forall p :: (Present(x, p) <==> Present(y, p)) && ReadOf(x, p) == ReadOf(y, p)
  }

  lemma {:induction false} DeliveringSame(t0: Tables, t: Tables, a: AppId, paths: seq<string>, i: nat,
      out: map<string, Values>, x: Obs, y: Obs)
    requires SameSight(x, y)
    ensures Delivering(t0, t, a, paths, i, out, x) == Delivering(t0, t, a, paths, i, out, y)
    decreases |paths| - i
  {
    hide Overlay, ReadOf, Present;
    if i < |paths| && ReadOf(x, paths[i]).Ok? {
      DeliveringSame(t0, Overlay(t, Logged([ReadEvent(a, paths[i])])), a, paths, i + 1, out[paths[i] := ReadOf(x, paths[i]).value], x, y);
    }
  }

  lemma CheckedSame(t: Tables, a: AppId, row: Application, paths: seq<string>, op: Op, then_: Then, x: Obs, y: Obs)
    requires Fits(op, then_) && SameSight(x, y)
    ensures Checked(t, a, row, paths, op, then_, x) == Checked(t, a, row, paths, op, then_, y)
  {
    hide Overlay, ReadOf, Present, Delivering, HasCurrentGrant, ExpireGrants, Allowed, Asked;
    DeliveringSame(t, Overlay(t, Grants(ExpireGrants(t, a, op.now))), a, paths, 0, map[], x, y);
  }

  lemma AtomicSame(t: Tables, op: Op, x: Obs, y: Obs)
    requires SameSight(x, y)
    ensures Atomic(t, op, x) == Atomic(t, op, y)
  {
    hide Checked, Resolving, Changing, Present, ReadOf, Assigned, Ordered, Prepare;
    forall a, row, paths, then_ | Fits(op, then_)
      ensures Checked(t, a, row, paths, op, then_, x) == Checked(t, a, row, paths, op, then_, y)
    {
      CheckedSame(t, a, row, paths, op, then_, x, y);
    }
  }

  /** Over still tables the finished statements have answered what the atomic call does. */
  lemma AnswersAlone(k: Provider, op: Op, c: Tables, s: Secrets, n: nat)
    requires StoredSorted(c) && Replay(k, op, c, Still(s, n)).pc.Done?
    ensures var l := Replay(k, op, c, Still(s, n));
      Atomic(c, op, ObsOf(k, s)) == Outcome(if l.pc.answer.Failed? then c else Overlay(c, l.delta), l.pc.answer)
  {
    hide Replay, Atomic, Shape, ReadVersion, LivePaths, Overlay;
    var l := Replay(k, op, c, Still(s, n));
    var all := ObsOf(k, s);
    Serialisability.ReplayMet(k, op, c, Still(s, n));
    var full := Obs(all.listed, l.obs.present + all.present, l.obs.plain + all.plain);
    StillMet(k, s, n, l.obs);
    FullSight(k, s, l.obs);
    AtomicSame(c, op, full, all);
    ReplayRest(k, op, c, Still(s, n), full);
  }

  lemma FullSight(k: Provider, s: Secrets, obs: Obs)
    requires obs.listed.Some? ==> obs.listed.value == LivePaths(s)
    requires forall p | p in obs.present :: obs.present[p] == LivePath(s, p)
    requires forall p | p in obs.plain :: obs.plain[p] == ReadVersion(k, s, p, 0)
    ensures var all := ObsOf(k, s);
      var full := Obs(all.listed, obs.present + all.present, obs.plain + all.plain);
      SameSight(full, all) && Extends(full, obs)
  {
    hide ReadVersion, LivePaths;
    forall p | p !in s ensures ReadVersion(k, s, p, 0) == Err(NotFound) && !LivePath(s, p) {
      NothingThere(k, s, p);
    }
  }

  lemma NothingThere(k: Provider, s: Secrets, p: string)
    requires p !in s
    ensures ReadVersion(k, s, p, 0) == Err(NotFound)
  {
  }

  lemma StillMet(k: Provider, s: Secrets, n: nat, obs: Obs)
    requires Serialisability.Met(k, obs, Still(s, n))
    ensures obs.listed.Some? ==> obs.listed.value == LivePaths(s)
    ensures forall p | p in obs.present :: obs.present[p] == LivePath(s, p)
    ensures forall p | p in obs.plain :: obs.plain[p] == ReadVersion(k, s, p, 0)
  {
    hide ReadVersion, LivePaths, LivePath;
  }

  // ---- in the machine ----

  lemma NextMove(k: Provider, moves: seq<Move>, v: Move)
    requires Legal(k, moves) && Enabled(After(k, moves), v)
    ensures Legal(k, moves + [v]) && After(k, moves + [v]) == Perform(k, After(k, moves), v)
  {
    hide Enabled, Perform;
    assert (moves + [v])[..|moves|] == moves;
  }

  /** The transaction that runs alone from `m`, after n of its statements. */
  ghost predicate Alone(k: Provider, m: Machine, op: Op, x: Txn, n: nat) {
    && x.op == op && x.since == |m.log| && x.trace == Still(m.world.secrets, n)
    && x.local == Replay(k, op, m.world.tables, Still(m.world.secrets, n))
  }

  /** The lock its application will ask for is free. */
  ghost predicate LockReady(m: Machine, op: Op) {
    Prepare(op).Ok? && Locate(m.world.tables, op).Ok? ==> LockFree(m, Locate(m.world.tables, op).value)
  }

  lemma StatementEnabled(k: Provider, m: Machine, id: nat, op: Op, x: Txn, n: nat)
    requires id !in m.txns && LockReady(m, op) && Alone(k, m, op, x, n) && !x.local.pc.Done?
    requires Inv(k, m.(txns := m.txns[id := x]))
    ensures Enabled(m.(txns := m.txns[id := x]), Statement(id))
  {
    hide Explained, Separate, Replay, Locate, Prepare, Fresh;
    var u := m.(txns := m.txns[id := x]);
    assert Undisturbed(k, u.world.tables, u.txns[id]);
  }

  lemma StatementMakes(k: Provider, m: Machine, id: nat, op: Op, x: Txn, n: nat) returns (y: Txn)
    requires id !in m.txns && Alone(k, m, op, x, n) && StoredSorted(m.world.tables) && !x.local.pc.Done?
    ensures Alone(k, m, op, y, n + 1) && Before(y.local.pc, x.local.pc)
    ensures var u := m.(txns := m.txns[id := x]);
      PerformStatement(k, u, id)
      == if x.local.pc.Start? && y.local.pc.Done?
         then m.(log := m.log + [Record(Lock(op, y.local.obs), y.local.pc.answer, |m.log|)])
         else m.(txns := m.txns[id := y])
  {
    hide Advance, Replay, Before;
    var u := m.(txns := m.txns[id := x]);
    y := AfterStatement(k, u, id);
    StillLonger(m.world.secrets, n);
    OneStatement(k, op, m.world.tables, m.world.secrets, n);
    assert u.txns - {id} == m.txns;
    assert u.txns[id := y] == m.txns[id := y];
  }

  /** The machine once the call has finished. */
  ghost predicate Completed(k: Provider, m: Machine, op: Op, n: Machine) {
    var o := Atomic(m.world.tables, op, ObsOf(k, m.world.secrets));
    && n.world == World(o.tables, m.world.secrets) && n.txns == m.txns
    && exists obs :: n.log == m.log + [Record(Lock(op, obs), o.answer, |m.log|)]
  }

  lemma EndMakes(k: Provider, m: Machine, id: nat, op: Op, x: Txn, n: nat)
    requires id !in m.txns && Alone(k, m, op, x, n) && StoredSorted(m.world.tables) && x.local.pc.Done?
    ensures Completed(k, m, op, PerformEnd(m.(txns := m.txns[id := x]), id))
  {
    hide Atomic, Replay, ObsOf, Overlay;
    var u := m.(txns := m.txns[id := x]);
    AnswersAlone(k, op, m.world.tables, m.world.secrets, n);
    assert u.txns - {id} == m.txns;
    assert PerformEnd(u, id).log == m.log + [Record(Lock(op, x.local.obs), x.local.pc.answer, |m.log|)];
  }

  lemma LookupMakes(k: Provider, m: Machine, op: Op, y: Txn, n: nat)
    requires Alone(k, m, op, y, n) && StoredSorted(m.world.tables) && y.local.pc.Done? && n == 1
    ensures Completed(k, m, op, m.(log := m.log + [Record(Lock(op, y.local.obs), y.local.pc.answer, |m.log|)]))
  {
    hide Atomic, ObsOf, Advance, Replay;
    AnswersAlone(k, op, m.world.tables, m.world.secrets, n);
    ReplayNothing(k, op, m.world.tables);
    assert Still(m.world.secrets, 1) == Still(m.world.secrets, 0) + [m.world.secrets];
    assert Still(m.world.secrets, 0) == [];
    ReplaySnoc(k, op, m.world.tables, [], m.world.secrets);
    LookupResult(k, op, m.world.tables, m.world.secrets, y.local);
    assert Apply(k, World(m.world.tables, m.world.secrets), Lock(op, ObsOf(k, m.world.secrets)))
      == Reply(World(m.world.tables, m.world.secrets), y.local.pc.answer);
  }

  lemma SortedNow(k: Provider, m: Machine)
    requires Inv(k, m)
    ensures StoredSorted(m.world.tables)
  {
    hide Undisturbed, Separate;
    LinkedNow(k, m);
    SoundParts(m.world.tables);
    SoundStored(m.world.tables);
  }

  lemma BegunAlone(k: Provider, m: Machine, op: Op, x: Txn)
    requires x == Txn(op, BEGUN, [], None, |m.log|)
    ensures Alone(k, m, op, x, 0)
  {
    ReplayNothing(k, op, m.world.tables);
    assert Still(m.world.secrets, 0) == [];
  }

  /** Only a transaction that has run nothing is at its start. */
  lemma StartsFirst(k: Provider, m: Machine, id: nat, op: Op, x: Txn, n: nat)
    requires Alone(k, m, op, x, n) && x.local.pc.Start? && Inv(k, m.(txns := m.txns[id := x]))
    ensures n == 0
  {
    hide Explained, Separate, Replay, Fresh;
    var u := m.(txns := m.txns[id := x]);
    assert Undisturbed(k, u.world.tables, u.txns[id]);
  }

  lemma ForwardMeans(next: Pc, pc: Pc)
    requires Before(next, pc)
    ensures Stage(next) < Stage(pc) || (Stage(next) == Stage(pc) && Left(next) < Left(pc))
  {
  }

  /**
   * From any reachable state in which the application's lock is free, a call run by itself comes to
   * its end: it is logged with the answer of the atomic call on the secrets as they stand, its rows
   * are committed exactly if it did not fail, and nobody else's transaction has moved.
   */
  lemma CompletesAlone(k: Provider, moves: seq<Move>, id: nat, op: Op) returns (more: seq<Move>)
    requires Legal(k, moves) && Enabled(After(k, moves), Begin(id, op)) && LockReady(After(k, moves), op)
    ensures moves <= more && Legal(k, more)
    ensures forall i | |moves| <= i < |more| :: more[i] in {Begin(id, op), Statement(id), End(id)}
    ensures var m, n := After(k, moves), After(k, more);
      var o := Atomic(m.world.tables, op, ObsOf(k, m.world.secrets));
      && n.world == World(o.tables, m.world.secrets) && n.txns == m.txns
      && exists obs :: n.log == m.log + [Record(Lock(op, obs), o.answer, |m.log|)]
  {
    hide Legal, After, Inv, Alone, Before, Atomic, ObsOf, PerformStatement, PerformEnd, LockReady, Fresh, Apart, StoredSorted;
    var m := After(k, moves);
    AlwaysInv(k, moves);
    SortedNow(k, m);
    NextMove(k, moves, Begin(id, op));
    more := moves + [Begin(id, op)];
    var x := Txn(op, BEGUN, [], None, |m.log|);
    var n := 0;
    BegunAlone(k, m, op, x);
    while !x.local.pc.Done?
      invariant Legal(k, more) && moves <= more && Alone(k, m, op, x, n)
      invariant forall i | |moves| <= i < |more| :: more[i] in {Begin(id, op), Statement(id), End(id)}
      invariant After(k, more) == m.(txns := m.txns[id := x])
      decreases Stage(x.local.pc), Left(x.local.pc)
    {
      AlwaysInv(k, more);
      StatementEnabled(k, m, id, op, x, n);
      NextMove(k, more, Statement(id));
      var y := StatementMakes(k, m, id, op, x, n);
      more := more + [Statement(id)];
      n := n + 1;
      if x.local.pc.Start? && y.local.pc.Done? {
        StartsFirst(k, m, id, op, x, n - 1);
        LookupMakes(k, m, op, y, n);
        return;
      }
      ForwardMeans(y.local.pc, x.local.pc);
      x := y;
    }
    NextMove(k, more, End(id));
    more := more + [End(id)];
    EndMakes(k, m, id, op, x, n);
  }

  /** A transaction that is given up, at whatever statement, leaves nothing behind: no row, no lock, no log entry. */
  lemma AbortLeavesNothing(k: Provider, moves: seq<Move>, id: nat)
    requires Legal(k, moves) && id in After(k, moves).txns
    ensures var m := After(k, moves);
      Legal(k, moves + [Abort(id)]) && After(k, moves + [Abort(id)]) == Machine(m.world, m.txns - {id}, m.log)
  {
    hide Legal, After;
    NextMove(k, moves, Abort(id));
  }
}
