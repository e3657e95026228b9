/**
 * Any number of transactions in flight, interleaved statement by statement under READ COMMITTED:
 * private uncommitted writes, one holder per application row lock, commit or rollback. Every run
 * is explained by applying the finished transactions atomically in the order they finished.
 */
module Interleaving {
  import opened Results
  import opened Envelopes
  import opened Vault
  import opened Database
  import opened Protocol
  import opened Statements
  import opened Sequential
  import opened Locality
  import opened Effects
  import opened Invariants
  import opened History
  import opened Runs

  /** A transaction in flight: the secret tables its statements met, the lock it holds, when it began. */
  datatype Txn = Txn(op: Op, local: Local, trace: seq<Secrets>, held: Option<AppId>, since: nat)

  /** A finished call: what it was, what it answered, and how many calls had finished when it began. */
  datatype Record = Record(call: Call, answer: Answer, since: nat)

  datatype Machine = Machine(world: World, txns: map<nat, Txn>, log: seq<Record>)

  datatype Move =
    | Begin(id: nat, op: Op)
    | Statement(id: nat)
    | End(id: nat)
    | Abort(id: nat)
    | Outside(call: Call)

  const IDLE := Machine(INITIAL, map[], [])

  ghost predicate LockFree(m: Machine, a: AppId) {
    forall id | id in m.txns :: m.txns[id].held != Some(a)
  }

  /** Two calls that drew different random identifiers. */
  ghost predicate Apart(op: Op, other: Op) {
    && (op.AccessOp? && other.AccessOp? ==> op.ids.request != other.ids.request && op.ids.instance != other.ids.instance)
    && (op.ResolveOp? && other.ResolveOp? ==> op.grant != other.grant)
    && (op.ChangeOp? && other.ChangeOp? && op.action.Rotate? && other.action.Rotate? ==> op.newToken != other.newToken)
  }

  ghost predicate Enabled(m: Machine, v: Move) {
    match v
    case Begin(id, op) =>
      && id !in m.txns && Fresh(m.world.tables, op)
      && forall other | other in m.txns :: Apart(op, m.txns[other].op)
    case Statement(id) =>
      && id in m.txns && !m.txns[id].local.pc.Done?
      && (m.txns[id].local.pc.Queued? ==> LockFree(m, m.txns[id].local.pc.app))
    case End(id) => id in m.txns && m.txns[id].local.pc.Done?
    case Abort(id) => id in m.txns
    case Outside(call) =>
      && !call.Lock? && FreshCall(m.world, call)
      && (call.Create? ==> forall id | id in m.txns :: !(m.txns[id].op.ChangeOp? && m.txns[id].op.action.Rotate? && m.txns[id].op.newToken == call.token))
  }

  ghost function Perform(k: Provider, m: Machine, v: Move): Machine
    requires Enabled(m, v)
  {
    match v
    case Begin(id, op) => m.(txns := m.txns[id := Txn(op, BEGUN, [], None, |m.log|)])
    case Statement(id) => PerformStatement(k, m, id)
    case End(id) => PerformEnd(m, id)
    case Abort(id) => m.(txns := m.txns - {id})
    case Outside(call) =>
      var reply := Apply(k, m.world, call);
      m.(world := reply.world, log := m.log + [Record(call, reply.answer, |m.log|)])
  }

  ghost function AfterStatement(k: Provider, m: Machine, id: nat): Txn
    requires id in m.txns
  {
    var x := m.txns[id];
    x.(local := Advance(k, x.op, m.world.tables, m.world.secrets, x.local),
       trace := x.trace + [m.world.secrets],
       held := if x.local.pc.Queued? then Some(x.local.pc.app) else x.held)
  }

  /** A lookup that finds nothing ends its transaction at once. */
  ghost function PerformStatement(k: Provider, m: Machine, id: nat): Machine
    requires id in m.txns
  {
    var x := AfterStatement(k, m, id);
    if m.txns[id].local.pc.Start? && x.local.pc.Done? then
      m.(txns := m.txns - {id}, log := m.log + [Record(Lock(x.op, x.local.obs), x.local.pc.answer, x.since)])
    else m.(txns := m.txns[id := x])
  }

  /** Commit, or roll back after an error; the lock goes with the transaction. */
  ghost function PerformEnd(m: Machine, id: nat): Machine
    requires id in m.txns && m.txns[id].local.pc.Done?
  {
    var x := m.txns[id];
    var answer := x.local.pc.answer;
    Machine(
      if answer.Failed? then m.world else m.world.(tables := Overlay(m.world.tables, x.local.delta)),
      m.txns - {id},
      m.log + [Record(Lock(x.op, x.local.obs), answer, x.since)])
  }

  ghost predicate Legal(k: Provider, moves: seq<Move>)
    decreases |moves|, 0
  {
    moves == [] ||
    (Legal(k, moves[..|moves| - 1]) && Enabled(After(k, moves[..|moves| - 1]), moves[|moves| - 1]))
  }

  ghost function After(k: Provider, moves: seq<Move>): Machine
    requires Legal(k, moves)
    decreases |moves|, 1
  {
    if moves == [] then IDLE else Perform(k, After(k, moves[..|moves| - 1]), moves[|moves| - 1])
  }

  // ---- the invariant ----

  ghost function Calls(log: seq<Record>): seq<Call> {
    seq(|log|, i requires 0 <= i < |log| => log[i].call)
  }

  /** An unfinished transaction is what its statements alone would have made of the committed tables. */
  ghost predicate Undisturbed(k: Provider, c: Tables, x: Txn) {
    && Fresh(c, x.op)
    && x.local == Replay(k, x.op, c, x.trace)
    && (x.local.pc.Start? <==> x.trace == [])
    && (x.trace != [] ==> Prepare(x.op).Ok? && Locate(c, x.op).Ok?)
    && (x.local.pc.Queued? ==> |x.trace| == 1 && x.local.pc.app == Locate(c, x.op).value)
    && (x.held.None? <==> |x.trace| <= 1)
    && (x.held.Some? ==> x.held.value == Locate(c, x.op).value)
    && (|x.trace| == 1 ==> x.local.pc.Queued?)
  }

  ghost predicate Explained(k: Provider, world: World, log: seq<Record>) {
    && FreshRun(k, Calls(log))
    && world == Run(k, Calls(log))
    && forall i | 0 <= i < |log| :: log[i].answer == AnswerAt(k, Calls(log), i)
  }

  ghost predicate Separate(txns: map<nat, Txn>) {
    forall i, j | i in txns && j in txns && i != j ::
      Apart(txns[i].op, txns[j].op) && (txns[i].held.Some? ==> txns[i].held != txns[j].held)
  }

  ghost predicate Inv(k: Provider, m: Machine) {
    && Explained(k, m.world, m.log)
    && (forall id | id in m.txns :: Undisturbed(k, m.world.tables, m.txns[id]))
    && Separate(m.txns)
  }

  // ---- the log grows by one explained call ----

  lemma CallsSnoc(log: seq<Record>, r: Record)
    ensures Calls(log + [r]) == Calls(log) + [r.call]
  {
  }

  lemma ExplainedSnoc(k: Provider, world: World, log: seq<Record>, r: Record)
    requires Explained(k, world, log) && FreshCall(world, r.call)
    requires r.answer == Apply(k, world, r.call).answer
    ensures Explained(k, Apply(k, world, r.call).world, log + [r])
  {
    var h, n := Calls(log), |log|;
    var g := h + [r.call];
    CallsSnoc(log, r);
    assert g[..n] == h;
    forall i | 0 <= i <= n ensures FreshCall(WorldAt(k, g, i), g[i]) && (log + [r])[i].answer == AnswerAt(k, g, i) {
      assert g[..i] == h[..i];
      assert i == n ==> h[..i] == h;
      if i < n { assert FreshCall(WorldAt(k, h, i), h[i]) && log[i].answer == AnswerAt(k, h, i); }
    }
  }

  // ---- other transactions are not disturbed ----

  lemma LocateStable(c: Tables, w: Tables, a: AppId, op: Op)
    requires Private(c, w, a) && Locate(c, op).Ok?
    ensures Locate(Overlay(c, w), op) == Locate(c, op)
  {
  }

  lemma StillUndisturbed(k: Provider, c: Tables, w: Tables, a: AppId, x: Txn)
    requires Undisturbed(k, c, x) && Linked(c) && Private(c, w, a) && x.held != Some(a)
    requires Fresh(Overlay(c, w), x.op)
    ensures Undisturbed(k, Overlay(c, w), x)
  {
    hide Fresh, Private, Overlay, Linked, Locate, Prepare, Replay, Slice;
    var c' := Overlay(c, w);
    SliceOverlay(c, w, a);
    if x.trace != [] {
      var b := Locate(c, x.op).value;
      LocateStable(c, w, a, x.op);
      if x.held.Some? { SliceElsewhere(c, w, a, b); }
      ReplayLocal(k, x.op, c, c', x.trace, b);
    } else {
      ReplayNothing(k, x.op, c);
      ReplayNothing(k, x.op, c');
    }
  }

  lemma ReplayNothing(k: Provider, op: Op, c: Tables)
    ensures Replay(k, op, c, []) == BEGUN
  {
  }

  /** What a transaction inserts are its own random identifiers. */
  lemma AtomicIds(t: Tables, op: Op, obs: Obs, other: Op)
    requires Valid(t) && Fresh(t, op) && Fresh(t, other) && Apart(other, op)
    ensures Fresh(Atomic(t, op, obs).tables, other)
  {
    hide Atomic, Valid, Granted, Gate;
    SoundParts(t);
    if op.ResolveOp? {
      ResolvingClosed(t, op, obs);
    } else if op.ChangeOp? {
      ChangingClosed(t, op, obs);
    } else {
      var passed, a, paths, then_ := GateOrFail(t, op, obs);
      if passed { GatedIds(t, op, obs, a, paths, then_, other); }
    }
  }

  lemma GatedIds(t: Tables, op: Op, obs: Obs, a: AppId, paths: seq<string>, then_: Then, other: Op)
    requires Sound(t) && Fresh(t, op) && Fresh(t, other) && Apart(other, op) && Gate(t, op, obs, a, paths, then_)
    ensures Fresh(AfterGate(t, op, obs, a, paths, then_).tables, other)
  {
    hide Granted, Bundle, InstancesWith, PendingOf, AllReadable, AllPresent, AllAllowed;
    GrantedIsClosed(t, a, paths, op, then_, obs);
  }

  // ---- one move ----

  lemma BeginKeeps(k: Provider, m: Machine, v: Move)
    requires Inv(k, m) && v.Begin? && Enabled(m, v)
    ensures Inv(k, Perform(k, m, v))
  {
    hide Explained, Fresh, Undisturbed, Apart;
    BegunUndisturbed(k, m.world.tables, v.op, |m.log|);
    forall id | id in m.txns ensures Apart(m.txns[id].op, v.op) {
      ApartSymmetric(v.op, m.txns[id].op);
    }
  }

  lemma ApartSymmetric(op: Op, other: Op)
    requires Apart(op, other)
    ensures Apart(other, op)
  {
  }

  lemma BegunUndisturbed(k: Provider, c: Tables, op: Op, since: nat)
    requires Fresh(c, op)
    ensures Undisturbed(k, c, Txn(op, BEGUN, [], None, since))
  {
    hide Fresh, Locate, Prepare;
    ReplayNothing(k, op, c);
  }

  lemma AbortKeeps(k: Provider, m: Machine, v: Move)
    requires Inv(k, m) && v.Abort? && Enabled(m, v)
    ensures Inv(k, Perform(k, m, v))
  {
    hide Explained, Undisturbed, Apart;
  }

  lemma ReplaySnoc(k: Provider, op: Op, c: Tables, trace: seq<Secrets>, s: Secrets)
    ensures Replay(k, op, c, trace + [s]) == Advance(k, op, c, s, Replay(k, op, c, trace))
  {
    assert (trace + [s])[..|trace|] == trace;
  }

  lemma LookupResult(k: Provider, op: Op, c: Tables, s: Secrets, l: Local)
    requires l == Advance(k, op, c, s, BEGUN)
    ensures l.pc.Queued? || l.pc.Done?
    ensures l.pc.Queued? ==> Prepare(op).Ok? && Locate(c, op) == Ok(l.pc.app)
    ensures l.pc.Done? ==> (forall obs :: Apply(k, World(c, s), Lock(op, obs)) == Reply(World(c, s), l.pc.answer))
  {
    OverlayNothing(c);
    OverlayNothing(EMPTY);
  }

  lemma NeverRequeued(k: Provider, op: Op, pc: Statements.Pc, v: Tables, s: Secrets, obs: Obs)
    requires !pc.Start?
    ensures !Exec(k, op, pc, v, s, obs).pc.Queued? && !Exec(k, op, pc, v, s, obs).pc.Start?
  {
    if (op.AccessOp? || op.PollOp?) && !pc.Queued? { NeverRequeuedAccess(k, op, pc, v, s, obs); }
  }

  lemma NeverRequeuedAccess(k: Provider, op: Op, pc: Statements.Pc, v: Tables, s: Secrets, obs: Obs)
    requires !pc.Start? && !pc.Queued? && (op.AccessOp? || op.PollOp?)
    ensures !ExecAccess(k, op, pc, v, s, obs).pc.Queued? && !ExecAccess(k, op, pc, v, s, obs).pc.Start?
  {
  }

  lemma StatementUndisturbed(k: Provider, m: Machine, id: nat)
    requires Inv(k, m) && Enabled(m, Statement(id))
    ensures var x := AfterStatement(k, m, id);
      if m.txns[id].local.pc.Start? && x.local.pc.Done? then
        && FreshCall(m.world, Lock(x.op, x.local.obs))
        && Apply(k, m.world, Lock(x.op, x.local.obs)) == Reply(m.world, x.local.pc.answer)
      else Undisturbed(k, m.world.tables, x)
  {
    hide Explained, Separate, Replay, Exec, Fresh, Locate, Prepare, Apply;
    var old_ := m.txns[id];
    assert Undisturbed(k, m.world.tables, old_);
    ReplaySnoc(k, old_.op, m.world.tables, old_.trace, m.world.secrets);
    if old_.trace == [] {
      ReplayNothing(k, old_.op, m.world.tables);
      LookupResult(k, old_.op, m.world.tables, m.world.secrets, AfterStatement(k, m, id).local);
    } else {
      NeverRequeued(k, old_.op, old_.local.pc, Overlay(m.world.tables, old_.local.delta), m.world.secrets, old_.local.obs);
    }
  }

  lemma StatementKeeps(k: Provider, m: Machine, v: Move)
    requires Inv(k, m) && v.Statement? && Enabled(m, v)
    ensures Inv(k, Perform(k, m, v))
  {
    hide Undisturbed, AfterStatement, Apart, Apply, Explained;
    var x := AfterStatement(k, m, v.id);
    StatementUndisturbed(k, m, v.id);
    StatementFields(k, m, v.id);
    if m.txns[v.id].local.pc.Start? && x.local.pc.Done? {
      ExplainedSnoc(k, m.world, m.log, Record(Lock(x.op, x.local.obs), x.local.pc.answer, x.since));
    }
  }

  lemma StatementFields(k: Provider, m: Machine, id: nat)
    requires id in m.txns
    ensures var x := AfterStatement(k, m, id);
      && x.op == m.txns[id].op && x.since == m.txns[id].since
      && x.held == if m.txns[id].local.pc.Queued? then Some(m.txns[id].local.pc.app) else m.txns[id].held
  {
  }

  /** A finished transaction is its atomic self over the tables it is committed into. */
  lemma EndIsAtomic(k: Provider, m: Machine, id: nat)
    requires Inv(k, m) && Enabled(m, End(id))
    ensures var x := m.txns[id];
      var call := Lock(x.op, x.local.obs);
      && FreshCall(m.world, call)
      && Apply(k, m.world, call) == Reply(PerformEnd(m, id).world, x.local.pc.answer)
      && x.held.Some? && Private(m.world.tables, x.local.delta, x.held.value)
      && (!x.local.pc.answer.Failed? ==> Atomic(m.world.tables, x.op, x.local.obs).tables == Overlay(m.world.tables, x.local.delta))
  {
    hide Replay, Atomic, Valid, Fresh, Locate, Prepare, Overlay, Separate;
    var x := m.txns[id];
    var c := m.world.tables;
    assert Undisturbed(k, c, x);
    RunValid(k, Calls(m.log));
    SoundParts(c);
    SoundStored(c);
    ReplayNothing(k, x.op, c);
    ReplayIsAtomic(k, x.op, c, x.trace);
    ReplayConfined(k, x.op, c, x.trace, Locate(c, x.op).value);
  }

  lemma SoundStored(t: Tables)
    requires Sound(t)
    ensures StoredSorted(t)
  {
  }

  lemma OthersAfterEnd(k: Provider, m: Machine, id: nat, other: nat)
    requires Inv(k, m) && Enabled(m, End(id)) && other in m.txns && other != id
    ensures Undisturbed(k, PerformEnd(m, id).world.tables, m.txns[other])
  {
    hide Atomic, Valid, Fresh, Locate, Prepare, Overlay, Private, Apply;
    var x, y := m.txns[id], m.txns[other];
    var c := m.world.tables;
    assert Undisturbed(k, c, x) && Undisturbed(k, c, y);
    assert Apart(y.op, x.op);
    EndIsAtomic(k, m, id);
    if !x.local.pc.answer.Failed? {
      RunValid(k, Calls(m.log));
      SoundParts(c);
      AtomicIds(c, x.op, x.local.obs, y.op);
      StillUndisturbed(k, c, x.local.delta, x.held.value, y);
    }
  }

  lemma EndKeeps(k: Provider, m: Machine, v: Move)
    requires Inv(k, m) && v.End? && Enabled(m, v)
    ensures Inv(k, Perform(k, m, v))
  {
    hide Undisturbed, Apart, Apply, Explained, FreshCall, Overlay;
    var x := m.txns[v.id];
    EndIsAtomic(k, m, v.id);
    ExplainedSnoc(k, m.world, m.log, Record(Lock(x.op, x.local.obs), x.local.pc.answer, x.since));
    forall other | other in m.txns && other != v.id ensures Undisturbed(k, PerformEnd(m, v.id).world.tables, m.txns[other]) {
      OthersAfterEnd(k, m, v.id, other);
    }
  }

  lemma OthersAfterOutside(k: Provider, m: Machine, call: Call, id: nat)
    requires Inv(k, m) && Enabled(m, Outside(call)) && id in m.txns
    ensures Undisturbed(k, Apply(k, m.world, call).world.tables, m.txns[id])
  {
    hide Explained, Separate, Replay, Valid, Private, Linked;
    var x := m.txns[id];
    var c := m.world.tables;
    assert Undisturbed(k, c, x);
    LinkedNow(k, m);
    if call.Create? {
      if !Creating(m.world, call).answer.Failed? {
        FreshApp(k, m, call, x);
        CreatePrivate(c, call);
        StillUndisturbed(k, c, Registration(call), call.app, x);
      }
    } else {
      var events := SecretCallsLog(k, m.world, call);
      var elsewhere := AppId(if x.held.Some? then x.held.value.serial + 1 else 0);
      LogPrivate(c, events, elsewhere);
      StillUndisturbed(k, c, Logged(events), elsewhere, x);
    }
  }

  lemma LinkedNow(k: Provider, m: Machine)
    requires Inv(k, m)
    ensures Valid(m.world.tables) && Linked(m.world.tables)
  {
    RunValid(k, Calls(m.log));
  }

  lemma LogPrivate(c: Tables, events: seq<Event>, a: AppId)
    ensures Private(c, Logged(events), a)
    ensures forall op :: Fresh(c, op) ==> Fresh(Overlay(c, Logged(events)), op)
  {
  }

  lemma FreshApp(k: Provider, m: Machine, call: Call, x: Txn)
    requires Inv(k, m) && Enabled(m, Outside(call)) && call.Create? && Undisturbed(k, m.world.tables, x)
    requires !(x.op.ChangeOp? && x.op.action.Rotate? && x.op.newToken == call.token)
    ensures x.held != Some(call.app)
    ensures Fresh(Overlay(m.world.tables, Registration(call)), x.op)
  {
    hide Replay, Explained, Separate;
    LinkedNow(k, m);
  }

  lemma OutsideKeeps(k: Provider, m: Machine, v: Move)
    requires Inv(k, m) && v.Outside? && Enabled(m, v)
    ensures Inv(k, Perform(k, m, v))
  {
    hide Undisturbed, Apply, FreshCall, Explained, Separate;
    ExplainedSnoc(k, m.world, m.log, Record(v.call, Apply(k, m.world, v.call).answer, |m.log|));
    forall id | id in m.txns ensures Undisturbed(k, Apply(k, m.world, v.call).world.tables, m.txns[id]) {
      OthersAfterOutside(k, m, v.call, id);
    }
  }

  lemma MoveKeeps(k: Provider, m: Machine, v: Move)
    requires Inv(k, m) && Enabled(m, v)
    ensures Inv(k, Perform(k, m, v))
  {
    match v
    case Begin(_, _) => BeginKeeps(k, m, v);
    case Statement(_) => StatementKeeps(k, m, v);
    case End(_) => EndKeeps(k, m, v);
    case Abort(_) => AbortKeeps(k, m, v);
    case Outside(_) => OutsideKeeps(k, m, v);
  }

  lemma {:induction false} AlwaysInv(k: Provider, moves: seq<Move>)
    requires Legal(k, moves)
    ensures Inv(k, After(k, moves))
  {
    hide Inv, Perform, Enabled;
    if moves == [] {
      InvInitially(k);
    } else {
      AlwaysInv(k, moves[..|moves| - 1]);
      MoveKeeps(k, After(k, moves[..|moves| - 1]), moves[|moves| - 1]);
    }
  }

  lemma InvInitially(k: Provider)
    ensures Inv(k, IDLE)
  {
  }
}
