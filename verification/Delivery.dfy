/**
 * What a delivery holds: exactly the requested paths, each with its latest plaintext, and nothing
 * that could still fail once the checks are passed and a grant is there.
 */
module Delivery {
  import opened Results
  import opened Envelopes
  import opened Vault
  import opened Database
  import opened Protocol
  import opened Statements
  import opened Effects
  import opened Invariants
  import opened History
  import opened Runs
  import opened Deeds
  import opened Interleaving
  import Sequential
  import opened Serialisability
  import opened Text
  import opened Paths

  // ---- while the secret tables stand still ----

  function Latest(m: Plain, paths: seq<string>): map<string, Values>
    requires forall p | p in paths :: p in m && m[p].history != []
  {
    map p | p in paths :: m[p].history[|m[p].history| - 1]
  }

  ghost predicate Stored(m: Plain, paths: seq<string>) {
    forall p | p in paths :: p in m && m[p].history != []
  }

  lemma PresentStored(k: Provider, s: Secrets, m: Plain, paths: seq<string>)
    requires Represents(k, s, m) && AllPresent(ObsOf(k, s), paths, 0)
    ensures Stored(m, paths)
    ensures AllReadable(ObsOf(k, s), paths) && Bundle(ObsOf(k, s), paths) == Latest(m, paths)
  {
    hide ReadVersion;
    var obs := ObsOf(k, s);
    forall p | p in paths ensures p in m && m[p].history != [] && ReadOf(obs, p) == Ok(m[p].history[|m[p].history| - 1]) {
      var i :| 0 <= i < |paths| && paths[i] == p;
      assert Present(obs, paths[i]);
      RepresentsKeys(k, s, m, p);
      ReadRefines(k, s, m, p, 0);
      assert RowRepresents(k, p, s[p], m[p]);
    }
  }

  /** What a request past the checks is told when it is not served. */
  ghost predicate Deferred(op: Op, then_: Then, answer: Answer)
    requires Fits(op, then_)
  {
    match then_
    case NewAccess => (answer.Waiting? && answer.retryAfter == RETRY_AFTER) || answer == Failed(Conflict)
    case Report(approval, status) => op.PollOp? && IdleReport(approval, status, op.handle, answer)
  }

  lemma JoinDeferred(t: Tables, a: AppId, paths: seq<string>, op: Op)
    requires op.AccessOp?
    ensures Deferred(op, NewAccess, JoinClosed(t, a, paths, op).answer)
  {
  }

  /**
   * A request past the checks is served exactly when its application has an active grant (and, for
   * a poll, its request is an approved one), and then with exactly its paths and their latest values.
   */
  lemma DeliversExactly(k: Provider, s: Secrets, m: Plain, t: Tables, op: Op, a: AppId, paths: seq<string>, then_: Then)
    requires Valid(t) && Fresh(t, op) && Represents(k, s, m)
    requires Gate(t, op, ObsOf(k, s), a, paths, then_)
    ensures Stored(m, paths)
    ensures var o := Atomic(t, op, ObsOf(k, s));
      if ActiveOf(t, a) != {} && (then_.NewAccess? || then_.status == Approved)
      then o == Outcome(Overlay(t, Logged(ReadEvents(a, paths))), Delivered(Latest(m, paths)))
      else Deferred(op, then_, o.answer)
  {
    hide Valid, Gate, Granted, Fresh, Represents, AllPresent, Latest, JoinClosed, Atomic, ObsOf;
    var obs := ObsOf(k, s);
    GateParts(t, op, obs, a, paths, then_);
    PresentStored(k, s, m, paths);
    var passed, b, ps, th := GateOrFail(t, op, obs);
    if passed { GateUnique(t, op, obs, a, paths, then_, b, ps, th); }
    SoundParts(t);
    GrantedIsClosed(t, a, paths, op, then_, obs);
    if op.AccessOp? { JoinDeferred(t, a, paths, op); }
  }

  /** A secret leaves the store in no other way. */
  lemma DeliveredOnlySo(k: Provider, s: Secrets, m: Plain, t: Tables, op: Op)
    requires Valid(t) && Fresh(t, op) && Represents(k, s, m) && (op.AccessOp? || op.PollOp?)
    ensures Atomic(t, op, ObsOf(k, s)).answer.Delivered? <==>
            exists a, paths, then_ :: Gate(t, op, ObsOf(k, s), a, paths, then_)
              && ActiveOf(t, a) != {} && (then_.NewAccess? || then_.status == Approved)
  {
    hide Valid, Gate, Fresh, Represents, Atomic, ObsOf, ActiveOf, Deferred;
    var obs := ObsOf(k, s);
    var passed, b, ps, th := GateOrFail(t, op, obs);
    if passed {
      GateParts(t, op, obs, b, ps, th);
      DeliversExactly(k, s, m, t, op, b, ps, th);
      DeferredNothing(op, th, Atomic(t, op, obs).answer);
      forall a, paths, then_ | Gate(t, op, obs, a, paths, then_) ensures a == b && then_ == th {
        GateUnique(t, op, obs, a, paths, then_, b, ps, th);
      }
    }
  }

  lemma DeferredNothing(op: Op, then_: Then, answer: Answer)
    requires Fits(op, then_)
    ensures Deferred(op, then_, answer) ==> !answer.Delivered?
  {
  }

  lemma GateParts(t: Tables, op: Op, obs: Obs, a: AppId, paths: seq<string>, then_: Then)
    requires Gate(t, op, obs, a, paths, then_)
    ensures AllPresent(obs, paths, 0) && (op.AccessOp? || op.PollOp?) && Fits(op, then_)
  {
  }

  /** An access is never told that its approval is denied or revoked; only polls are. */
  lemma AccessNeverCloses(k: Provider, h: seq<Call>, i: nat)
    requires FreshRun(k, h) && i < |h| && h[i].Lock? && h[i].op.AccessOp?
    ensures var answer := AnswerAt(k, h, i);
      answer.Delivered? || answer.Failed? || (answer.Waiting? && answer.retryAfter == RETRY_AFTER)
  {
    hide Apply, Valid, Gate, AllReadable, Requestable, JoinWrites, Overlay, Bundle, JoinClosed, ActiveOf;
    ValidAt(k, h, i);
    var d := WhatHappened(k, WorldAt(k, h, i), h[i]);
  }

  // ---- while other transactions run ----

  /** The paths a transaction in flight has found present. */
  function Known(pc: Pc): seq<string> {
    match pc
    case Probing(_, paths, i, _) => if i <= |paths| then paths[..i] else paths
    case Expiring(_, paths, _) => paths
    case Searching(_, paths, _) => paths
    case Reading(_, paths, _, _) => paths
    case Noting(_, paths, _, _) => paths
    case _ => []
  }

  ghost predicate KnownStored(m: Machine) {
    forall id | id in m.txns :: forall p | p in Known(m.txns[id].local.pc) :: p in m.world.secrets
  }

  /** A statement adds at most the path it has just found. */
  lemma KnownStep(k: Provider, op: Op, pc: Pc, v: Tables, s: Secrets, obs: Obs, p: string)
    requires p in Known(Exec(k, op, pc, v, s, obs).pc)
    ensures p in Known(pc) || p in s
  {
    if (op.AccessOp? || op.PollOp?) && !pc.Start? && !pc.Queued? && !pc.Done? {
      KnownAccessStep(k, op, pc, v, s, obs, p);
    }
  }

  lemma KnownAccessStep(k: Provider, op: Op, pc: Pc, v: Tables, s: Secrets, obs: Obs, p: string)
    requires op.AccessOp? || op.PollOp?
    requires p in Known(ExecAccess(k, op, pc, v, s, obs).pc)
    ensures p in Known(pc) || p in s
  {
    hide ReadVersion, LivePaths, Assigned, AllAllowed, Normalize, HandleOf, TokenLive, PendingOf, InstancesWith,
      HasCurrentGrant, ExpireGrants, Printed;
    if pc.Probing? && pc.i < |pc.paths| {
      assert pc.paths[..pc.i + 1] == pc.paths[..pc.i] + [pc.paths[pc.i]];
      assert pc.i + 1 == |pc.paths| ==> pc.paths[..pc.i + 1] == pc.paths;
    }
  }

  /** No call removes a path. */
  lemma SecretsGrow(k: Provider, w: World, c: Call, p: string)
    requires p in w.secrets
    ensures p in Apply(k, w, c).world.secrets
  {
    hide Atomic, WriteVersion, ReadVersion;
  }

  lemma MoveKeepsKnown(k: Provider, m: Machine, v: Move)
    requires KnownStored(m) && Enabled(m, v)
    ensures KnownStored(Perform(k, m, v))
  {
    hide Exec, Apply, Fresh, FreshCall, Known, Apart, LockFree;
    match v
    case Begin(id, op) => NothingKnown();
    case Statement(id) =>
      var x := m.txns[id];
      forall p | p in Known(AfterStatement(k, m, id).local.pc) ensures p in m.world.secrets {
        KnownStep(k, x.op, x.local.pc, Overlay(m.world.tables, x.local.delta), m.world.secrets, x.local.obs, p);
      }
    case End(_) =>
    case Abort(_) =>
    case Outside(call) =>
      forall p | p in m.world.secrets ensures p in Perform(k, m, v).world.secrets {
        SecretsGrow(k, m.world, call, p);
      }
  }

  lemma {:induction false} AlwaysKnown(k: Provider, moves: seq<Move>)
    requires Legal(k, moves)
    ensures KnownStored(After(k, moves))
  {
    hide KnownStored, Perform, Enabled;
    if moves == [] {
      assert KnownStored(IDLE) by { NothingKnown(); }
    } else {
      var init := moves[..|moves| - 1];
      AlwaysKnown(k, init);
      MoveKeepsKnown(k, After(k, init), moves[|moves| - 1]);
    }
  }

  lemma NothingKnown()
    ensures KnownStored(IDLE) && Known(BEGUN.pc) == []
  {
  }

  /**
   * However the statements of other transactions fall in between, a transaction that has found its
   * grant never fails on a read: each read adds the path's latest value of that moment.
   */
  lemma ReadNeverFails(k: Provider, moves: seq<Move>, id: nat)
    requires ValidProvider(k) && Legal(k, moves)
    requires var m := After(k, moves);
      id in m.txns && m.txns[id].local.pc.Reading? && m.txns[id].local.pc.i < |m.txns[id].local.pc.paths|
      && (m.txns[id].op.AccessOp? || m.txns[id].op.PollOp?)
    ensures var m := After(k, moves);
      var pc := m.txns[id].local.pc;
      var p := pc.paths[pc.i];
      var plain := PlainRun(Calls(m.log));
      && p in plain && plain[p].history != []
      && AfterStatement(k, m, id).local.pc
         == Noting(pc.app, pc.paths, pc.i, pc.out[p := plain[p].history[|plain[p].history| - 1]])
  {
    hide Legal, After, Represents, RowRepresents, FreshRun, ReadVersion, Run, PlainRun;
    var m := After(k, moves);
    var pc := m.txns[id].local.pc;
    var p := pc.paths[pc.i];
    AlwaysKnown(k, moves);
    Serialisable(k, moves);
    assert p in Known(pc);
    var plain := PlainRun(Calls(m.log));
    RunRefines(k, Calls(m.log));
    ReadRefines(k, m.world.secrets, plain, p, 0);
    assert p in plain && plain[p].history != [] by { StoredHistory(k, m.world.secrets, plain, p); }
  }

  lemma StoredHistory(k: Provider, s: Secrets, m: Plain, p: string)
    requires Represents(k, s, m) && p in s
    ensures p in m && m[p].history != []
  {
    assert RowRepresents(k, p, s[p], m[p]);
  }

  /** Every value delivered was the latest value of its path at some moment of the call. */
  lemma DeliveredWhileRunning(k: Provider, moves: seq<Move>, i: nat, p: string)
    requires ValidProvider(k) && Legal(k, moves)
    requires var m := After(k, moves);
      i < |m.log| && m.log[i].answer.Delivered? && p in m.log[i].answer.secrets && m.log[i].call.Lock?
    ensures var m := After(k, moves);
      exists j: nat | m.log[i].since <= j <= i :: PlainRead(PlainRun(Calls(m.log)[..j]), p, 0) == Ok(m.log[i].answer.secrets[p])
  {
    hide Legal, After, Represents, FreshRun, ReadVersion, Run, PlainRun, Apply, PlainRead;
    var m := After(k, moves);
    var h := Calls(m.log);
    Serialisable(k, moves);
    DeliveredObserved(k, h, i, p);
    assert Observed(k, h, h[i].obs, m.log[i].since, i);
    var s :| CommittedDuring(k, h, s, m.log[i].since, i) && Read(k, p, h[i].obs.plain[p], s);
    var j: nat :| m.log[i].since <= j <= i && j <= |h| && WorldAt(k, h, j).secrets == s;
    FreshPrefix(k, h, j);
    RunRefines(k, h[..j]);
    ReadRefines(k, s, PlainRun(h[..j]), p, 0);
  }

  lemma DeliveredObserved(k: Provider, h: seq<Call>, i: nat, p: string)
    requires FreshRun(k, h) && i < |h| && h[i].Lock? && AnswerAt(k, h, i).Delivered? && p in AnswerAt(k, h, i).secrets
    ensures p in h[i].obs.plain && h[i].obs.plain[p] == Ok(AnswerAt(k, h, i).secrets[p])
  {
    hide Apply, Valid, Gate, Requestable, JoinWrites, Overlay, JoinClosed, ActiveOf;
    ValidAt(k, h, i);
    var d := WhatHappened(k, WorldAt(k, h, i), h[i]);
    assert d.Served?;
  }

  // ---- exact delivery while other transactions run ----

  ghost predicate AllRead(obs: Obs) {
    forall p | p in obs.plain :: obs.plain[p].Ok?
  }

  ghost predicate ReadsSucceed(m: Machine) {
    && (forall id | id in m.txns :: AllRead(m.txns[id].local.obs))
    && (forall i | 0 <= i < |m.log| && m.log[i].call.Lock? :: AllRead(m.log[i].call.obs))
  }

  /** A statement reads at most one path, and one that it has found present. */
  lemma ReadStep(k: Provider, op: Op, pc: Pc, v: Tables, s: Secrets, obs: Obs)
    ensures var next := Exec(k, op, pc, v, s, obs).obs.plain;
      next == obs.plain || exists p :: p in Known(pc) && next == obs.plain[p := ReadVersion(k, s, p, 0)]
  {
    hide ExecAccess, ReadVersion;
    if (op.AccessOp? || op.PollOp?) && !pc.Start? && !pc.Queued? && !pc.Done? {
      ReadAccessStep(k, op, pc, v, s, obs);
    }
  }

  lemma ReadAccessStep(k: Provider, op: Op, pc: Pc, v: Tables, s: Secrets, obs: Obs)
    requires op.AccessOp? || op.PollOp?
    ensures var next := ExecAccess(k, op, pc, v, s, obs).obs.plain;
      next == obs.plain || exists p :: p in Known(pc) && next == obs.plain[p := ReadVersion(k, s, p, 0)]
  {
    hide ReadVersion, LivePath, LivePaths, Assigned, AllAllowed, Normalize, HandleOf, TokenLive, PendingOf,
      InstancesWith, HasCurrentGrant, ExpireGrants, Printed;
    if pc.Reading? && pc.i < |pc.paths| {
      assert pc.paths[pc.i] in Known(pc);
    }
  }

  lemma StoredReads(k: Provider, m: Machine, p: string)
    requires ValidProvider(k) && Inv(k, m) && p in m.world.secrets
    ensures ReadVersion(k, m.world.secrets, p, 0).Ok?
  {
    hide Represents, Undisturbed, Separate, ReadVersion, FreshRun;
    RunRefines(k, Calls(m.log));
    ReadRefines(k, m.world.secrets, PlainRun(Calls(m.log)), p, 0);
    StoredHistory(k, m.world.secrets, PlainRun(Calls(m.log)), p);
  }

  lemma StatementReads(k: Provider, m: Machine, id: nat)
    requires ValidProvider(k) && Inv(k, m) && KnownStored(m) && ReadsSucceed(m) && id in m.txns
    ensures AllRead(AfterStatement(k, m, id).local.obs)
  {
    hide Inv, Exec, Known, ReadVersion;
    var x := m.txns[id];
    ReadStep(k, x.op, x.local.pc, Overlay(m.world.tables, x.local.delta), m.world.secrets, x.local.obs);
    forall p | p in Known(x.local.pc) ensures ReadVersion(k, m.world.secrets, p, 0).Ok? {
      StoredReads(k, m, p);
    }
  }

  lemma MoveKeepsReads(k: Provider, m: Machine, v: Move)
    requires ValidProvider(k) && Inv(k, m) && KnownStored(m) && ReadsSucceed(m) && Enabled(m, v)
    ensures ReadsSucceed(Perform(k, m, v))
  {
    hide Inv, AfterStatement, Apply, Fresh, FreshCall, Apart, LockFree, KnownStored;
    if v.Statement? {
      StatementReads(k, m, v.id);
      StatementFields(k, m, v.id);
    }
  }

  lemma {:induction false} AlwaysReads(k: Provider, moves: seq<Move>)
    requires ValidProvider(k) && Legal(k, moves)
    ensures ReadsSucceed(After(k, moves))
  {
    hide Inv, KnownStored, ReadsSucceed, Perform, Enabled;
    if moves == [] {
      assert ReadsSucceed(IDLE) by { NothingRead(); }
    } else {
      var init := moves[..|moves| - 1];
      AlwaysReads(k, init);
      AlwaysInv(k, init);
      AlwaysKnown(k, init);
      MoveKeepsReads(k, After(k, init), moves[|moves| - 1]);
    }
  }

  lemma NothingRead()
    ensures ReadsSucceed(IDLE)
  {
  }

  /** The same observations with every read not made taken to succeed. */
  function Completed(obs: Obs, paths: seq<string>): Obs {
    obs.(plain := (map p | p in paths :: Ok(map[])) + obs.plain)
  }

  lemma CompletedReads(obs: Obs, paths: seq<string>)
    requires AllRead(obs)
    ensures AllReadable(Completed(obs, paths), paths) && Sequential.Extends(Completed(obs, paths), obs)
  {
  }

  lemma GateIgnoresReads(t: Tables, op: Op, obs: Obs, a: AppId, paths: seq<string>, then_: Then)
    requires Gate(t, op, obs, a, paths, then_)
    ensures Gate(t, op, Completed(obs, paths), a, paths, then_)
  {
  }

  /** Past the checks, with a grant and readable paths, the atomic call delivers them. */
  lemma GatedDelivers(t: Tables, op: Op, obs: Obs, a: AppId, paths: seq<string>, then_: Then)
    requires Valid(t) && Fresh(t, op) && Gate(t, op, obs, a, paths, then_)
    requires ActiveOf(t, a) != {} && (then_.NewAccess? || then_.status == Approved)
    ensures AllReadable(obs, paths) ==> Atomic(t, op, obs).answer == Delivered(Bundle(obs, paths))
    ensures !AllReadable(obs, paths) ==> Atomic(t, op, obs).answer.Failed?
  {
    hide Valid, Gate, Granted, Fresh, AllReadable, Bundle, Atomic;
    GateParts(t, op, obs, a, paths, then_);
    var passed, b, ps, th := GateOrFail(t, op, obs);
    if passed { GateUnique(t, op, obs, a, paths, then_, b, ps, th); }
    SoundParts(t);
    GrantedIsClosed(t, a, paths, op, then_, obs);
  }

  lemma GatedDefers(t: Tables, op: Op, obs: Obs, a: AppId, paths: seq<string>, then_: Then)
    requires Valid(t) && Fresh(t, op) && Gate(t, op, obs, a, paths, then_) && Fits(op, then_)
    requires ActiveOf(t, a) == {} || !(then_.NewAccess? || then_.status == Approved)
    ensures Deferred(op, then_, Atomic(t, op, obs).answer)
  {
    hide Valid, Gate, Granted, Fresh, JoinClosed, Atomic;
    GateParts(t, op, obs, a, paths, then_);
    var passed, b, ps, th := GateOrFail(t, op, obs);
    if passed { GateUnique(t, op, obs, a, paths, then_, b, ps, th); }
    SoundParts(t);
    GrantedIsClosed(t, a, paths, op, then_, obs);
    if op.AccessOp? { JoinDeferred(t, a, paths, op); }
  }

  /** The answer of a call that has run to its end does not depend on reads it did not make. */
  lemma AnswerIgnoresReads(k: Provider, h: seq<Call>, r: Record, trace: seq<Secrets>, i: nat, later: Obs)
    requires Ran(k, h, r, trace, i) && Valid(WorldAt(k, h, i).tables) && Sequential.Extends(later, r.call.obs)
    ensures Atomic(WorldAt(k, h, i).tables, r.call.op, later).answer == r.answer
  {
    hide Replay, Valid, Sequential.Extends, Atomic;
    var c := WorldAt(k, h, i).tables;
    SoundParts(c);
    SoundStored(c);
    Sequential.ReplayRest(k, r.call.op, c, trace, later);
    FinishedRest(r.call.op, c, Replay(k, r.call.op, c, trace), later);
  }

  lemma FinishedRest(op: Op, c: Tables, l: Local, obs: Obs)
    requires l.pc.Done?
    ensures Sequential.Rest(op, c, l, obs).answer == l.pc.answer
  {
  }

  /**
   * In every interleaving a request past the checks is answered with exactly its paths when it has
   * a grant (for a poll, an approved request), and otherwise waits or learns why not. No archive or
   * new version that falls in between makes it fail.
   */
  lemma DeliversUnderLoad(k: Provider, moves: seq<Move>, i: nat, a: AppId, paths: seq<string>, then_: Then)
    requires ValidProvider(k) && Legal(k, moves) && i < |After(k, moves).log|
    requires var h := Calls(After(k, moves).log);
      h[i].Lock? && Gate(WorldAt(k, h, i).tables, h[i].op, h[i].obs, a, paths, then_)
    ensures var h := Calls(After(k, moves).log);
      var t, answer := WorldAt(k, h, i).tables, After(k, moves).log[i].answer;
      if ActiveOf(t, a) != {} && (then_.NewAccess? || then_.status == Approved)
      then answer.Delivered? && answer.secrets.Keys == Elements(paths)
      else Fits(h[i].op, then_) && Deferred(h[i].op, then_, answer)
  {
    hide Legal, After, Valid, Gate, Atomic, WorldAt, ActiveOf, Fresh, Deferred, Observed, AllRead, AllReadable,
      AllDuring, Ran;
    var m := After(k, moves);
    var h := Calls(m.log);
    Serialisable(k, moves);
    AlwaysReads(k, moves);
    ValidAt(k, h, i);
    FreshOf(k, h, i);
    AnswerOf(k, h, i);
    var t, op, obs := WorldAt(k, h, i).tables, h[i].op, h[i].obs;
    GateParts(t, op, obs, a, paths, then_);
    if ActiveOf(t, a) != {} && (then_.NewAccess? || then_.status == Approved) {
      assert RanInOrder(k, h, m.log[i], i);
      var trace :| Ran(k, h, m.log[i], trace, i) && AllDuring(k, h, trace, m.log[i].since, i);
      var later := Completed(obs, paths);
      CompletedReads(obs, paths);
      GateIgnoresReads(t, op, obs, a, paths, then_);
      GatedDelivers(t, op, later, a, paths, then_);
      AnswerIgnoresReads(k, h, m.log[i], trace, i, later);
      GatedDelivers(t, op, obs, a, paths, then_);
      BundleKeys(obs, paths);
    } else {
      GatedDefers(t, op, obs, a, paths, then_);
    }
  }

  lemma BundleKeys(obs: Obs, paths: seq<string>)
    ensures AllReadable(obs, paths) ==> Bundle(obs, paths).Keys == Elements(paths)
  {
  }

  lemma AnswerOf(k: Provider, h: seq<Call>, i: nat)
    requires i < |h| && h[i].Lock?
    ensures AnswerAt(k, h, i) == Atomic(WorldAt(k, h, i).tables, h[i].op, h[i].obs).answer
  {
    hide Atomic, WorldAt;
  }

  /** And in every interleaving a secret leaves the store in no other way. */
  lemma DeliveredOnlySoUnderLoad(k: Provider, moves: seq<Move>, i: nat)
    requires ValidProvider(k) && Legal(k, moves) && i < |After(k, moves).log|
    requires Calls(After(k, moves).log)[i].Lock?
    ensures var h := Calls(After(k, moves).log);
      var t := WorldAt(k, h, i).tables;
      After(k, moves).log[i].answer.Delivered? <==>
      exists a, paths, then_ :: Gate(t, h[i].op, h[i].obs, a, paths, then_)
        && ActiveOf(t, a) != {} && (then_.NewAccess? || then_.status == Approved)
  {
    hide Legal, After, Valid, Gate, Apply, WorldAt, ActiveOf, FreshCall, Deferred, Observed, AllReadable,
      RanInOrder, Bundle, Overlay;
    var m := After(k, moves);
    var h := Calls(m.log);
    Serialisable(k, moves);
    ValidAt(k, h, i);
    assert FreshCall(WorldAt(k, h, i), h[i]);
    if m.log[i].answer.Delivered? {
      var d := WhatHappened(k, WorldAt(k, h, i), h[i]);
      assert d.Served?;
    }
    forall a, paths, then_ | Gate(WorldAt(k, h, i).tables, h[i].op, h[i].obs, a, paths, then_)
        && ActiveOf(WorldAt(k, h, i).tables, a) != {} && (then_.NewAccess? || then_.status == Approved)
      ensures m.log[i].answer.Delivered?
    {
      DeliversUnderLoad(k, moves, i, a, paths, then_);
    }
  }
}
