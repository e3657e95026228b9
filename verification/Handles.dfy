/**
 * Request instances over whole runs: an idempotency key names one handle for as long as its
 * request lives, and a handle stands for one path set for ever.
 */
module Handles {
  import opened Results
  import opened Envelopes
  import opened Database
  import opened Protocol
  import opened Effects
  import opened Invariants
  import opened History
  import opened Runs
  import opened Deeds
  import opened Lifecycle
  import opened Text
  import opened Paths

  // ---- one instance for each request and key ----

  ghost predicate UniqueKeys(t: Tables) {
    forall i, j | i in t.instances && j in t.instances
      && t.instances[i].request == t.instances[j].request && t.instances[i].key == t.instances[j].key :: i == j
  }

  lemma JoinedUnique(t: Tables, a: AppId, paths: seq<string>, op: Op)
    requires op.AccessOp? && UniqueKeys(t) && Fresh(t, op)
    ensures UniqueKeys(Overlay(t, JoinWrites(t, a, paths, op)))
  {
    hide PendingOf;
    var u := Overlay(t, JoinWrites(t, a, paths, op));
    var same := InstancesWith(t, ApprovalFor(t, a, op), KeyOf(op));
    assert forall i | i in t.instances && t.instances[i].request == ApprovalFor(t, a, op) && t.instances[i].key == KeyOf(op) :: i in same;
  }

  lemma SameInstancesUnique(t: Tables, w: Tables)
    requires UniqueKeys(t) && w.instances == map[]
    ensures UniqueKeys(Overlay(t, w))
  {
    Unwritten(t);
  }

  lemma UniqueStep(k: Provider, w: World, c: Call)
    requires Valid(w.tables) && FreshCall(w, c) && UniqueKeys(w.tables)
    ensures UniqueKeys(Apply(k, w, c).world.tables)
  {
    hide Valid, Apply, Gate, Requestable, Bundle, AllReadable, UniqueKeys, JoinWrites, Overlay, PendingOf, ActiveOf,
      JoinClosed, RevokeGrants, RevokeRequests, RevokeTokens;
    var t := w.tables;
    var d := WhatHappened(k, w, c);
    match d
    case Nothing =>
    case Served(a, paths, _) => SameInstancesUnique(t, Logged(ReadEvents(a, paths)));
    case Joined(a, paths) =>
      assert Fresh(t, c.op);
      JoinedUnique(t, a, paths, c.op);
    case Decided(a) => SameInstancesUnique(t, ResolveWrites(t, a, c.op));
    case Altered(a) => SameInstancesUnique(t, ChangeWrites(t, a, c.op));
    case Registered(a) => SameInstancesUnique(t, Registration(c));
    case Noted(events) => SameInstancesUnique(t, Logged(events));
  }

  lemma {:induction false} UniqueAt(k: Provider, h: seq<Call>, i: nat)
    requires FreshRun(k, h) && i <= |h|
    ensures UniqueKeys(WorldAt(k, h, i).tables)
  {
    hide UniqueKeys, Apply, FreshCall;
    if i == 0 {
      NothingInitially(k, h);
      assert UniqueKeys(EMPTY) by { NoInstancesUnique(); }
    } else {
      UniqueAt(k, h, i - 1);
      ValidAt(k, h, i - 1);
      NextWorld(k, h, i - 1);
      UniqueStep(k, WorldAt(k, h, i - 1), h[i - 1]);
    }
  }

  lemma NoInstancesUnique()
    ensures UniqueKeys(EMPTY)
  {
  }

  // ---- what a waiting access has left behind ----

  ghost predicate WaitsAt(k: Provider, h: seq<Call>, i: nat, a: AppId, paths: seq<string>)
    requires i < |h|
  {
    && h[i].Lock? && h[i].op.AccessOp? && AnswerAt(k, h, i).Waiting?
    && Gate(WorldAt(k, h, i).tables, h[i].op, h[i].obs, a, paths, NewAccess)
  }

  /** The handle given out is the instance of this request, key and path list. */
  lemma WaitingLeaves(k: Provider, h: seq<Call>, i: nat) returns (a: AppId, paths: seq<string>)
    requires FreshRun(k, h) && i < |h| && h[i].Lock? && h[i].op.AccessOp? && AnswerAt(k, h, i).Waiting?
    ensures WaitsAt(k, h, i, a, paths) && Locate(WorldAt(k, h, i).tables, h[i].op) == Ok(a)
    ensures var x := AnswerAt(k, h, i);
      var u := WorldAt(k, h, i + 1).tables;
      x.handle in u.instances && u.instances[x.handle] == Instance(x.approval, KeyOf(h[i].op), paths)
    ensures h[i].op.paths != [] ==> Normalize(h[i].op.paths) == Ok(paths)
  {
    hide Apply, Valid, AllReadable, AllPresent, AllAllowed, Requestable, JoinWrites, HandleFor, ApprovalFor,
      JoinClosed, Overlay, ReadEvents, Bundle, Assigned;
    var w := WorldAt(k, h, i);
    ValidAt(k, h, i);
    NextWorld(k, h, i);
    var d := WhatHappened(k, w, h[i]);
    assert d.Joined?;
    a, paths := d.app, d.paths;
    SoundParts(w.tables);
    JoinedInstance(w.tables, a, paths, h[i].op);
  }

  lemma JoinedInstance(t: Tables, a: AppId, paths: seq<string>, op: Op)
    requires op.AccessOp? && Sound(t) && Requestable(paths) && !JoinClosed(t, a, paths, op).answer.Failed?
    ensures var u := Overlay(t, JoinWrites(t, a, paths, op));
      var handle := HandleFor(t, a, op);
      handle in u.instances && u.instances[handle] == Instance(ApprovalFor(t, a, op), KeyOf(op), paths)
  {
    hide PendingOf;
    var same := InstancesWith(t, ApprovalFor(t, a, op), KeyOf(op));
    if same != {} {
      var handle := Pick(same);
      assert handle in same;
      assert Requestable(t.instances[handle].paths);
      PrintedInjective(t.instances[handle].paths, paths);
    }
  }

  lemma {:induction false} InstanceStays(k: Provider, h: seq<Call>, i: nat, j: nat, x: string)
    requires FreshRun(k, h) && i <= j <= |h| && x in WorldAt(k, h, i).tables.instances
    ensures x in WorldAt(k, h, j).tables.instances
    ensures WorldAt(k, h, j).tables.instances[x] == WorldAt(k, h, i).tables.instances[x]
    decreases j
  {
    hide WorldAt, FreshRun;
    if i < j {
      InstanceStays(k, h, i, j - 1, x);
      RowsAt(k, h, j - 1);
    }
  }

  // ---- the theorems ----

  /** Two waiting answers carry the same handle exactly when they belong to one approval and one key. */
  lemma HandlesIdentify(k: Provider, h: seq<Call>, i: nat, j: nat)
    requires FreshRun(k, h) && i < j < |h|
    requires h[i].Lock? && h[i].op.AccessOp? && AnswerAt(k, h, i).Waiting?
    requires h[j].Lock? && h[j].op.AccessOp? && AnswerAt(k, h, j).Waiting?
    ensures var x, y := AnswerAt(k, h, i), AnswerAt(k, h, j);
      var p, q := h[i].op, h[j].op;
      && (x.handle == y.handle <==>
            x.approval == y.approval
            && (if p.instance == "" then p.ids.key else p.instance) == (if q.instance == "" then q.ids.key else q.instance))
      && (x.handle == y.handle && h[i].op.paths != [] && h[j].op.paths != [] ==>
            Elements(h[i].op.paths) == Elements(h[j].op.paths))
  {
    hide WorldAt, FreshRun, AnswerAt, WaitsAt, Normalize, Locate;
    var a, ps := WaitingLeaves(k, h, i);
    var b, qs := WaitingLeaves(k, h, j);
    var x, y := AnswerAt(k, h, i), AnswerAt(k, h, j);
    InstanceStays(k, h, i + 1, j + 1, x.handle);
    UniqueAt(k, h, j + 1);
    if x.handle == y.handle && h[i].op.paths != [] && h[j].op.paths != [] {
      NormalizeCanonical(h[i].op.paths, h[j].op.paths);
    }
  }

  /**
   * While the request is pending, repeating a key with the same paths, in any order and number,
   * gives the same handle, and with other paths a conflict. Neither changes anything.
   */
  lemma RepeatedAccess(k: Provider, h: seq<Call>, i: nat, j: nat, a: AppId)
    requires FreshRun(k, h) && i < j < |h|
    requires h[i].Lock? && h[i].op.AccessOp? && AnswerAt(k, h, i).Waiting? && h[i].op.paths != []
    requires h[j].Lock? && h[j].op.AccessOp? && h[j].op.paths != []
    requires var p, q := h[i].op, h[j].op;
      (if p.instance == "" then p.ids.key else p.instance) == (if q.instance == "" then q.ids.key else q.instance)
    requires AnswerAt(k, h, i).approval in PendingOf(WorldAt(k, h, j).tables, a)
    requires Prepare(h[j].op).Ok? && Gate(WorldAt(k, h, j).tables, h[j].op, h[j].obs, a, Prepare(h[j].op).value, NewAccess)
    ensures WorldAt(k, h, j + 1) == WorldAt(k, h, j)
    ensures AnswerAt(k, h, j)
         == if Elements(h[i].op.paths) == Elements(h[j].op.paths) then AnswerAt(k, h, i) else Failed(Conflict)
  {
    hide FreshRun, Valid, Atomic, JoinClosed, PendingOf, Normalize, Fresh, AllAllowed, AllPresent, Overlay, Locate,
      TokenLive;
    var t := WorldAt(k, h, j).tables;
    var x, op := AnswerAt(k, h, i), h[j].op;
    var b, ps := WaitingLeaves(k, h, i);
    InstanceStays(k, h, i + 1, j, x.handle);
    UniqueAt(k, h, j);
    ValidAt(k, h, j);
    NextWorld(k, h, j);
    SoundParts(t);
    var qs := Prepare(op).value;
    NormalizeCanonical(h[i].op.paths, op.paths);
    FreshOf(k, h, j);
    RejoinedAnswer(t, a, op, h[j].obs, x.handle, x.approval, ps, qs);
    WaitingAnswer(k, h, i);
  }

  lemma WaitingAnswer(k: Provider, h: seq<Call>, i: nat)
    requires FreshRun(k, h) && i < |h| && h[i].Lock? && h[i].op.AccessOp? && AnswerAt(k, h, i).Waiting?
    ensures AnswerAt(k, h, i).retryAfter == RETRY_AFTER
  {
    hide Apply, Valid, Gate, AllReadable, Requestable, JoinWrites, Overlay, Bundle;
    ValidAt(k, h, i);
    var d := WhatHappened(k, WorldAt(k, h, i), h[i]);
  }

  lemma RejoinedAnswer(t: Tables, a: AppId, op: Op, obs: Obs, handle: string, approval: string, ps: seq<string>,
      qs: seq<string>)
    requires Valid(t) && Sound(t) && UniqueKeys(t) && Fresh(t, op) && op.AccessOp?
    requires Gate(t, op, obs, a, qs, NewAccess) && approval in PendingOf(t, a)
    requires handle in t.instances && t.instances[handle] == Instance(approval, KeyOf(op), ps)
    ensures Atomic(t, op, obs) == Outcome(t, if ps == qs then Waiting(handle, approval, RETRY_AFTER) else Failed(Conflict))
  {
    hide Atomic, Valid, Granted, Fresh, Gate, Requestable, Sound;
    var passed, b, paths, then_ := GateOrFail(t, op, obs);
    assert b == a && paths == qs && then_ == NewAccess by { GateUnique(t, op, obs, a, qs, NewAccess, b, paths, then_); }
    SoundParts(t);
    GrantedIsClosed(t, a, qs, op, NewAccess, obs);
    OnePending(t, op, obs, a, qs, approval);
    KeyedInstance(t, op, handle, approval, ps);
    GatedRequestable(t, op, obs, a, qs, NewAccess);
    assert Requestable(ps) by { StoredRequestable(t, handle); }
    RequestableValid(ps, qs);
    PrintedInjective(ps, qs);
    Rejoined(t, a, op, qs, handle, approval);
  }

  lemma StoredRequestable(t: Tables, i: string)
    requires Sound(t) && i in t.instances
    ensures Requestable(t.instances[i].paths)
  {
  }

  lemma RequestableValid(ps: seq<string>, qs: seq<string>)
    requires Requestable(ps) && Requestable(qs)
    ensures ps != [] && qs != [] && forall p | p in ps + qs :: ValidPath(p)
  {
  }

  lemma OnePending(t: Tables, op: Op, obs: Obs, a: AppId, paths: seq<string>, approval: string)
    requires Valid(t) && Gate(t, op, obs, a, paths, NewAccess) && approval in PendingOf(t, a)
    ensures PendingOf(t, a) == {approval} && ActiveOf(t, a) == {}
  {
    assert Orderly(StandingOf(t, a));
  }

  lemma KeyedInstance(t: Tables, op: Op, handle: string, approval: string, ps: seq<string>)
    requires UniqueKeys(t) && op.AccessOp? && handle in t.instances && t.instances[handle] == Instance(approval, KeyOf(op), ps)
    ensures InstancesWith(t, approval, KeyOf(op)) == {handle}
  {
    forall i | i in InstancesWith(t, approval, KeyOf(op)) ensures i == handle {
    }
    assert handle in InstancesWith(t, approval, KeyOf(op));
  }

  lemma Rejoined(t: Tables, a: AppId, op: Op, paths: seq<string>, handle: string, approval: string)
    requires op.AccessOp? && PendingOf(t, a) == {approval} && InstancesWith(t, approval, KeyOf(op)) == {handle}
    requires handle in t.instances
    ensures JoinClosed(t, a, paths, op)
         == Outcome(t, if Printed(t.instances[handle].paths) == Printed(paths) then Waiting(handle, approval, RETRY_AFTER) else Failed(Conflict))
  {
    hide PendingOf, InstancesWith, Printed;
    assert Pick({approval}) == approval by { Picked({approval}, approval); }
    assert Pick({handle}) == handle by { Picked({handle}, handle); }
    Unwritten(t);
  }

  /** The only element of a set that has one. */
  lemma Picked<T(!new)>(s: set<T>, x: T)
    requires AtMostOne(s) && x in s
    ensures Pick(s) == x
  {
    assert Pick(s) in s;
  }

  /** A poll on the handle of an explicit access delivers exactly the paths that access asked for. */
  lemma PolledAsAsked(k: Provider, h: seq<Call>, i: nat, j: nat)
    requires FreshRun(k, h) && i < j < |h|
    requires h[i].Lock? && h[i].op.AccessOp? && AnswerAt(k, h, i).Waiting? && h[i].op.paths != []
    requires h[j].Lock? && h[j].op.PollOp? && h[j].op.handle == AnswerAt(k, h, i).handle && AnswerAt(k, h, j).Delivered?
    ensures AnswerAt(k, h, j).secrets.Keys == Elements(h[i].op.paths)
  {
    hide WorldAt, FreshRun, AnswerAt, WaitsAt, Locate;
    var a, paths := WaitingLeaves(k, h, i);
    InstanceStays(k, h, i + 1, j, h[j].op.handle);
    PolledPaths(k, h, j);
    SortCanonical(h[i].op.paths);
  }
}
