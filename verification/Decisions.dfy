/**
 * What an administrator decides, over whole runs: a request is denied exactly by a denial, and from
 * then on its polls say so and end the client's wait (access.go, client.go).
 */
module Decisions {
  import opened Results
  import opened Envelopes
  import opened Database
  import opened Protocol
  import opened Effects
  import opened Invariants
  import opened History
  import opened Runs
  import opened Deeds
  import opened Lifecycle
  import opened Interleaving
  import opened Serialisability
  import opened Presence
  import Contracts
  import Client
  import Composition

  // ---- what each call does to the requests ----

  /** A call that is neither a decision nor a change of an application at most opens one request. */
  lemma RequestsElsewhere(k: Provider, w: World, c: Call)
    requires Valid(w.tables) && FreshCall(w, c) && !(c.Lock? && (c.op.ResolveOp? || c.op.ChangeOp?))
    ensures var t, u := w.tables, Apply(k, w, c).world.tables;
      u.requests == t.requests
      || (c.Lock? && c.op.AccessOp? && c.op.ids.request !in t.requests
          && exists a :: u.requests == t.requests[c.op.ids.request := Request(a, Pending, None)])
  {
    hide Valid, Apply, Gate, Requestable, Bundle, AllReadable, InstancesWith, JoinClosed, ActiveOf, PendingOf,
      ResolveWrites, ChangeWrites;
    var t := w.tables;
    Unwritten(t);
    var d := WhatHappened(k, w, c);
    if d.Joined? {
      assert PendingOf(t, d.app) == {} ==>
               Apply(k, w, c).world.tables.requests == t.requests[c.op.ids.request := Request(d.app, Pending, None)];
    }
  }

  ghost predicate Denies(k: Provider, h: seq<Call>, q: nat, r: string)
    requires q < |h|
  {
    h[q].Lock? && h[q].op.ResolveOp? && h[q].op.request == r && !h[q].op.approve && AnswerAt(k, h, q) == Resolved
  }

  ghost predicate IsDenied(t: Tables, r: string) {
    r in t.requests && t.requests[r].status == Denied
  }

  lemma DenialStep(k: Provider, h: seq<Call>, i: nat, r: string)
    requires FreshRun(k, h) && i < |h|
    ensures IsDenied(WorldAt(k, h, i + 1).tables, r) <==> IsDenied(WorldAt(k, h, i).tables, r) || Denies(k, h, i, r)
  {
    hide Atomic, Valid, Fresh, WorldAt;
    ValidAt(k, h, i);
    NextWorld(k, h, i);
    var w := WorldAt(k, h, i);
    assert FreshCall(w, h[i]);
    if h[i].Lock? && h[i].op.ResolveOp? {
      DecisionDenies(w.tables, h[i].op, h[i].obs, r);
    } else if h[i].Lock? && h[i].op.ChangeOp? {
      ChangeDeniesNone(w.tables, h[i].op, h[i].obs, r);
    } else {
      RequestsElsewhere(k, w, h[i]);
    }
  }

  lemma DecisionDenies(t: Tables, op: Op, obs: Obs, r: string)
    requires Valid(t) && Fresh(t, op) && op.ResolveOp?
    ensures var o := Atomic(t, op, obs);
      IsDenied(o.tables, r) <==> IsDenied(t, r) || (op.request == r && !op.approve && o.answer == Resolved)
  {
    hide Atomic, Valid;
    SoundParts(t);
    Contracts.ResolutionRefused(t, op, obs);
    if op.request in t.requests {
      RequestsOwner(t, op.request);
      if t.requests[op.request].status == Pending && t.apps[t.requests[op.request].app].enabled { Contracts.Resolution(t, op, obs); }
    }
  }

  lemma RequestsOwner(t: Tables, r: string)
    requires Sound(t) && r in t.requests
    ensures t.requests[r].app in t.apps
  {
  }

  lemma ChangeDeniesNone(t: Tables, op: Op, obs: Obs, r: string)
    requires op.ChangeOp?
    ensures IsDenied(Atomic(t, op, obs).tables, r) <==> IsDenied(t, r)
  {
    hide Atomic;
    ChangingClosed(t, op, obs);
    if Atomic(t, op, obs).answer.Changed? { Contracts.AlteredApprovals(t, op, obs); }
  }

  ghost predicate DeniedBefore(k: Provider, h: seq<Call>, n: nat, r: string)
    requires n <= |h|
  {
    exists q: nat | q < n :: Denies(k, h, q, r)
  }

  lemma {:induction false} DeniedByDecision(k: Provider, h: seq<Call>, n: nat, r: string)
    requires FreshRun(k, h) && n <= |h|
    ensures IsDenied(WorldAt(k, h, n).tables, r) <==> DeniedBefore(k, h, n, r)
  {
    hide WorldAt, FreshRun, Denies;
    if n == 0 {
      NothingInitially(k, h);
    } else {
      DeniedByDecision(k, h, n - 1, r);
      DenialStep(k, h, n - 1, r);
      if q: nat :| q < n && Denies(k, h, q, r) { assert q < n - 1 || q == n - 1; }
    }
  }

  /** A request is denied exactly if some decision has denied it. */
  lemma DeniedExactly(k: Provider, h: seq<Call>, n: nat, r: string)
    requires FreshRun(k, h) && n <= |h|
    ensures r in WorldAt(k, h, n).tables.requests && WorldAt(k, h, n).tables.requests[r].status == Denied <==>
            exists q: nat | q < n && h[q].Lock? && h[q].op.ResolveOp? ::
              h[q].op.request == r && !h[q].op.approve && AnswerAt(k, h, q) == Resolved
  {
    hide WorldAt, FreshRun, AnswerAt;
    DeniedByDecision(k, h, n, r);
    forall q: nat | q < n && h[q].Lock? && h[q].op.ResolveOp?
      ensures Denies(k, h, q, r) <==> h[q].op.request == r && !h[q].op.approve && AnswerAt(k, h, q) == Resolved
    {
    }
    if q: nat :| q < n && Denies(k, h, q, r) {
      assert h[q].Lock? && h[q].op.ResolveOp? && h[q].op.request == r;
    }
  }

  /** What a poll on an instance of a denied request is told. */
  lemma DeniedPoll(k: Provider, h: seq<Call>, j: nat, r: string)
    requires FreshRun(k, h) && j < |h| && h[j].Lock? && h[j].op.PollOp?
    requires var t := WorldAt(k, h, j).tables;
      h[j].op.handle in t.instances && t.instances[h[j].op.handle].request == r && IsDenied(t, r)
    ensures AnswerAt(k, h, j).Failed? || AnswerAt(k, h, j) == Closed(Denied, h[j].op.handle, r)
  {
    hide Apply, Valid, Gate, AllReadable, Requestable, JoinWrites, Overlay, Bundle, JoinClosed, ActiveOf;
    ValidAt(k, h, j);
    var d := WhatHappened(k, WorldAt(k, h, j), h[j]);
    if d.Served? { PolledRequest(WorldAt(k, h, j).tables, h[j].op, h[j].obs, d.app, d.paths, d.then_); }
  }

  lemma PolledRequest(t: Tables, op: Op, obs: Obs, a: AppId, paths: seq<string>, then_: Then)
    requires Gate(t, op, obs, a, paths, then_) && op.PollOp?
    ensures op.handle in t.instances && t.instances[op.handle].request in t.requests
    ensures then_ == Report(t.instances[op.handle].request, t.requests[t.instances[op.handle].request].status)
  {
  }

  /**
   * For ever after a denial, a poll on a handle of the request either fails or says denied, and
   * then the client stops with a refusal.
   */
  lemma DenialIsFinal(k: Provider, h: seq<Call>, i: nat, j: nat, r: string, want: Client.Want)
    requires FreshRun(k, h) && i < j < |h|
    requires h[i].Lock? && h[i].op.ResolveOp? && h[i].op.request == r && !h[i].op.approve && AnswerAt(k, h, i) == Resolved
    requires h[j].Lock? && h[j].op.PollOp? && h[j].op.handle in WorldAt(k, h, j).tables.instances
      && WorldAt(k, h, j).tables.instances[h[j].op.handle].request == r
    ensures AnswerAt(k, h, j).Failed? || AnswerAt(k, h, j) == Closed(Denied, h[j].op.handle, r)
    ensures !AnswerAt(k, h, j).Failed? ==>
              Client.Next(want, Composition.Wire(AnswerAt(k, h, j))) == Client.Stop(Client.Refused)
  {
    hide WorldAt, FreshRun, AnswerAt;
    assert Denies(k, h, i, r);
    DeniedByDecision(k, h, j, r);
    DeniedPoll(k, h, j, r);
  }

  /** In every interleaving, while its paths are live, such a poll is told denied and the client stops with a refusal. */
  lemma DenialUnderLoad(k: Provider, moves: seq<Move>, i: nat, j: nat, a: AppId, paths: seq<string>, want: Client.Want)
    requires ValidProvider(k) && Legal(k, moves) && i < j < |After(k, moves).log|
    requires var m := After(k, moves);
      var h := Calls(m.log);
      var t := WorldAt(k, h, j).tables;
      && h[i].Lock? && h[i].op.ResolveOp? && !h[i].op.approve && m.log[i].answer == Resolved
      && h[j].Lock? && h[j].op.PollOp? && Within(t, h[j].op, a, paths)
      && t.instances[h[j].op.handle].request == h[i].op.request
      && forall p, x: nat | p in paths && m.log[j].since <= x <= j :: p in PlainRun(h[..x]) && !PlainRun(h[..x])[p].archived
    ensures var m := After(k, moves);
      && m.log[j].answer == Closed(Denied, m.log[j].call.op.handle, m.log[i].call.op.request)
      && Client.Next(want, Composition.Wire(m.log[j].answer)) == Client.Stop(Client.Refused)
  {
    hide WorldAt, FreshRun, AnswerAt, Legal, After, PlainRun, Observed, RanInOrder;
    var h := Calls(After(k, moves).log);
    Serialisable(k, moves);
    assert Denies(k, h, i, h[i].op.request);
    DeniedByDecision(k, h, j, h[i].op.request);
    LiveThroughout(k, moves, j, a, paths);
  }
}
