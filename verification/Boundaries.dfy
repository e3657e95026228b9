/**
 * An application's boundary over whole runs: the patterns last set hold until they are set again,
 * and nothing outside them is served or waited for (store.go, access.go).
 */
module Boundaries {
  import opened Results
  import opened Envelopes
  import opened Database
  import opened Protocol
  import opened Effects
  import opened Invariants
  import opened History
  import opened Runs
  import opened Deeds
  import opened Interleaving
  import opened Serialisability
  import opened Presence
  import opened Answers
  import Contracts
  import opened Text
  import opened Paths

  // ---- what each call does to the applications ----

  /** Only changes of an application and registrations touch the table. */
  lemma AppsElsewhere(k: Provider, w: World, c: Call)
    requires Valid(w.tables) && FreshCall(w, c) && !(c.Lock? && c.op.ChangeOp?) && !c.Create?
    ensures Apply(k, w, c).world.tables.apps == w.tables.apps
  {
    hide Valid, Apply, Gate, Requestable, Bundle, AllReadable, JoinClosed, ActiveOf, PendingOf, InstancesWith, Decide;
    Unwritten(w.tables);
    var d := WhatHappened(k, w, c);
  }

  /** The call gives the application these patterns: a path change that is carried out, or its registration. */
  ghost predicate Sets(k: Provider, h: seq<Call>, i: nat, a: AppId, patterns: seq<string>)
    requires i < |h|
  {
    || (h[i].Lock? && h[i].op.ChangeOp? && h[i].op.app == a && h[i].op.action == SetPaths(patterns) && AnswerAt(k, h, i).Changed?)
    || (h[i].Create? && h[i].app == a && h[i].patterns == patterns && AnswerAt(k, h, i).Created?)
  }

  lemma SetNow(k: Provider, h: seq<Call>, i: nat, a: AppId, patterns: seq<string>)
    requires FreshRun(k, h) && i < |h| && Sets(k, h, i, a, patterns)
    ensures var apps := WorldAt(k, h, i + 1).tables.apps; a in apps && apps[a].allowed == patterns
    ensures 1 <= |patterns| <= 100 && forall p | p in patterns :: ValidPattern(p)
  {
    hide Atomic, Valid, ValidPattern, WorldAt;
    NextWorld(k, h, i);
    var w := WorldAt(k, h, i);
    if h[i].Lock? {
      Contracts.AlterationRefused(w.tables, h[i].op, h[i].obs);
      Contracts.AlteredRow(w.tables, h[i].op, h[i].obs);
    } else {
      Contracts.CreatedApplication(k, w, h[i]);
    }
  }

  ghost predicate SetsAgain(k: Provider, h: seq<Call>, i: nat, a: AppId)
    requires i < |h|
  {
    h[i].Lock? && h[i].op.ChangeOp? && h[i].op.app == a && h[i].op.action.SetPaths? && AnswerAt(k, h, i).Changed?
  }

  lemma KeptNow(k: Provider, h: seq<Call>, i: nat, a: AppId)
    requires FreshRun(k, h) && i < |h| && a in WorldAt(k, h, i).tables.apps && !SetsAgain(k, h, i, a)
    ensures a in WorldAt(k, h, i + 1).tables.apps
    ensures WorldAt(k, h, i + 1).tables.apps[a].allowed == WorldAt(k, h, i).tables.apps[a].allowed
  {
    hide Atomic, Valid, ValidPattern, WorldAt, Fresh;
    NextWorld(k, h, i);
    ValidAt(k, h, i);
    var w, c := WorldAt(k, h, i), h[i];
    assert FreshCall(w, c);
    if c.Lock? && c.op.ChangeOp? {
      Contracts.AlterationRefused(w.tables, c.op, c.obs);
      ChangedOrNot(w.tables, c.op, c.obs);
      if Atomic(w.tables, c.op, c.obs).answer.Changed? { Contracts.AlteredRow(w.tables, c.op, c.obs); }
    } else if c.Create? {
      Contracts.CreatedApplication(k, w, c);
    } else {
      AppsElsewhere(k, w, c);
    }
  }

  lemma ChangedOrNot(t: Tables, op: Op, obs: Obs)
    requires op.ChangeOp?
    ensures Atomic(t, op, obs).answer.Changed? || Atomic(t, op, obs) == Outcome(t, Atomic(t, op, obs).answer)
  {
    hide Atomic, ChangeWrites;
    ChangingClosed(t, op, obs);
  }

  /** From the call that sets them until the next path change, these are the application's patterns. */
  lemma {:induction false} BoundaryStands(k: Provider, h: seq<Call>, i: nat, n: nat, a: AppId, patterns: seq<string>)
    requires FreshRun(k, h) && i < n <= |h| && Sets(k, h, i, a, patterns)
    requires forall q | i < q < n :: !SetsAgain(k, h, q, a)
    ensures a in WorldAt(k, h, n).tables.apps && WorldAt(k, h, n).tables.apps[a].allowed == patterns
    decreases n
  {
    hide WorldAt, FreshRun, Sets, SetsAgain;
    if n == i + 1 {
      SetNow(k, h, i, a, patterns);
    } else {
      BoundaryStands(k, h, i, n - 1, a, patterns);
      KeptNow(k, h, n - 1, a);
    }
  }

  /**
   * In every interleaving, from a path change or the registration until the next path change, every
   * path served to the application or waited for by it is covered by one of the patterns set.
   */
  lemma NothingOutside(k: Provider, moves: seq<Move>, i: nat, j: nat, a: AppId, patterns: seq<string>, p: string)
    requires ValidProvider(k) && Legal(k, moves) && i < j < |After(k, moves).log|
    requires var m := After(k, moves);
      var h := Calls(m.log);
      var t, u := WorldAt(k, h, j).tables, WorldAt(k, h, j + 1).tables;
      var answer := m.log[j].answer;
      && Sets(k, h, i, a, patterns) && (forall q | i < q < j :: !SetsAgain(k, h, q, a))
      && h[j].Lock? && (h[j].op.AccessOp? || h[j].op.PollOp?)
      && Sha256(h[j].op.token) in t.tokens && t.tokens[Sha256(h[j].op.token)].app == a
      && ((answer.Delivered? && p in answer.secrets)
          || ((answer.Waiting? || answer.Closed?) && answer.handle in u.instances && p in u.instances[answer.handle].paths))
    ensures exists q | 0 <= q < |patterns| :: PatternCovers(patterns[q], p)
  {
    hide Legal, After, Gate, WorldAt, Observed, RanInOrder, FreshRun, AnswerAt, Sets, SetsAgain, Allowed, ValidPattern,
      PatternCovers;
    var m := After(k, moves);
    var h := Calls(m.log);
    Serialisable(k, moves);
    var b, paths, then_ := AnswersGatedPaths(k, moves, j);
    assert p in Elements(paths);
    GatedInside(WorldAt(k, h, j).tables, h[j].op, h[j].obs, b, paths, then_, p);
    BoundaryStands(k, h, i, j, a, patterns);
    SetNow(k, h, i, a, patterns);
    AllowedMeaning(patterns, p);
  }

  lemma GatedInside(t: Tables, op: Op, obs: Obs, a: AppId, paths: seq<string>, then_: Then, p: string)
    requires Gate(t, op, obs, a, paths, then_) && p in paths
    ensures Allowed(t.apps[a].allowed, p)
    ensures Sha256(op.token) in t.tokens && t.tokens[Sha256(op.token)].app == a
  {
    hide Allowed;
    var n :| 0 <= n < |paths| && paths[n] == p;
    assert Allowed(t.apps[a].allowed, paths[n]);
  }

  /** And an authenticated access that names a path outside them is Forbidden, whatever the secrets. */
  lemma OutsideForbidden(k: Provider, h: seq<Call>, i: nat, j: nat, a: AppId, patterns: seq<string>, p: string)
    requires FreshRun(k, h) && i < j < |h|
    requires Sets(k, h, i, a, patterns) && forall q | i < q < j :: !SetsAgain(k, h, q, a)
    requires var t, c := WorldAt(k, h, j).tables, h[j];
      && c.Lock? && c.op.AccessOp? && |c.op.paths| <= 100 && |c.op.instance| <= 128 && (forall q | q in c.op.paths :: ValidPath(q))
      && "lg_app_" <= c.op.token && |c.op.token| <= 128
      && Sha256(c.op.token) in t.tokens && t.tokens[Sha256(c.op.token)] == Token(a, true) && a in t.apps && t.apps[a].enabled
      && p in c.op.paths
    requires forall q | 0 <= q < |patterns| :: !PatternCovers(patterns[q], p)
    ensures AnswerAt(k, h, j) == Failed(Forbidden)
  {
    hide WorldAt, FreshRun, Sets, SetsAgain, Allowed, ValidPattern, PatternCovers, ValidPath, Normalize;
    BoundaryStands(k, h, i, j, a, patterns);
    SetNow(k, h, i, a, patterns);
    AllowedMeaning(patterns, p);
    WellFormedRequest(h[j].op);
    Authentic(WorldAt(k, h, j).tables, h[j].op, h[j].obs, a);
    var sorted := Prepare(h[j].op).value;
    assert p in Elements(sorted);
    var n :| 0 <= n < |sorted| && sorted[n] == p;
    assert !Allowed(patterns, sorted[n]);
  }
}
