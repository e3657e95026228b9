/**
 * Grants and requests over whole runs: what a withdrawal cuts off, and that a request is frozen
 * once it has been resolved.
 */
module Lifecycle {
  import opened Results
  import opened Envelopes
  import opened Database
  import opened Protocol
  import opened Locality
  import opened Effects
  import opened Invariants
  import opened History
  import opened Runs
  import opened Deeds
  import opened Interleaving
  import opened Serialisability

  ghost predicate WithdrawsAt(k: Provider, h: seq<Call>, i: nat, a: AppId)
    requires i < |h|
  {
    Alters(k, WorldAt(k, h, i), h[i], a) && !h[i].op.action.Enable?
  }

  ghost predicate OpensAt(k: Provider, h: seq<Call>, i: nat, a: AppId, r: string)
    requires i < |h|
  {
    Opens(k, WorldAt(k, h, i), h[i], a, r)
  }

  ghost predicate ApprovesAt(k: Provider, h: seq<Call>, i: nat, a: AppId, r: string)
    requires i < |h|
  {
    Decides(k, WorldAt(k, h, i), h[i], a, r, true)
  }

  ghost predicate DeliversAt(k: Provider, h: seq<Call>, i: nat, a: AppId)
    requires i < |h|
  {
    h[i].Lock? && Locate(WorldAt(k, h, i).tables, h[i].op) == Ok(a) && AnswerAt(k, h, i).Delivered?
  }

  // ---- revocation ----

  ghost predicate OpenedBetween(k: Provider, h: seq<Call>, i: nat, n: nat, a: AppId, r: string)
    requires n <= |h|
  {
    exists m: nat | i < m < n :: OpensAt(k, h, m, a, r)
  }

  ghost predicate ApprovedBetween(k: Provider, h: seq<Call>, i: nat, n: nat, a: AppId)
    requires n <= |h|
  {
    exists q: nat, r: string | i < q < n && ApprovesAt(k, h, q, a, r) :: OpenedBetween(k, h, i, q, a, r)
  }

  lemma Later(k: Provider, h: seq<Call>, i: nat, n: nat, a: AppId, r: string)
    requires n < |h|
    ensures OpenedBetween(k, h, i, n, a, r) ==> OpenedBetween(k, h, i, n + 1, a, r)
    ensures i < n && OpensAt(k, h, n, a, r) ==> OpenedBetween(k, h, i, n + 1, a, r)
    ensures ApprovedBetween(k, h, i, n, a) ==> ApprovedBetween(k, h, i, n + 1, a)
    ensures i < n && ApprovesAt(k, h, n, a, r) && OpenedBetween(k, h, i, n, a, r) ==> ApprovedBetween(k, h, i, n + 1, a)
  {
    hide OpensAt, ApprovesAt;
  }

  lemma StandingAt(k: Provider, h: seq<Call>, i: nat, a: AppId)
    requires FreshRun(k, h) && i < |h| && a in WorldAt(k, h, i).tables.apps
    ensures a in WorldAt(k, h, i + 1).tables.apps
    ensures StandingMoves(k, WorldAt(k, h, i), h[i], a, StandingOf(WorldAt(k, h, i).tables, a), StandingOf(WorldAt(k, h, i + 1).tables, a))
  {
    hide StandingMoves, Apply, FreshCall;
    ValidAt(k, h, i);
    NextWorld(k, h, i);
    StandingStep(k, WorldAt(k, h, i), h[i], a);
  }

  /** After a withdrawal, open requests are new ones, and a grant comes from the approval of a new one. */
  ghost predicate Renewed(k: Provider, h: seq<Call>, i: nat, n: nat, a: AppId, s: Standing)
    requires n <= |h|
  {
    && (forall r | r in s.pending :: OpenedBetween(k, h, i, n, a, r))
    && (s.active != {} ==> ApprovedBetween(k, h, i, n, a))
  }

  lemma {:induction false} SinceWithdrawal(k: Provider, h: seq<Call>, i: nat, n: nat, a: AppId)
    requires FreshRun(k, h) && i < n <= |h| && WithdrawsAt(k, h, i, a)
    ensures a in WorldAt(k, h, n).tables.apps
    ensures Renewed(k, h, i, n, a, StandingOf(WorldAt(k, h, n).tables, a))
    decreases n
  {
    hide StandingOf, FreshRun, WorldAt, Apply, Renewed, StandingMoves;
    if n == i + 1 {
      WithdrawalClears(k, h, i, a);
    } else {
      SinceWithdrawal(k, h, i, n - 1, a);
      StandingAt(k, h, n - 1, a);
      RenewedStep(k, h, i, n - 1, a, StandingOf(WorldAt(k, h, n - 1).tables, a), StandingOf(WorldAt(k, h, n).tables, a));
    }
  }

  lemma RenewedStep(k: Provider, h: seq<Call>, i: nat, n: nat, a: AppId, s: Standing, u: Standing)
    requires i < n < |h| && Renewed(k, h, i, n, a, s) && StandingMoves(k, WorldAt(k, h, n), h[n], a, s, u)
    ensures Renewed(k, h, i, n + 1, a, u)
  {
    hide WorldAt, OpenedBetween, ApprovedBetween, Opens, Decides, Alters, OpensAt, ApprovesAt;
    Later(k, h, i, n, a, "");
    forall r { Later(k, h, i, n, a, r); }
    var w, c := WorldAt(k, h, n), h[n];
    if r :| Opens(k, w, c, a, r) && u == s.(pending := {r}) {
      assert OpensAt(k, h, n, a, r) by { RestateOpens(k, h, n, a, r); }
    } else if r :| Decides(k, w, c, a, r, true) && s.pending == {r} && u.pending == {} {
      assert r in s.pending;
      assert ApprovesAt(k, h, n, a, r) by { RestateApproves(k, h, n, a, r); }
    }
  }

  lemma RestateOpens(k: Provider, h: seq<Call>, n: nat, a: AppId, r: string)
    requires n < |h| && Opens(k, WorldAt(k, h, n), h[n], a, r)
    ensures OpensAt(k, h, n, a, r)
  {
    hide Opens, WorldAt;
  }

  lemma RestateApproves(k: Provider, h: seq<Call>, n: nat, a: AppId, r: string)
    requires n < |h| && Decides(k, WorldAt(k, h, n), h[n], a, r, true)
    ensures ApprovesAt(k, h, n, a, r)
  {
    hide Decides, WorldAt;
  }

  lemma WithdrawalClears(k: Provider, h: seq<Call>, i: nat, a: AppId)
    requires FreshRun(k, h) && i < |h| && WithdrawsAt(k, h, i, a)
    ensures var t := WorldAt(k, h, i + 1).tables;
      && a in t.apps && PendingOf(t, a) == {} && ApprovedOf(t, a) == {} && ActiveOf(t, a) == {}
      && Renewed(k, h, i, i + 1, a, StandingOf(t, a))
  {
    hide Atomic, ChangeWrites, Overlay, Valid, Fresh;
    var w := WorldAt(k, h, i);
    NextWorld(k, h, i);
    ChangingClosed(w.tables, h[i].op, h[i].obs);
    assert FreshCall(w, h[i]);
    ChangeStanding(w.tables, h[i].op);
  }

  lemma DeliveryNeedsGrant(k: Provider, h: seq<Call>, j: nat, a: AppId)
    requires FreshRun(k, h) && j < |h| && DeliversAt(k, h, j, a)
    ensures ActiveOf(WorldAt(k, h, j).tables, a) != {}
  {
    hide Apply, Valid, ActiveOf, AllReadable, AllPresent, AllAllowed, Asks;
    ValidAt(k, h, j);
    var d := WhatHappened(k, WorldAt(k, h, j), h[j]);
    assert d.Served?;
  }

  /**
   * Once a revocation, rotation, disabling or path change has taken effect, no secret is delivered
   * until a request opened after it has been approved after it. Enabling alone never does it.
   */
  lemma RevocationHolds(k: Provider, h: seq<Call>, i: nat, j: nat, a: AppId)
    requires FreshRun(k, h) && i < j < |h|
    requires WithdrawsAt(k, h, i, a) && DeliversAt(k, h, j, a)
    ensures exists m: nat, q: nat, r: string | i < m < q < j :: OpensAt(k, h, m, a, r) && ApprovesAt(k, h, q, a, r)
  {
    hide OpensAt, ApprovesAt, WithdrawsAt, DeliversAt, ActiveOf;
    SinceWithdrawal(k, h, i, j, a);
    DeliveryNeedsGrant(k, h, j, a);
    var q: nat, r: string :| i < q < j && ApprovesAt(k, h, q, a, r) && OpenedBetween(k, h, i, q, a, r);
    var m: nat :| i < m < q && OpensAt(k, h, m, a, r);
  }

  /** The same under every interleaving of statements. */
  lemma RevocationUnderLoad(k: Provider, moves: seq<Move>, i: nat, j: nat, a: AppId)
    requires Legal(k, moves)
    requires var m := After(k, moves);
      var h := Calls(m.log);
      && i < j < |h|
      && h[i].Lock? && h[i].op.ChangeOp? && h[i].op.app == a && !h[i].op.action.Enable? && m.log[i].answer.Changed?
      && h[j].Lock? && Locate(WorldAt(k, h, j).tables, h[j].op) == Ok(a) && m.log[j].answer.Delivered?
    ensures var h := Calls(After(k, moves).log);
      exists p: nat, q: nat, r: string | i < p < q < j :: OpensAt(k, h, p, a, r) && ApprovesAt(k, h, q, a, r)
  {
    hide OpensAt, ApprovesAt, Apply;
    Serialisable(k, moves);
    RevocationHolds(k, Calls(After(k, moves).log), i, j, a);
  }

  // ---- frozen requests ----

  /** Pending to anything, approved to revoked, and otherwise nowhere. */
  predicate Reaches(s: Status, n: Status) {
    s == n || s == Pending || (s == Approved && n == Revoked)
  }

  /** Requests keep their application and move along `Reaches`; instances stay; only open requests gain instances. */
  ghost predicate RowsMove(t: Tables, u: Tables) {
    && (forall r | r in t.requests ::
          r in u.requests && u.requests[r].app == t.requests[r].app && Reaches(t.requests[r].status, u.requests[r].status))
    && (forall i | i in t.instances :: i in u.instances && u.instances[i] == t.instances[i])
    && (forall i | i in u.instances && i !in t.instances :: Gains(t, u.instances[i].request))
  }

  ghost predicate Gains(t: Tables, r: string) {
    r in t.requests ==> t.requests[r].status == Pending
  }

  lemma RowsStep(k: Provider, w: World, c: Call)
    requires Valid(w.tables) && FreshCall(w, c)
    ensures RowsMove(w.tables, Apply(k, w, c).world.tables)
  {
    hide Valid, Apply, Gate, Requestable, Bundle, AllReadable, RowsMove, JoinWrites, ResolveWrites, ChangeWrites,
      Overlay;
    var t := w.tables;
    var d := WhatHappened(k, w, c);
    match d
    case Nothing => UnmovedRows(t);
    case Served(b, paths, _) => LoggedRows(t, ReadEvents(b, paths));
    case Joined(b, paths) => JoinedRowsMove(t, b, paths, c.op);
    case Decided(b) => DecidedRowsMove(t, c.op);
    case Altered(b) => AlteredRowsMove(t, c.op);
    case Registered(b) => RegisteredRows(t, c);
    case Noted(events) => LoggedRows(t, events);
  }

  lemma UnmovedRows(t: Tables)
    ensures RowsMove(t, t)
  {
  }

  lemma LoggedRows(t: Tables, e: seq<Event>)
    ensures RowsMove(t, Overlay(t, Logged(e)))
  {
  }

  lemma RegisteredRows(t: Tables, c: Call)
    requires c.Create?
    ensures RowsMove(t, Overlay(t, Registration(c)))
  {
  }

  lemma JoinedRowsMove(t: Tables, a: AppId, paths: seq<string>, op: Op)
    requires op.AccessOp? && Fresh(t, op)
    ensures RowsMove(t, Overlay(t, JoinWrites(t, a, paths, op)))
  {
    if PendingOf(t, a) != {} { PickedRequest(t, a); }
  }

  lemma DecidedRowsMove(t: Tables, op: Op)
    requires op.ResolveOp? && Decidable(t, op)
    ensures RowsMove(t, Overlay(t, ResolveWrites(t, t.requests[op.request].app, op)))
  {
  }

  lemma AlteredRowsMove(t: Tables, op: Op)
    requires op.ChangeOp? && op.app in t.apps
    ensures RowsMove(t, Overlay(t, ChangeWrites(t, op.app, op)))
  {
  }

  lemma RowsAt(k: Provider, h: seq<Call>, i: nat)
    requires FreshRun(k, h) && i < |h|
    ensures RowsMove(WorldAt(k, h, i).tables, WorldAt(k, h, i + 1).tables)
  {
    ValidAt(k, h, i);
    NextWorld(k, h, i);
    RowsStep(k, WorldAt(k, h, i), h[i]);
  }

  /** A request's status moves only forward. */
  lemma {:induction false} StatusForward(k: Provider, h: seq<Call>, i: nat, j: nat, r: string)
    requires FreshRun(k, h) && i <= j <= |h| && r in WorldAt(k, h, i).tables.requests
    ensures r in WorldAt(k, h, j).tables.requests
    ensures Reaches(WorldAt(k, h, i).tables.requests[r].status, WorldAt(k, h, j).tables.requests[r].status)
    decreases j
  {
    hide WorldAt, FreshRun;
    if i < j {
      StatusForward(k, h, i, j - 1, r);
      RowsAt(k, h, j - 1);
    }
  }

  /** Once a request has left pending, its instances and their paths never change. */
  lemma {:induction false} ResolvedIsFrozen(k: Provider, h: seq<Call>, i: nat, j: nat, r: string)
    requires FreshRun(k, h) && i <= j <= |h| && r in WorldAt(k, h, i).tables.requests
    requires WorldAt(k, h, i).tables.requests[r].status != Pending
    ensures InstancesOf(WorldAt(k, h, j).tables, r) == InstancesOf(WorldAt(k, h, i).tables, r)
    ensures forall x | x in InstancesOf(WorldAt(k, h, i).tables, r) ::
              WorldAt(k, h, j).tables.instances[x] == WorldAt(k, h, i).tables.instances[x]
    decreases j
  {
    hide WorldAt, FreshRun;
    if i < j {
      ResolvedIsFrozen(k, h, i, j - 1, r);
      StatusForward(k, h, i, j - 1, r);
      RowsAt(k, h, j - 1);
    }
  }

  /** The union of paths that the approvals page lists for a request. */
  ghost function ApprovalPaths(t: Tables, r: string): set<string> {
    set i, p | i in t.instances && t.instances[i].request == r && p in t.instances[i].paths :: p
  }

  ghost predicate ApprovedEarlier(k: Provider, h: seq<Call>, n: nat, r: string)
    requires n <= |h|
  {
    exists q: nat, a: AppId | q < n :: ApprovesAt(k, h, q, a, r)
  }

  /** An approved request was approved by somebody. */
  lemma {:induction false} ApprovedByResolve(k: Provider, h: seq<Call>, n: nat, r: string)
    requires FreshRun(k, h) && n <= |h|
    requires r in WorldAt(k, h, n).tables.requests && WorldAt(k, h, n).tables.requests[r].status == Approved
    ensures ApprovedEarlier(k, h, n, r)
    decreases n
  {
    hide Apply, FreshCall;
    NothingInitially(k, h);
    if n == 0 {
      assert false;
    } else {
      var t, u := WorldAt(k, h, n - 1).tables, WorldAt(k, h, n).tables;
      ValidAt(k, h, n - 1);
      ValidAt(k, h, n);
      ApprovalStep(k, h, n - 1, r);
      if r in t.requests && t.requests[r].status == Approved {
        ApprovedByResolve(k, h, n - 1, r);
        var q: nat, a: AppId :| q < n - 1 && ApprovesAt(k, h, q, a, r);
        assert ApprovesAt(k, h, q, a, r);
      } else {
        var a: AppId :| ApprovesAt(k, h, n - 1, a, r);
      }
    }
  }

  lemma NothingInitially(k: Provider, h: seq<Call>)
    ensures WorldAt(k, h, 0) == INITIAL
  {
    assert h[..0] == [];
  }

  lemma ApprovalStep(k: Provider, h: seq<Call>, i: nat, r: string)
    requires FreshRun(k, h) && i < |h|
    requires r in WorldAt(k, h, i + 1).tables.requests && WorldAt(k, h, i + 1).tables.requests[r].status == Approved
    ensures var t := WorldAt(k, h, i).tables;
      (r in t.requests && t.requests[r].status == Approved) || exists a: AppId :: ApprovesAt(k, h, i, a, r)
  {
    hide Apply, Valid, Gate, Requestable, Bundle, AllReadable, Overlay, JoinWrites, ResolveWrites, ChangeWrites;
    var w := WorldAt(k, h, i);
    var t := w.tables;
    ValidAt(k, h, i);
    NextWorld(k, h, i);
    var d := WhatHappened(k, w, h[i]);
    match d
    case Nothing =>
    case Served(b, paths, _) => LoggedRequests(t, ReadEvents(b, paths));
    case Joined(b, paths) => JoinedApproved(t, b, paths, h[i].op, r);
    case Decided(b) =>
      DecidedApproved(t, h[i].op, r);
      if r == h[i].op.request && h[i].op.approve { assert ApprovesAt(k, h, i, b, r); }
    case Altered(b) => AlteredApproved(t, h[i].op, r);
    case Registered(b) => RegisteredRequests(t, h[i]);
    case Noted(events) => LoggedRequests(t, events);
  }

  lemma LoggedRequests(t: Tables, e: seq<Event>)
    ensures Overlay(t, Logged(e)).requests == t.requests
  {
  }

  lemma RegisteredRequests(t: Tables, c: Call)
    requires c.Create?
    ensures Overlay(t, Registration(c)).requests == t.requests
  {
  }

  lemma JoinedApproved(t: Tables, a: AppId, paths: seq<string>, op: Op, r: string)
    requires op.AccessOp?
    ensures var u := Overlay(t, JoinWrites(t, a, paths, op));
      r in u.requests && u.requests[r].status == Approved ==> r in t.requests && t.requests[r].status == Approved
  {
  }

  lemma DecidedApproved(t: Tables, op: Op, r: string)
    requires op.ResolveOp? && Decidable(t, op)
    ensures var u := Overlay(t, ResolveWrites(t, t.requests[op.request].app, op));
      r in u.requests && u.requests[r].status == Approved ==>
        (r in t.requests && t.requests[r].status == Approved) || (r == op.request && op.approve)
  {
  }

  lemma AlteredApproved(t: Tables, op: Op, r: string)
    requires op.ChangeOp? && op.app in t.apps
    ensures var u := Overlay(t, ChangeWrites(t, op.app, op));
      r in u.requests && u.requests[r].status == Approved ==> r in t.requests && t.requests[r].status == Approved
  {
  }

  /**
   * Every path a poll ever delivers was in the union shown to the administrator when the request
   * was approved, and belongs to the polled instance.
   */
  lemma PolledWithinApproval(k: Provider, h: seq<Call>, j: nat, r: string)
    requires FreshRun(k, h) && j < |h| && h[j].Lock? && h[j].op.PollOp? && AnswerAt(k, h, j).Delivered?
    requires h[j].op.handle in InstancesOf(WorldAt(k, h, j).tables, r)
    ensures exists q: nat, a: AppId | q < j && ApprovesAt(k, h, q, a, r) ::
              AnswerAt(k, h, j).secrets.Keys <= ApprovalPaths(WorldAt(k, h, q).tables, r)
    ensures AnswerAt(k, h, j).secrets.Keys == set p | p in WorldAt(k, h, j).tables.instances[h[j].op.handle].paths
  {
    hide ApprovalPaths, WorldAt, FreshRun;
    var handle := h[j].op.handle;
    PolledPaths(k, h, j);
    ApprovedByResolve(k, h, j, r);
    var q: nat, a: AppId :| q < j && ApprovesAt(k, h, q, a, r);
    JustApproved(k, h, q, a, r);
    ResolvedIsFrozen(k, h, q + 1, j, r);
    assert handle in InstancesOf(WorldAt(k, h, q + 1).tables, r);
    ListedPaths(WorldAt(k, h, q).tables, r, handle);
  }

  lemma ListedPaths(t: Tables, r: string, i: string)
    requires i in InstancesOf(t, r)
    ensures forall p | p in t.instances[i].paths :: p in ApprovalPaths(t, r)
  {
  }

  lemma PolledPaths(k: Provider, h: seq<Call>, j: nat)
    requires FreshRun(k, h) && j < |h| && h[j].Lock? && h[j].op.PollOp? && AnswerAt(k, h, j).Delivered?
    ensures var t := WorldAt(k, h, j).tables;
      var i := h[j].op.handle;
      && i in t.instances && t.instances[i].request in t.requests
      && t.requests[t.instances[i].request].status == Approved
      && AnswerAt(k, h, j).secrets.Keys == set p | p in t.instances[i].paths
  {
    hide Apply, Valid, AllPresent, AllAllowed, Requestable;
    ValidAt(k, h, j);
    var d := WhatHappened(k, WorldAt(k, h, j), h[j]);
    assert d.Served?;
  }

  lemma JustApproved(k: Provider, h: seq<Call>, q: nat, a: AppId, r: string)
    requires FreshRun(k, h) && q < |h| && ApprovesAt(k, h, q, a, r)
    ensures var t, u := WorldAt(k, h, q).tables, WorldAt(k, h, q + 1).tables;
      && r in u.requests && u.requests[r].status == Approved
      && u.instances == t.instances
  {
    hide Atomic, Valid, Fresh;
    var t := WorldAt(k, h, q).tables;
    ValidAt(k, h, q);
    NextWorld(k, h, q);
    SoundParts(t);
    ResolvingClosed(t, h[q].op, h[q].obs);
    Unwritten(t);
  }
}
