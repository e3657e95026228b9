/**
 * The statements of a transaction, run over tables nobody else changes, add up to the atomic
 * transaction, given what the statements read of the secret tables on the way.
 */
module Sequential {
  import opened Results
  import opened Envelopes
  import opened Vault
  import opened Database
  import opened Protocol
  import opened Statements
  import opened Text
  import opened Paths

  /** What is left of the atomic transaction at a statement. */
  ghost function Rest(op: Op, c: Tables, l: Local, obs: Obs): Outcome {
    var t := Overlay(c, l.delta);
    match l.pc
    case Start => Atomic(c, op, obs)
    case Queued(a) => Locked(c, a, op, obs)
    case Deciding(a) => if a in c.apps && op.ResolveOp? then Resolving(c, a, c.apps[a], op) else Fail(c, Internal)
    case Granting(a) =>
      if !op.ResolveOp? || HasActiveGrant(t, a) then Fail(c, Internal)
      else Outcome(Overlay(Overlay(t, NewGrant(a, op)), Logged([DecisionEvent(a, op)])), Resolved)
    case Recording(a) => if op.ResolveOp? then Outcome(Overlay(t, Logged([DecisionEvent(a, op)])), Resolved) else Fail(c, Internal)
    case Done(answer) => if answer.Failed? then Outcome(c, answer) else Outcome(t, answer)
    case _ =>
      if op.ChangeOp? then RestOfChange(op, c, t, l.pc)
      else if op.AccessOp? || op.PollOp? then RestOfAccess(op, c, t, l.pc, obs)
      else Fail(c, Internal)
  }

  ghost function RestOfChange(op: Op, c: Tables, t: Tables, pc: Pc): Outcome
    requires op.ChangeOp?
  {
    match pc
    case Retiring(a) => Withdrawing(Overlay(Overlay(t, Tokens(RevokeTokens(t, a))), NewToken(a, op.newToken)), a, op)
    case Issuing(a) => Withdrawing(Overlay(t, NewToken(a, op.newToken)), a, op)
    case Editing(a) =>
      if a !in t.apps then Fail(c, Internal)
      else
        var t1 := Overlay(t, Apps(map[a := Edited(t.apps[a], op.action)]));
        if op.action.Enable? then Recorded(t1, a, op) else Withdrawing(t1, a, op)
    case WithdrawingGrants(a) => Withdrawing(t, a, op)
    case CancellingRequests(a) => Recorded(Overlay(t, Requests(RevokeRequests(t, a))), a, op)
    case Logging(a) => Recorded(t, a, op)
    case _ => Fail(c, Internal)
  }

  ghost function RestOfAccess(op: Op, c: Tables, t: Tables, pc: Pc, obs: Obs): Outcome
    requires op.AccessOp? || op.PollOp?
  {
    match pc
    case Rechecking(a, row) => Authenticated(c, a, row, op, obs)
    case Listing(a, row) => if op.AccessOp? then Configured(c, a, row, op, obs) else Fail(c, Internal)
    case Finding(a, row) => if op.PollOp? then Found(c, a, row, op, obs) else Fail(c, Internal)
    case Probing(a, paths, i, then_) => if Fits(op, then_) then Probed(c, a, paths, i, op, then_, obs) else Fail(c, Internal)
    case Expiring(a, paths, then_) => if Fits(op, then_) then Granted(c, a, paths, op, then_, obs) else Fail(c, Internal)
    case Searching(a, paths, then_) => if Fits(op, then_) then Searched(c, t, a, paths, op, then_, obs) else Fail(c, Internal)
    case Reading(a, paths, i, out) => Delivering(c, t, a, paths, i, out, obs)
    case Noting(a, paths, i, out) =>
      if i < |paths| then Delivering(c, Overlay(t, Logged([ReadEvent(a, paths[i])])), a, paths, i + 1, out, obs) else Fail(c, Internal)
    case Asking(a, paths) => if op.AccessOp? then Asked(c, t, a, paths, op) else Fail(c, Internal)
    case Announcing(a, paths, approval) =>
      if op.AccessOp? then Joined(c, Overlay(t, Logged([Event(AccessRequested, ByApp(a), Some(a), "")])), paths, approval, op)
      else Fail(c, Internal)
    case Joining(a, paths, approval) => if op.AccessOp? then Joined(c, t, paths, approval, op) else Fail(c, Internal)
    case Comparing(a, paths, approval, handle) => Compared(c, t, paths, approval, handle)
    case _ => Fail(c, Internal)
  }

  // ---- observations only accumulate ----

  /** `later` agrees with everything already observed in `early`. */
  ghost predicate Extends(later: Obs, early: Obs) {
    && (early.listed.Some? ==> later.listed == early.listed)
    && (forall p | p in early.present :: p in later.present && later.present[p] == early.present[p])
    && (forall p | p in early.plain :: p in later.plain && later.plain[p] == early.plain[p])
  }

  ghost predicate StoredSorted(t: Tables) {
    forall i | i in t.instances :: StrictlySorted(t.instances[i].paths)
  }

  /** The statement fits the operation, early statements have written nothing, nothing is read twice. */
  ghost predicate Shape(op: Op, c: Tables, l: Local) {
    match l.pc
    case Start => l == BEGUN
    case Queued(_) => l.delta == EMPTY && l.obs == UNSEEN && Prepare(op).Ok?
    case Deciding(a) => l.delta == EMPTY && op.ResolveOp? && a in c.apps && c.apps[a].enabled
    case Granting(_) => op.ResolveOp? && op.approve
    case Recording(_) => op.ResolveOp?
    case Done(_) => true
    case _ =>
      if op.ChangeOp? then ShapeOfChange(op, c, l)
      else (op.AccessOp? || op.PollOp?) && ShapeOfAccess(op, l)
  }

  ghost predicate ShapeOfChange(op: Op, c: Tables, l: Local)
    requires op.ChangeOp?
  {
    match l.pc
    case Retiring(_) => l.delta == EMPTY && op.action.Rotate?
    case Issuing(_) => op.action.Rotate?
    case Editing(a) => l.delta == EMPTY && a in c.apps && (op.action.Enable? || op.action.Disable? || op.action.SetPaths?)
    case WithdrawingGrants(_) => true
    case CancellingRequests(_) => true
    case Logging(_) => true
    case _ => false
  }

  ghost predicate ShapeOfAccess(op: Op, l: Local)
    requires op.AccessOp? || op.PollOp?
  {
    match l.pc
    case Rechecking(_, _) => l.delta == EMPTY && l.obs == UNSEEN && Prepare(op).Ok?
    case Listing(_, _) => l.delta == EMPTY && l.obs == UNSEEN && op.AccessOp?
    case Finding(_, _) => l.delta == EMPTY && l.obs == UNSEEN && op.PollOp?
    case Probing(_, paths, i, then_) =>
      && l.delta == EMPTY && Fits(op, then_) && i < |paths| && Distinct(paths)
      && l.obs.present.Keys == Elements(paths[..i]) && l.obs.plain == map[]
    case Expiring(_, paths, then_) => l.delta == EMPTY && Fits(op, then_) && Distinct(paths) && l.obs.plain == map[]
    case Searching(_, paths, then_) => Fits(op, then_) && Distinct(paths) && l.obs.plain == map[]
    case Reading(_, paths, i, _) => i < |paths| && Distinct(paths) && l.obs.plain.Keys == Elements(paths[..i])
    case Noting(_, paths, i, _) => i < |paths| && Distinct(paths) && l.obs.plain.Keys == Elements(paths[..i + 1])
    case Asking(_, _) => op.AccessOp?
    case Announcing(_, _, approval) => op.AccessOp?
    case Joining(_, _, _) => op.AccessOp?
    case Comparing(_, _, _, _) => op.AccessOp?
    case _ => false
  }

  /** What one statement keeps: the shape, the observations, and the outcome still to come. */
  ghost predicate Keeps(op: Op, c: Tables, l: Local, n: Local, obs: Obs) {
    && Shape(op, c, n)
    && Extends(n.obs, l.obs)
    && (Extends(obs, n.obs) ==> Rest(op, c, n, obs) == Rest(op, c, l, obs))
  }

  lemma Rewrites(op: Op, k: Provider, c: Tables, s: Secrets, l: Local)
    ensures var st := Exec(k, op, l.pc, Overlay(c, l.delta), s, l.obs);
      && Overlay(c, Advance(k, op, c, s, l).delta) == Overlay(Overlay(c, l.delta), st.writes)
      && (st.writes == EMPTY ==> Overlay(c, Advance(k, op, c, s, l).delta) == Overlay(c, l.delta))
      && (st.writes == EMPTY ==> Advance(k, op, c, s, l).delta == l.delta)
      && (l.delta == EMPTY ==> Overlay(c, l.delta) == c)
  {
    var st := Exec(k, op, l.pc, Overlay(c, l.delta), s, l.obs);
    OverlayAssociative(c, l.delta, st.writes);
    OverlayNothing(Overlay(c, l.delta));
    OverlayNothing(l.delta);
    OverlayNothing(c);
  }

  lemma PreparedSorted(op: Op)
    requires Prepare(op).Ok?
    ensures StrictlySorted(Prepare(op).value)
  {
    if op.AccessOp? && op.paths != [] {
      SortCanonical(op.paths);
    }
  }

  lemma KeepsStart(k: Provider, op: Op, c: Tables, s: Secrets, l: Local, obs: Obs)
    requires Shape(op, c, l) && l.pc.Start?
    ensures Keeps(op, c, l, Advance(k, op, c, s, l), obs)
  {
    hide Locked;
    Rewrites(op, k, c, s, l);
  }

  lemma KeepsQueued(k: Provider, op: Op, c: Tables, s: Secrets, l: Local, obs: Obs)
    requires Shape(op, c, l) && l.pc.Queued?
    ensures Keeps(op, c, l, Advance(k, op, c, s, l), obs)
  {
    hide Overlay, ValidApplication, Normalize, Prepare, ExecAccess, Authenticated, Withdrawing, Recorded;
    Rewrites(op, k, c, s, l);
  }

  lemma KeepsToken(k: Provider, op: Op, c: Tables, s: Secrets, l: Local, obs: Obs)
    requires Shape(op, c, l) && op.ChangeOp? && (l.pc.Retiring? || l.pc.Issuing?)
    ensures Keeps(op, c, l, Advance(k, op, c, s, l), obs)
  {
    hide Overlay, RevokeGrants, RevokeRequests, RevokeTokens, ValidApplication, RestOfAccess, Resolving, ExecAccess,
      ShapeOfAccess, Atomic, Locked;
    Rewrites(op, k, c, s, l);
  }

  lemma KeepsEditing(k: Provider, op: Op, c: Tables, s: Secrets, l: Local, obs: Obs)
    requires Shape(op, c, l) && op.ChangeOp? && l.pc.Editing?
    ensures Keeps(op, c, l, Advance(k, op, c, s, l), obs)
  {
    hide Overlay, RevokeGrants, RevokeRequests, RevokeTokens, ValidApplication, RestOfAccess, Resolving, ExecAccess,
      ShapeOfAccess, Atomic, Locked;
    Rewrites(op, k, c, s, l);
  }

  lemma KeepsWithdrawal(k: Provider, op: Op, c: Tables, s: Secrets, l: Local, obs: Obs)
    requires Shape(op, c, l) && op.ChangeOp? && (l.pc.WithdrawingGrants? || l.pc.CancellingRequests? || l.pc.Logging?)
    ensures Keeps(op, c, l, Advance(k, op, c, s, l), obs)
  {
    hide Overlay, RevokeGrants, RevokeRequests, RevokeTokens, ValidApplication, RestOfAccess, Resolving, ExecAccess,
      ShapeOfAccess, Atomic, Locked;
    Rewrites(op, k, c, s, l);
  }

  lemma KeepsDeciding(k: Provider, op: Op, c: Tables, s: Secrets, l: Local, obs: Obs)
    requires Shape(op, c, l) && op.ResolveOp? && l.pc.Deciding?
    ensures Keeps(op, c, l, Advance(k, op, c, s, l), obs)
  {
    hide Overlay, RevokeRequests, HasActiveGrant, InstancesWith;
    Rewrites(op, k, c, s, l);
  }

  lemma KeepsGranting(k: Provider, op: Op, c: Tables, s: Secrets, l: Local, obs: Obs)
    requires Shape(op, c, l) && op.ResolveOp? && (l.pc.Granting? || l.pc.Recording?)
    ensures Keeps(op, c, l, Advance(k, op, c, s, l), obs)
  {
    hide Overlay, RevokeRequests, HasActiveGrant, InstancesWith;
    Rewrites(op, k, c, s, l);
  }

  lemma KeepsStartProbing(op: Op, a: AppId, row: Application, paths: seq<string>, then_: Then, c: Tables, l: Local,
      obs: Obs)
    requires Fits(op, then_) && Distinct(paths) && l.delta == EMPTY && l.obs.present == map[] && l.obs.plain == map[]
    ensures var st := StartProbing(op, a, row, paths, then_, l.obs);
      var n := Local(st.pc, EMPTY, st.obs);
      && st.writes == EMPTY && Shape(op, c, n) && n.obs == l.obs
      && Rest(op, c, n, obs) == Checked(c, a, row, paths, op, then_, obs)
  {
    OverlayNothing(c);
    assert Elements(paths[..0]) == {};
  }

  lemma KeepsRecheck(k: Provider, op: Op, c: Tables, s: Secrets, l: Local, obs: Obs)
    requires Shape(op, c, l) && (op.AccessOp? || op.PollOp?) && l.pc.Rechecking?
    ensures Keeps(op, c, l, Advance(k, op, c, s, l), obs)
  {
    hide Overlay, RevokeGrants, RevokeRequests, HasActiveGrant, PendingOf, InstancesWith, Allowed, Printed, Ordered,
      ReadVersion, LivePath, LivePaths, ValidApplication, TokenLive, Checked, StartProbing;
    Rewrites(op, k, c, s, l);
    if op.AccessOp? && op.paths != [] {
      PreparedSorted(op);
      SortedDistinct(Prepare(op).value);
      KeepsStartProbing(op, l.pc.app, l.pc.row, Prepare(op).value, NewAccess, c, l, obs);
    }
  }

  lemma KeepsListing(k: Provider, op: Op, c: Tables, s: Secrets, l: Local, obs: Obs)
    requires Shape(op, c, l) && op.AccessOp? && l.pc.Listing?
    ensures Keeps(op, c, l, Advance(k, op, c, s, l), obs)
  {
    hide Overlay, RevokeGrants, RevokeRequests, HasActiveGrant, PendingOf, InstancesWith, Allowed, Printed, Ordered,
      ReadVersion, LivePath, LivePaths, ValidApplication, TokenLive, Checked, StartProbing;
    Rewrites(op, k, c, s, l);
    var listed := Ordered(LivePaths(s));
    AssignedSorted(l.pc.row.allowed, listed);
    SortedDistinct(Assigned(l.pc.row.allowed, listed));
    var seen := l.(obs := l.obs.(listed := Some(LivePaths(s))));
    KeepsStartProbing(op, l.pc.app, l.pc.row, Assigned(l.pc.row.allowed, listed), NewAccess, c, seen, obs);
  }

  lemma KeepsFinding(k: Provider, op: Op, c: Tables, s: Secrets, l: Local, obs: Obs)
    requires Shape(op, c, l) && op.PollOp? && StoredSorted(c) && l.pc.Finding?
    ensures Keeps(op, c, l, Advance(k, op, c, s, l), obs)
  {
    hide Overlay, RevokeGrants, RevokeRequests, HasActiveGrant, PendingOf, InstancesWith, Allowed, Printed, Ordered,
      ReadVersion, LivePath, LivePaths, ValidApplication, TokenLive, Checked, StartProbing;
    Rewrites(op, k, c, s, l);
    if HandleOf(c, l.pc.app, op.handle) {
      var i := c.instances[op.handle];
      SortedDistinct(i.paths);
      KeepsStartProbing(op, l.pc.app, l.pc.row, i.paths, Report(i.request, c.requests[i.request].status), c, l, obs);
    }
  }

  lemma NextElement(paths: seq<string>, i: nat)
    requires i < |paths| && Distinct(paths)
    ensures paths[i] !in Elements(paths[..i])
    ensures Elements(paths[..i + 1]) == Elements(paths[..i]) + {paths[i]}
  {
    assert paths[..i + 1] == paths[..i] + [paths[i]];
  }

  lemma NoElements(paths: seq<string>)
    ensures Elements(paths[..0]) == {}
  {
  }

  lemma ProbedStep(c: Tables, a: AppId, paths: seq<string>, i: nat, op: Op, then_: Then, obs: Obs)
    requires i < |paths| && Fits(op, then_)
    ensures Probed(c, a, paths, i, op, then_, obs)
         == if Present(obs, paths[i]) then Probed(c, a, paths, i + 1, op, then_, obs) else Fail(c, NotFound)
  {
  }

  lemma ProbedEnd(c: Tables, a: AppId, paths: seq<string>, op: Op, then_: Then, obs: Obs, st: Local)
    requires Fits(op, then_) && st.pc == NextProbe(op, a, paths, |paths|, then_) && st.delta == EMPTY
    ensures Rest(op, c, st, obs) == Probed(c, a, paths, |paths|, op, then_, obs)
  {
    OverlayNothing(c);
  }

  lemma ProbeStatement(k: Provider, op: Op, c: Tables, s: Secrets, l: Local)
    requires (op.AccessOp? || op.PollOp?) && l.pc.Probing? && l.pc.i < |l.pc.paths| && Fits(op, l.pc.then_)
    ensures var p := l.pc.paths[l.pc.i];
      var n := Advance(k, op, c, s, l);
      && n.obs == l.obs.(present := l.obs.present[p := LivePath(s, p)]) && n.delta == l.delta
      && n.pc == if LivePath(s, p) then NextProbe(op, l.pc.app, l.pc.paths, l.pc.i + 1, l.pc.then_) else Done(Failed(NotFound))
  {
    hide Overlay, LivePath, NextProbe;
    Rewrites(op, k, c, s, l);
  }

  lemma RestOfProbing(op: Op, c: Tables, l: Local, obs: Obs)
    requires (op.AccessOp? || op.PollOp?) && l.pc.Probing? && Fits(op, l.pc.then_)
    ensures Rest(op, c, l, obs) == Probed(c, l.pc.app, l.pc.paths, l.pc.i, op, l.pc.then_, obs)
  {
    hide Overlay, Probed;
  }

  lemma KeepsProbing(k: Provider, op: Op, c: Tables, s: Secrets, l: Local, obs: Obs)
    requires Shape(op, c, l) && (op.AccessOp? || op.PollOp?) && l.pc.Probing?
    ensures Keeps(op, c, l, Advance(k, op, c, s, l), obs)
  {
    hide Overlay, Advance, Rest, Probed, LivePath, Distinct, Elements;
    var Probing(a, paths, i, then_) := l.pc;
    var n := Advance(k, op, c, s, l);
    ProbeStatement(k, op, c, s, l);
    NextElement(paths, i);
    RestOfProbing(op, c, l, obs);
    assert n.obs.present.Keys == l.obs.present.Keys + {paths[i]};
    ProbedStep(c, a, paths, i, op, then_, obs);
    if n.pc.Probing? {
      RestOfProbing(op, c, n, obs);
    } else if n.pc == Done(Failed(NotFound)) {
      RestFailed(op, c, n, obs);
    } else {
      ProbedEnd(c, a, paths, op, then_, obs, n);
    }
  }

  lemma RestFailed(op: Op, c: Tables, l: Local, obs: Obs)
    requires l.pc.Done? && l.pc.answer.Failed?
    ensures Rest(op, c, l, obs) == Outcome(c, l.pc.answer)
  {
  }

  lemma KeepsExpiring(k: Provider, op: Op, c: Tables, s: Secrets, l: Local, obs: Obs)
    requires Shape(op, c, l) && (op.AccessOp? || op.PollOp?) && l.pc.Expiring?
    ensures Keeps(op, c, l, Advance(k, op, c, s, l), obs)
  {
    hide Overlay, RevokeGrants, RevokeRequests, RevokeTokens, ExpireGrants, HasCurrentGrant, HasActiveGrant,
      PendingOf, InstancesWith, Allowed, Printed, Ordered, LivePaths, ValidApplication, TokenLive;
    Rewrites(op, k, c, s, l);
  }

  lemma KeepsSearching(k: Provider, op: Op, c: Tables, s: Secrets, l: Local, obs: Obs)
    requires Shape(op, c, l) && (op.AccessOp? || op.PollOp?) && l.pc.Searching?
    ensures Keeps(op, c, l, Advance(k, op, c, s, l), obs)
  {
    hide Overlay, RevokeGrants, RevokeRequests, RevokeTokens, ExpireGrants, HasCurrentGrant, HasActiveGrant,
      PendingOf, InstancesWith, Allowed, Printed, Ordered, LivePaths, ValidApplication, TokenLive;
    Rewrites(op, k, c, s, l);
    NoElements(l.pc.paths);
  }

  lemma DeliveringStep(c: Tables, t: Tables, a: AppId, paths: seq<string>, i: nat, out: map<string, Values>,
      obs: Obs, v: Result<Values>)
    requires i < |paths| && paths[i] in obs.plain && obs.plain[paths[i]] == v
    ensures Delivering(c, t, a, paths, i, out, obs)
         == if v.Err? then Fail(c, v.error)
            else Delivering(c, Overlay(t, Logged([ReadEvent(a, paths[i])])), a, paths, i + 1, out[paths[i] := v.value], obs)
  {
  }

  lemma DeliveringEnd(c: Tables, t: Tables, a: AppId, paths: seq<string>, out: map<string, Values>, obs: Obs)
    ensures Delivering(c, t, a, paths, |paths|, out, obs) == Outcome(t, Delivered(out))
  {
  }

  lemma ReadStatement(k: Provider, op: Op, c: Tables, s: Secrets, l: Local)
    requires (op.AccessOp? || op.PollOp?) && l.pc.Reading? && l.pc.i < |l.pc.paths|
    ensures var p := l.pc.paths[l.pc.i];
      var v := ReadVersion(k, s, p, 0);
      var n := Advance(k, op, c, s, l);
      && n.obs == l.obs.(plain := l.obs.plain[p := v]) && n.delta == l.delta
      && n.pc == if v.Err? then Done(Failed(v.error)) else Noting(l.pc.app, l.pc.paths, l.pc.i, l.pc.out[p := v.value])
  {
    hide Overlay, ReadVersion;
    Rewrites(op, k, c, s, l);
  }

  /** What the transaction sees once the read just made has been logged. */
  ghost function Noted(c: Tables, l: Local): Tables
    requires l.pc.Noting? && l.pc.i < |l.pc.paths|
  {
    Overlay(Overlay(c, l.delta), Logged([ReadEvent(l.pc.app, l.pc.paths[l.pc.i])]))
  }

  lemma RestOfReading(op: Op, c: Tables, l: Local, obs: Obs)
    requires op.AccessOp? || op.PollOp?
    ensures l.pc.Reading? ==> Rest(op, c, l, obs) == Delivering(c, Overlay(c, l.delta), l.pc.app, l.pc.paths, l.pc.i, l.pc.out, obs)
    ensures l.pc.Noting? && l.pc.i < |l.pc.paths| ==>
              Rest(op, c, l, obs) == Delivering(c, Noted(c, l), l.pc.app, l.pc.paths, l.pc.i + 1, l.pc.out, obs)
  {
    hide Overlay, Delivering;
  }

  lemma KeepsReading(k: Provider, op: Op, c: Tables, s: Secrets, l: Local, obs: Obs)
    requires Shape(op, c, l) && (op.AccessOp? || op.PollOp?) && l.pc.Reading?
    ensures Keeps(op, c, l, Advance(k, op, c, s, l), obs)
  {
    hide Overlay, Advance, Rest, ReadVersion, Delivering, Distinct, Elements;
    var n := Advance(k, op, c, s, l);
    var p, v := l.pc.paths[l.pc.i], ReadVersion(k, s, l.pc.paths[l.pc.i], 0);
    ReadStatement(k, op, c, s, l);
    RestOfReading(op, c, l, obs);
    if n.pc.Noting? { RestOfReading(op, c, n, obs); } else { RestFailed(op, c, n, obs); }
    NextElement(l.pc.paths, l.pc.i);
    assert n.obs.plain.Keys == l.obs.plain.Keys + {p};
    if Extends(obs, n.obs) {
      DeliveringStep(c, Overlay(c, l.delta), l.pc.app, l.pc.paths, l.pc.i, l.pc.out, obs, v);
    }
  }

  lemma NoteStatement(k: Provider, op: Op, c: Tables, s: Secrets, l: Local)
    requires (op.AccessOp? || op.PollOp?) && l.pc.Noting? && l.pc.i < |l.pc.paths|
    ensures var n := Advance(k, op, c, s, l);
      && n.obs == l.obs && Overlay(c, n.delta) == Noted(c, l)
      && n.pc == NextRead(l.pc.app, l.pc.paths, l.pc.i + 1, l.pc.out)
  {
    hide Overlay;
    Rewrites(op, k, c, s, l);
  }

  lemma RestDelivered(op: Op, c: Tables, l: Local, obs: Obs)
    requires l.pc.Done? && !l.pc.answer.Failed?
    ensures Rest(op, c, l, obs) == Outcome(Overlay(c, l.delta), l.pc.answer)
  {
  }

  lemma KeepsNoting(k: Provider, op: Op, c: Tables, s: Secrets, l: Local, obs: Obs)
    requires Shape(op, c, l) && (op.AccessOp? || op.PollOp?) && l.pc.Noting?
    ensures Keeps(op, c, l, Advance(k, op, c, s, l), obs)
  {
    hide Overlay, Advance, Rest, Delivering, Distinct, Elements, Noted;
    var n := Advance(k, op, c, s, l);
    NoteStatement(k, op, c, s, l);
    RestOfReading(op, c, l, obs);
    RestOfReading(op, c, n, obs);
    if n.pc.Done? {
      RestDelivered(op, c, n, obs);
      DeliveringEnd(c, Noted(c, l), l.pc.app, l.pc.paths, l.pc.out, obs);
    }
  }

  lemma KeepsAsking(k: Provider, op: Op, c: Tables, s: Secrets, l: Local, obs: Obs)
    requires Shape(op, c, l) && op.AccessOp? && l.pc.Asking?
    ensures Keeps(op, c, l, Advance(k, op, c, s, l), obs)
  {
    hide Overlay, RevokeRequests, Allowed, Printed, Ordered;
    Rewrites(op, k, c, s, l);
  }

  lemma KeepsAnnouncing(k: Provider, op: Op, c: Tables, s: Secrets, l: Local, obs: Obs)
    requires Shape(op, c, l) && op.AccessOp? && l.pc.Announcing?
    ensures Keeps(op, c, l, Advance(k, op, c, s, l), obs)
  {
    hide Overlay, RevokeRequests, Allowed, Printed, Ordered;
    Rewrites(op, k, c, s, l);
  }

  lemma KeepsJoining(k: Provider, op: Op, c: Tables, s: Secrets, l: Local, obs: Obs)
    requires Shape(op, c, l) && op.AccessOp? && l.pc.Joining?
    ensures Keeps(op, c, l, Advance(k, op, c, s, l), obs)
  {
    hide Overlay, RevokeGrants, RevokeRequests, HasActiveGrant, PendingOf, InstancesWith, Allowed, Printed, Ordered,
      Assigned;
    Rewrites(op, k, c, s, l);
  }

  lemma KeepsComparing(k: Provider, op: Op, c: Tables, s: Secrets, l: Local, obs: Obs)
    requires Shape(op, c, l) && op.AccessOp? && l.pc.Comparing?
    ensures Keeps(op, c, l, Advance(k, op, c, s, l), obs)
  {
    hide Overlay, RevokeGrants, RevokeRequests, HasActiveGrant, PendingOf, InstancesWith, Allowed, Printed, Ordered,
      Assigned;
    Rewrites(op, k, c, s, l);
  }

  lemma KeepsDone(k: Provider, op: Op, c: Tables, s: Secrets, l: Local, obs: Obs)
    requires Shape(op, c, l) && l.pc.Done?
    ensures Keeps(op, c, l, Advance(k, op, c, s, l), obs)
  {
    hide Atomic, RestOfAccess, RestOfChange, Resolving, Locked, ShapeOfAccess, ShapeOfChange;
    Rewrites(op, k, c, s, l);
  }

  lemma RestAtStart(op: Op, c: Tables, obs: Obs)
    ensures Shape(op, c, BEGUN) && Rest(op, c, BEGUN, obs) == Atomic(c, op, obs)
  {
  }

  lemma KeepsStep(k: Provider, op: Op, c: Tables, s: Secrets, l: Local, obs: Obs)
    requires Shape(op, c, l) && StoredSorted(c)
    ensures Keeps(op, c, l, Advance(k, op, c, s, l), obs)
  {
    hide Keeps, Rest, Advance;
    if l.pc.Done? {
      KeepsDone(k, op, c, s, l, obs);
    } else if l.pc.Start? {
      KeepsStart(k, op, c, s, l, obs);
    } else if l.pc.Queued? {
      KeepsQueued(k, op, c, s, l, obs);
    } else if l.pc.Retiring? || l.pc.Issuing? {
      KeepsToken(k, op, c, s, l, obs);
    } else if l.pc.Editing? {
      KeepsEditing(k, op, c, s, l, obs);
    } else if l.pc.WithdrawingGrants? || l.pc.CancellingRequests? || l.pc.Logging? {
      KeepsWithdrawal(k, op, c, s, l, obs);
    } else if l.pc.Deciding? {
      KeepsDeciding(k, op, c, s, l, obs);
    } else if l.pc.Granting? || l.pc.Recording? {
      KeepsGranting(k, op, c, s, l, obs);
    } else if l.pc.Rechecking? {
      KeepsRecheck(k, op, c, s, l, obs);
    } else if l.pc.Listing? {
      KeepsListing(k, op, c, s, l, obs);
    } else if l.pc.Finding? {
      KeepsFinding(k, op, c, s, l, obs);
    } else if l.pc.Probing? {
      KeepsProbing(k, op, c, s, l, obs);
    } else if l.pc.Expiring? {
      KeepsExpiring(k, op, c, s, l, obs);
    } else if l.pc.Searching? {
      KeepsSearching(k, op, c, s, l, obs);
    } else if l.pc.Reading? {
      KeepsReading(k, op, c, s, l, obs);
    } else if l.pc.Noting? {
      KeepsNoting(k, op, c, s, l, obs);
    } else if l.pc.Asking? {
      KeepsAsking(k, op, c, s, l, obs);
    } else if l.pc.Announcing? {
      KeepsAnnouncing(k, op, c, s, l, obs);
    } else if l.pc.Joining? {
      KeepsJoining(k, op, c, s, l, obs);
    } else {
      KeepsComparing(k, op, c, s, l, obs);
    }
  }

  /** Whatever is observed later, what is left after some statements is still the whole atomic outcome. */
  lemma {:induction false} ReplayRest(k: Provider, op: Op, c: Tables, trace: seq<Secrets>, obs: Obs)
    requires StoredSorted(c)
    ensures Shape(op, c, Replay(k, op, c, trace))
    ensures Extends(obs, Replay(k, op, c, trace).obs) ==> Rest(op, c, Replay(k, op, c, trace), obs) == Atomic(c, op, obs)
  {
    hide Rest, Shape, Advance, Atomic;
    if trace == [] {
      RestAtStart(op, c, obs);
    } else {
      var init, last := trace[..|trace| - 1], trace[|trace| - 1];
      ReplayRest(k, op, c, init, obs);
      KeepsStep(k, op, c, last, Replay(k, op, c, init), obs);
    }
  }

  /** A transaction whose statements have all run has the answer and the tables of the atomic one. */
  lemma ReplayIsAtomic(k: Provider, op: Op, c: Tables, trace: seq<Secrets>)
    requires StoredSorted(c) && Replay(k, op, c, trace).pc.Done?
    ensures var l := Replay(k, op, c, trace);
      var o := Atomic(c, op, l.obs);
      && o.answer == l.pc.answer
      && o.tables == if o.answer.Failed? then c else Overlay(c, l.delta)
  {
    hide Replay, Atomic, Shape;
    ReplayRest(k, op, c, trace, Replay(k, op, c, trace).obs);
  }
}
