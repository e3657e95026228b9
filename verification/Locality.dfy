/**
 * A transaction that holds an application's row lock reads and writes only that application's
 * rows, so it cannot tell how far other applications' transactions have got.
 */
module Locality {
  import opened Results
  import opened Envelopes
  import opened Vault
  import opened Database
  import opened Protocol
  import opened Statements
  import opened Paths

  // ---- the rows of one application ----

  ghost function OwnApps(t: Tables, a: AppId): map<AppId, Application> {
    map x | x in t.apps && x == a :: t.apps[x]
  }

  ghost function OwnTokens(t: Tables, a: AppId): map<Digest, Token> {
    map d | d in t.tokens && t.tokens[d].app == a :: t.tokens[d]
  }

  ghost function OwnRequests(t: Tables, a: AppId): map<string, Request> {
    map r | r in t.requests && t.requests[r].app == a :: t.requests[r]
  }

  ghost function OwnInstances(t: Tables, a: AppId): map<string, Instance> {
    map i | i in t.instances && HandleOf(t, a, i) :: t.instances[i]
  }

  ghost function OwnGrants(t: Tables, a: AppId): map<GrantId, Grant> {
    map g | g in t.grants && t.grants[g].app == a :: t.grants[g]
  }

  ghost function Slice(t: Tables, a: AppId): Tables {
    Tables(OwnApps(t, a), OwnTokens(t, a), OwnRequests(t, a), OwnInstances(t, a), OwnGrants(t, a), [])
  }

  /** Every instance belongs to a request (a foreign key). */
  ghost predicate Linked(t: Tables) {
    forall i | i in t.instances :: t.instances[i].request in t.requests
  }

  /** Writes that touch rows of application `a` only. */
  ghost predicate Private(t: Tables, w: Tables, a: AppId) {
    && w.apps.Keys <= {a}
    && (forall d | d in w.tokens :: w.tokens[d].app == a && (d in t.tokens ==> t.tokens[d].app == a))
    && (forall r | r in w.requests :: w.requests[r].app == a && (r in t.requests ==> t.requests[r].app == a))
    && (forall g | g in w.grants :: w.grants[g].app == a && (g in t.grants ==> t.grants[g].app == a))
    && (forall i | i in w.instances :: i !in t.instances && OwnRequest(t, w, w.instances[i].request, a))
  }

  ghost predicate OwnRequest(t: Tables, w: Tables, r: string, a: AppId) {
    if r in w.requests then w.requests[r].app == a else r in t.requests && t.requests[r].app == a
  }

  lemma OverlayParts(t: Tables, w: Tables)
    ensures var u := Overlay(t, w);
      && u.apps == t.apps + w.apps && u.tokens == t.tokens + w.tokens
      && u.requests == t.requests + w.requests && u.grants == t.grants + w.grants
  {
  }

  lemma AppsOverlay(t: Tables, w: Tables, a: AppId, b: AppId)
    requires w.apps.Keys <= {a}
    ensures OwnApps(Overlay(t, w), b) == if a == b then OwnApps(t, a) + w.apps else OwnApps(t, b)
  {
    hide Overlay;
    var u := Overlay(t, w);
    OverlayParts(t, w);
    forall x ensures x in OwnApps(u, b) <==> (x in OwnApps(t, b) || (a == b && x in w.apps)) {
    }
  }

  lemma TokensOverlay(t: Tables, w: Tables, a: AppId, b: AppId)
    requires forall d | d in w.tokens :: w.tokens[d].app == a && (d in t.tokens ==> t.tokens[d].app == a)
    ensures OwnTokens(Overlay(t, w), b) == if a == b then OwnTokens(t, a) + w.tokens else OwnTokens(t, b)
  {
    hide Overlay;
    var u := Overlay(t, w);
    OverlayParts(t, w);
    forall x ensures x in OwnTokens(u, b) <==> (x in OwnTokens(t, b) || (a == b && x in w.tokens)) {
    }
  }

  lemma RequestsOverlay(t: Tables, w: Tables, a: AppId, b: AppId)
    requires forall r | r in w.requests :: w.requests[r].app == a && (r in t.requests ==> t.requests[r].app == a)
    ensures OwnRequests(Overlay(t, w), b) == if a == b then OwnRequests(t, a) + w.requests else OwnRequests(t, b)
  {
    hide Overlay;
    var u := Overlay(t, w);
    OverlayParts(t, w);
    forall x ensures x in OwnRequests(u, b) <==> (x in OwnRequests(t, b) || (a == b && x in w.requests)) {
    }
  }

  lemma GrantsOverlay(t: Tables, w: Tables, a: AppId, b: AppId)
    requires forall g | g in w.grants :: w.grants[g].app == a && (g in t.grants ==> t.grants[g].app == a)
    ensures OwnGrants(Overlay(t, w), b) == if a == b then OwnGrants(t, a) + w.grants else OwnGrants(t, b)
  {
    hide Overlay;
    var u := Overlay(t, w);
    OverlayParts(t, w);
    forall x ensures x in OwnGrants(u, b) <==> (x in OwnGrants(t, b) || (a == b && x in w.grants)) {
    }
  }

  lemma HandlesOverlay(t: Tables, w: Tables, a: AppId, b: AppId, i: string)
    requires Linked(t) && Private(t, w, a)
    ensures HandleOf(Overlay(t, w), b, i) <==> HandleOf(t, b, i) || (a == b && i in w.instances)
  {
    var u := Overlay(t, w);
    if i in w.instances {
      assert i !in t.instances && OwnRequest(t, w, w.instances[i].request, a);
    } else if i in t.instances {
      assert u.instances[i] == t.instances[i] && t.instances[i].request in t.requests;
    }
  }

  lemma InstancesOverlay(t: Tables, w: Tables, a: AppId, b: AppId)
    requires Linked(t) && Private(t, w, a)
    ensures OwnInstances(Overlay(t, w), b) == if a == b then OwnInstances(t, a) + w.instances else OwnInstances(t, b)
  {
    hide HandleOf, Linked, OwnRequest;
    var u := Overlay(t, w);
    forall i ensures HandleOf(u, b, i) <==> HandleOf(t, b, i) || (a == b && i in w.instances) {
      HandlesOverlay(t, w, a, b, i);
    }
    forall i | HandleOf(u, b, i) ensures i in u.instances {
      HandleStored(u, b, i);
    }
    forall i | HandleOf(t, b, i) ensures i in t.instances {
      HandleStored(t, b, i);
    }
  }

  lemma HandleStored(t: Tables, a: AppId, i: string)
    requires HandleOf(t, a, i)
    ensures i in t.instances
  {
  }

  lemma LinkedOverlay(t: Tables, w: Tables, a: AppId)
    requires Linked(t) && Private(t, w, a)
    ensures Linked(Overlay(t, w))
  {
    var u := Overlay(t, w);
    forall i | i in u.instances ensures u.instances[i].request in u.requests {
      if i in w.instances { assert OwnRequest(t, w, w.instances[i].request, a); }
    }
  }

  lemma SliceOverlay(t: Tables, w: Tables, a: AppId)
    requires Linked(t) && Private(t, w, a)
    ensures Slice(Overlay(t, w), a) == Overlay(Slice(t, a), w.(audit := []))
    ensures Linked(Overlay(t, w))
  {
    LinkedOverlay(t, w, a);
    AppsOverlay(t, w, a, a);
    TokensOverlay(t, w, a, a);
    RequestsOverlay(t, w, a, a);
    GrantsOverlay(t, w, a, a);
    InstancesOverlay(t, w, a, a);
  }

  lemma SliceElsewhere(t: Tables, w: Tables, a: AppId, b: AppId)
    requires Linked(t) && Private(t, w, a) && a != b
    ensures Slice(Overlay(t, w), b) == Slice(t, b)
  {
    AppsOverlay(t, w, a, b);
    TokensOverlay(t, w, a, b);
    RequestsOverlay(t, w, a, b);
    GrantsOverlay(t, w, a, b);
    InstancesOverlay(t, w, a, b);
  }

  // ---- statements see only the slice ----

  lemma SameHandles(v: Tables, w: Tables, a: AppId, i: string)
    requires Slice(v, a) == Slice(w, a)
    ensures HandleOf(v, a, i) <==> HandleOf(w, a, i)
    ensures HandleOf(v, a, i) ==> v.instances[i] == w.instances[i]
    ensures HandleOf(v, a, i) ==> v.requests[v.instances[i].request] == w.requests[w.instances[i].request]
  {
    assert HandleOf(v, a, i) <==> i in OwnInstances(v, a);
    assert HandleOf(w, a, i) <==> i in OwnInstances(w, a);
    if HandleOf(v, a, i) {
      assert OwnInstances(v, a)[i] == OwnInstances(w, a)[i];
      assert v.instances[i].request in OwnRequests(v, a);
      assert OwnRequests(v, a)[v.instances[i].request] == OwnRequests(w, a)[v.instances[i].request];
    }
  }

  lemma SameRequests(v: Tables, w: Tables, a: AppId, r: string)
    requires Slice(v, a) == Slice(w, a) && r in v.requests && v.requests[r].app == a
    ensures r in w.requests && v.requests[r] == w.requests[r]
  {
    assert r in OwnRequests(v, a);
    assert OwnRequests(v, a)[r] == OwnRequests(w, a)[r];
  }

  lemma SameApp(v: Tables, w: Tables, a: AppId)
    requires Slice(v, a) == Slice(w, a)
    ensures a in v.apps <==> a in w.apps
    ensures a in v.apps ==> v.apps[a] == w.apps[a]
  {
    assert a in v.apps <==> a in OwnApps(v, a);
    assert a in w.apps <==> a in OwnApps(w, a);
    if a in v.apps { assert OwnApps(v, a)[a] == OwnApps(w, a)[a]; }
  }

  lemma SameTokens(v: Tables, w: Tables, a: AppId, d: Digest)
    requires Slice(v, a) == Slice(w, a)
    ensures TokenLive(v, a, d) <==> TokenLive(w, a, d)
    ensures RevokeTokens(v, a) == RevokeTokens(w, a)
  {
    var x, y := OwnTokens(v, a), OwnTokens(w, a);
    assert TokenLive(v, a, d) <==> d in x && x[d].live;
    assert TokenLive(w, a, d) <==> d in y && y[d].live;
    assert RevokeTokens(v, a) == map e | e in x && x[e].live :: x[e].(live := false);
    assert RevokeTokens(w, a) == map e | e in y && y[e].live :: y[e].(live := false);
  }

  lemma SameGrants(v: Tables, w: Tables, a: AppId, now: int)
    requires Slice(v, a) == Slice(w, a)
    ensures ExpireGrants(v, a, now) == ExpireGrants(w, a, now)
    ensures RevokeGrants(v, a) == RevokeGrants(w, a)
    ensures HasCurrentGrant(v, a, now) == HasCurrentGrant(w, a, now)
    ensures HasActiveGrant(v, a) == HasActiveGrant(w, a)
  {
    GrantRows(v, a, now);
    GrantRows(w, a, now);
  }

  lemma GrantRows(v: Tables, a: AppId, now: int)
    ensures var x := OwnGrants(v, a);
      && ExpireGrants(v, a, now)
         == (map g | g in x && x[g].status == Active && x[g].expires.Some? && x[g].expires.value <= now :: x[g].(status := Expired))
      && RevokeGrants(v, a) == (map g | g in x && x[g].status == Active :: x[g].(status := Withdrawn))
      && (HasCurrentGrant(v, a, now) <==> exists g | g in x :: GrantCurrent(x[g], now))
      && (HasActiveGrant(v, a) <==> exists g | g in x :: x[g].status == Active)
  {
    var x := OwnGrants(v, a);
    if HasCurrentGrant(v, a, now) {
      var g :| g in v.grants && v.grants[g].app == a && GrantCurrent(v.grants[g], now);
      assert g in x && GrantCurrent(x[g], now);
    }
    if HasActiveGrant(v, a) {
      var g :| g in v.grants && v.grants[g].app == a && v.grants[g].status == Active;
      assert g in x && x[g].status == Active;
    }
  }

  lemma SamePending(v: Tables, w: Tables, a: AppId)
    requires Slice(v, a) == Slice(w, a)
    ensures PendingOf(v, a) == PendingOf(w, a)
    ensures RevokeRequests(v, a) == RevokeRequests(w, a)
  {
    var x, y := OwnRequests(v, a), OwnRequests(w, a);
    assert PendingOf(v, a) == set r | r in x && x[r].status == Pending;
    assert PendingOf(w, a) == set r | r in y && y[r].status == Pending;
    assert RevokeRequests(v, a) == map r | r in x && x[r].status in {Approved, Pending} :: x[r].(status := Revoked);
    assert RevokeRequests(w, a) == map r | r in y && y[r].status in {Approved, Pending} :: y[r].(status := Revoked);
  }

  lemma SameInstances(v: Tables, w: Tables, a: AppId, r: string, key: string)
    requires Slice(v, a) == Slice(w, a) && r in v.requests && v.requests[r].app == a
    ensures InstancesWith(v, r, key) == InstancesWith(w, r, key)
  {
    SameRequests(v, w, a, r);
    forall i ensures i in InstancesWith(v, r, key) <==> i in InstancesWith(w, r, key) {
      SameHandles(v, w, a, i);
    }
  }

  /** What the program position refers to belongs to the application it has locked. */
  ghost predicate Owned(op: Op, pc: Pc, view: Tables, a: AppId) {
    && !pc.Start? && Suits(op, pc) && (pc.Done? || pc.app == a)
    && (op.ResolveOp? ==> op.request in view.requests && view.requests[op.request].app == a)
    && (pc.Announcing? || pc.Joining? ==> pc.approval in view.requests && view.requests[pc.approval].app == a)
    && (pc.Comparing? ==> HandleOf(view, a, pc.handle))
  }

  lemma LocalAccess(k: Provider, op: Op, pc: Pc, v: Tables, w: Tables, s: Secrets, obs: Obs, a: AppId)
    requires Slice(v, a) == Slice(w, a) && Owned(op, pc, v, a) && (op.AccessOp? || op.PollOp?)
    ensures ExecAccess(k, op, pc, v, s, obs) == ExecAccess(k, op, pc, w, s, obs)
  {
    SameTokens(v, w, a, Sha256(op.token));
    SameGrants(v, w, a, op.now);
    SamePending(v, w, a);
    if pc.Finding? && op.PollOp? { SameHandles(v, w, a, op.handle); }
    if pc.Joining? && op.AccessOp? { SameInstances(v, w, a, pc.approval, KeyOf(op)); }
    if pc.Comparing? { SameHandles(v, w, a, pc.handle); }
  }

  /** One statement gives the same result over any two databases with the same slice. */
  lemma LocalStatement(k: Provider, op: Op, pc: Pc, v: Tables, w: Tables, s: Secrets, obs: Obs, a: AppId)
    requires Slice(v, a) == Slice(w, a) && Owned(op, pc, v, a)
    ensures Exec(k, op, pc, v, s, obs) == Exec(k, op, pc, w, s, obs)
  {
    hide Slice, ExecAccess, RevokeTokens, RevokeGrants, RevokeRequests, HasActiveGrant, ExpireGrants,
      HasCurrentGrant, PendingOf, ValidApplication;
    SameApp(v, w, a);
    SameTokens(v, w, a, Sha256(""));
    SameGrants(v, w, a, 0);
    SamePending(v, w, a);
    if op.ResolveOp? { SameRequests(v, w, a, op.request); }
    if op.AccessOp? || op.PollOp? { LocalAccess(k, op, pc, v, w, s, obs, a); }
  }

  // ---- a transaction writes only its own application's rows ----

  /** Past the lock a transaction is about application `a` only. */
  ghost predicate Confined(op: Op, c: Tables, l: Local, a: AppId) {
    && Private(c, l.delta, a)
    && Owned(op, l.pc, Overlay(c, l.delta), a)
  }

  /** One statement's writes, on top of earlier ones. */
  ghost predicate Harmless(c: Tables, d: Tables, w: Tables, a: AppId) {
    && w.apps.Keys <= {a}
    && (forall x | x in w.tokens :: w.tokens[x].app == a && (x in c.tokens ==> c.tokens[x].app == a))
    && (forall x | x in w.requests :: w.requests[x].app == a && (x in c.requests ==> c.requests[x].app == a))
    && (forall x | x in w.grants :: w.grants[x].app == a && (x in c.grants ==> c.grants[x].app == a))
    && (forall x | x in w.instances :: x !in c.instances && OwnRequest(c, d, w.instances[x].request, a))
  }

  lemma PrivateOverlay(c: Tables, d: Tables, w: Tables, a: AppId)
    requires Private(c, d, a) && Harmless(c, d, w, a)
    ensures Private(c, Overlay(d, w), a)
  {
    var u := Overlay(d, w);
    forall r | OwnRequest(c, d, r, a) ensures OwnRequest(c, u, r, a) {
    }
    forall i | i in u.instances ensures i !in c.instances && OwnRequest(c, u, u.instances[i].request, a) {
    }
  }

  lemma UpdatesHarmless(c: Tables, d: Tables, a: AppId, now: int)
    requires Private(c, d, a)
    ensures var v := Overlay(c, d);
      && Harmless(c, d, Grants(ExpireGrants(v, a, now)), a)
      && Harmless(c, d, Grants(RevokeGrants(v, a)), a)
      && Harmless(c, d, Requests(RevokeRequests(v, a)), a)
      && Harmless(c, d, Tokens(RevokeTokens(v, a)), a)
      && Harmless(c, d, EMPTY, a)
  {
  }

  /** The one new row a transaction may insert at this position. */
  ghost predicate Insertion(op: Op, pc: Pc, v: Tables, a: AppId, w: Tables) {
    || (pc.Asking? && op.AccessOp? && w == NewRequest(op.ids.request, a))
    || (pc.Joining? && op.AccessOp? && w == NewInstance(op.ids.instance, pc.approval, KeyOf(op), pc.paths))
    || (op.ResolveOp? && w == NewGrant(a, op))
    || (op.ResolveOp? && w == Requests(Decide(v, op)))
    || (op.ChangeOp? && op.action.Rotate? && w == NewToken(a, op.newToken))
    || (op.ChangeOp? && a in v.apps && w == Apps(map[a := Edited(v.apps[a], op.action)]))
    || (exists e :: w == Logged([e]))
  }

  ghost predicate Update(op: Op, v: Tables, a: AppId, w: Tables) {
    || w == EMPTY
    || w == Grants(RevokeGrants(v, a))
    || w == Requests(RevokeRequests(v, a))
    || w == Tokens(RevokeTokens(v, a))
    || ((op.AccessOp? || op.PollOp?) && w == Grants(ExpireGrants(v, a, op.now)))
  }

  lemma PossibleAccessWrites(k: Provider, op: Op, pc: Pc, v: Tables, s: Secrets, obs: Obs, a: AppId)
    requires Owned(op, pc, v, a) && (op.AccessOp? || op.PollOp?)
    ensures var w := ExecAccess(k, op, pc, v, s, obs).writes; Insertion(op, pc, v, a, w) || Update(op, v, a, w)
  {
    hide ReadVersion, LivePath, LivePaths, Assigned, AllAllowed, Normalize, HandleOf, TokenLive, PendingOf,
      InstancesWith, HasCurrentGrant, ExpireGrants, Printed, RevokeGrants, RevokeRequests, RevokeTokens, Decide;
  }

  lemma PossibleWrites(k: Provider, op: Op, pc: Pc, v: Tables, s: Secrets, obs: Obs, a: AppId)
    requires Owned(op, pc, v, a)
    ensures var w := Exec(k, op, pc, v, s, obs).writes; Insertion(op, pc, v, a, w) || Update(op, v, a, w)
  {
    if op.AccessOp? || op.PollOp? { PossibleAccessWrites(k, op, pc, v, s, obs, a); }
  }

  lemma RequestHarmless(op: Op, c: Tables, d: Tables, a: AppId)
    requires Fresh(c, op) && op.AccessOp?
    ensures Harmless(c, d, NewRequest(op.ids.request, a), a)
  {
  }

  lemma InstanceHarmless(op: Op, c: Tables, d: Tables, a: AppId, r: string, paths: seq<string>)
    requires Fresh(c, op) && op.AccessOp? && Private(c, d, a)
    requires r in Overlay(c, d).requests && Overlay(c, d).requests[r].app == a
    ensures Harmless(c, d, NewInstance(op.ids.instance, r, KeyOf(op), paths), a)
  {
  }

  lemma DecisionHarmless(op: Op, c: Tables, d: Tables, a: AppId)
    requires Fresh(c, op) && op.ResolveOp? && Private(c, d, a)
    requires op.request in Overlay(c, d).requests && Overlay(c, d).requests[op.request].app == a
    ensures Harmless(c, d, NewGrant(a, op), a) && Harmless(c, d, Requests(Decide(Overlay(c, d), op)), a)
  {
  }

  lemma ChangeHarmless(op: Op, c: Tables, d: Tables, a: AppId, row: Application)
    requires Fresh(c, op) && op.ChangeOp?
    ensures op.action.Rotate? ==> Harmless(c, d, NewToken(a, op.newToken), a)
    ensures Harmless(c, d, Apps(map[a := row]), a)
  {
  }

  lemma InsertionHarmless(op: Op, pc: Pc, c: Tables, d: Tables, a: AppId, w: Tables)
    requires Fresh(c, op) && Private(c, d, a) && Owned(op, pc, Overlay(c, d), a)
    requires Insertion(op, pc, Overlay(c, d), a, w)
    ensures Harmless(c, d, w, a)
  {
    hide Overlay, Private, Harmless, Decide, NewRequest, NewInstance, NewGrant, NewToken, Apps, Requests, Fresh;
    var v := Overlay(c, d);
    if op.ResolveOp? {
      DecisionHarmless(op, c, d, a);
    } else if op.ChangeOp? {
      ChangeHarmless(op, c, d, a, if a in v.apps then Edited(v.apps[a], op.action) else Application("", "", false, []));
    } else if op.AccessOp? {
      RequestHarmless(op, c, d, a);
      if pc.Joining? { InstanceHarmless(op, c, d, a, pc.approval, pc.paths); }
    }
    if e :| w == Logged([e]) {
      LogHarmless(c, d, a, e);
    }
  }

  lemma LogHarmless(c: Tables, d: Tables, a: AppId, e: Event)
    ensures Harmless(c, d, Logged([e]), a)
  {
  }

  lemma ConfinedWrites(k: Provider, op: Op, c: Tables, s: Secrets, l: Local, a: AppId)
    requires Fresh(c, op) && Confined(op, c, l, a)
    ensures Harmless(c, l.delta, Exec(k, op, l.pc, Overlay(c, l.delta), s, l.obs).writes, a)
  {
    var v := Overlay(c, l.delta);
    var w := Exec(k, op, l.pc, v, s, l.obs).writes;
    PossibleWrites(k, op, l.pc, v, s, l.obs, a);
    if Insertion(op, l.pc, v, a, w) {
      InsertionHarmless(op, l.pc, c, l.delta, a, w);
    } else {
      UpdatesHarmless(c, l.delta, a, if op.AccessOp? || op.PollOp? then op.now else 0);
    }
  }

  lemma OwnedSurvives(c: Tables, d: Tables, w: Tables, a: AppId, r: string, i: string)
    requires Private(c, d, a) && Harmless(c, d, w, a)
    ensures var v := Overlay(c, d);
      && (r in v.requests && v.requests[r].app == a ==> r in Overlay(v, w).requests && Overlay(v, w).requests[r].app == a)
      && (HandleOf(v, a, i) ==> HandleOf(Overlay(v, w), a, i))
  {
  }

  lemma PickedRequest(v: Tables, a: AppId)
    requires PendingOf(v, a) != {}
    ensures var r := Pick(PendingOf(v, a)); r in v.requests && v.requests[r].app == a && v.requests[r].status == Pending
  {
  }

  lemma PickedInstance(v: Tables, a: AppId, r: string, key: string)
    requires InstancesWith(v, r, key) != {} && r in v.requests && v.requests[r].app == a
    ensures HandleOf(v, a, Pick(InstancesWith(v, r, key)))
  {
  }

  /** Where the reference held by the next position comes from. */
  ghost predicate Sourced(op: Op, pc: Pc, v: Tables, a: AppId, st: Step) {
    && !st.pc.Start? && Suits(op, st.pc) && (st.pc.Done? || st.pc.app == a)
    && (st.pc.Announcing? || st.pc.Joining? ==>
          || (pc.Asking? && PendingOf(v, a) != {} && st.pc.approval == Pick(PendingOf(v, a)))
          || (pc.Asking? && st.writes == NewRequest(op.ids.request, a) && st.pc.approval == op.ids.request)
          || (pc.Announcing? && st.pc.approval == pc.approval))
    && (st.pc.Comparing? ==>
          || (pc.Joining? && InstancesWith(v, pc.approval, KeyOf(op)) != {} && st.pc.handle == Pick(InstancesWith(v, pc.approval, KeyOf(op))))
          || (pc.Joining? && st.pc.handle == op.ids.instance && st.writes == NewInstance(op.ids.instance, pc.approval, KeyOf(op), pc.paths)))
  }

  lemma AccessPositions(k: Provider, op: Op, pc: Pc, v: Tables, s: Secrets, obs: Obs, a: AppId)
    requires Owned(op, pc, v, a) && (op.AccessOp? || op.PollOp?) && !pc.Queued? && !pc.Done?
    ensures Sourced(op, pc, v, a, ExecAccess(k, op, pc, v, s, obs))
  {
    hide ReadVersion, LivePath, LivePaths, Assigned, AllAllowed, Normalize, HandleOf, TokenLive, PendingOf,
      InstancesWith, HasCurrentGrant, ExpireGrants, Printed;
  }

  lemma Positions(k: Provider, op: Op, pc: Pc, v: Tables, s: Secrets, obs: Obs, a: AppId)
    requires Owned(op, pc, v, a)
    ensures Sourced(op, pc, v, a, Exec(k, op, pc, v, s, obs))
  {
    if (op.AccessOp? || op.PollOp?) && !pc.Queued? && !pc.Done? {
      AccessPositions(k, op, pc, v, s, obs, a);
    }
  }

  lemma InsertedRequest(op: Op, v: Tables, a: AppId)
    requires op.AccessOp?
    ensures var u := Overlay(v, NewRequest(op.ids.request, a));
      op.ids.request in u.requests && u.requests[op.ids.request].app == a
  {
  }

  lemma InsertedInstance(op: Op, v: Tables, a: AppId, r: string, paths: seq<string>)
    requires op.AccessOp? && r in v.requests && v.requests[r].app == a
    ensures HandleOf(Overlay(v, NewInstance(op.ids.instance, r, KeyOf(op), paths)), a, op.ids.instance)
  {
  }

  lemma ConfinedPosition(op: Op, c: Tables, d: Tables, pc: Pc, st: Step, a: AppId)
    requires Owned(op, pc, Overlay(c, d), a) && Private(c, d, a) && Harmless(c, d, st.writes, a)
    requires Sourced(op, pc, Overlay(c, d), a, st)
    ensures Owned(op, st.pc, Overlay(Overlay(c, d), st.writes), a)
  {
    hide Overlay, Private, Harmless, PendingOf, InstancesWith, HandleOf;
    var v := Overlay(c, d);
    if op.ResolveOp? {
      OwnedSurvives(c, d, st.writes, a, op.request, "");
    }
    if st.pc.Announcing? || st.pc.Joining? {
      if PendingOf(v, a) != {} { PickedRequest(v, a); }
      OwnedSurvives(c, d, st.writes, a, st.pc.approval, "");
      InsertedRequest(op, v, a);
    }
    if st.pc.Comparing? {
      if InstancesWith(v, pc.approval, KeyOf(op)) != {} { PickedInstance(v, a, pc.approval, KeyOf(op)); }
      OwnedSurvives(c, d, st.writes, a, pc.approval, st.pc.handle);
      InsertedInstance(op, v, a, pc.approval, pc.paths);
    }
  }

  lemma ConfinedStep(k: Provider, op: Op, c: Tables, s: Secrets, l: Local, a: AppId)
    requires Fresh(c, op) && Confined(op, c, l, a)
    ensures Confined(op, c, Advance(k, op, c, s, l), a)
  {
    var st := Exec(k, op, l.pc, Overlay(c, l.delta), s, l.obs);
    ConfinedWrites(k, op, c, s, l, a);
    PrivateOverlay(c, l.delta, st.writes, a);
    Positions(k, op, l.pc, Overlay(c, l.delta), s, l.obs, a);
    ConfinedPosition(op, c, l.delta, l.pc, st, a);
    OverlayAssociative(c, l.delta, st.writes);
  }

  lemma LookupConfined(k: Provider, op: Op, c: Tables, s: Secrets)
    ensures var l := Advance(k, op, c, s, BEGUN);
      && (l.pc.Queued? ==> Locate(c, op) == Ok(l.pc.app) && Confined(op, c, l, l.pc.app))
      && (l.pc.Queued? || (l.pc.Done? && l.pc.answer.Failed?))
      && (Prepare(op).Ok? && Locate(c, op).Ok? ==> l.pc.Queued?)
  {
    OverlayNothing(c);
    OverlayNothing(EMPTY);
  }

  /** From the lookup on, every write and every reference is the located application's own. */
  lemma {:induction false} ReplayConfined(k: Provider, op: Op, c: Tables, trace: seq<Secrets>, a: AppId)
    requires Fresh(c, op) && trace != [] && Locate(c, op) == Ok(a) && Prepare(op).Ok?
    ensures Confined(op, c, Replay(k, op, c, trace), a)
  {
    hide Confined, Advance, Fresh, Locate, Prepare;
    var init, last := trace[..|trace| - 1], trace[|trace| - 1];
    if init == [] {
      LookupConfined(k, op, c, last);
    } else {
      ReplayConfined(k, op, c, init, a);
      ConfinedStep(k, op, c, last, Replay(k, op, c, init), a);
    }
  }

  /** Replaying the statements over a database with the same slice gives the same transaction. */
  lemma {:induction false} ReplayLocal(k: Provider, op: Op, c: Tables, c': Tables, trace: seq<Secrets>, a: AppId)
    requires Fresh(c, op) && Fresh(c', op) && Linked(c) && Linked(c')
    requires Locate(c, op) == Ok(a) && Locate(c', op) == Ok(a)
    requires |trace| > 1 ==> Slice(c, a) == Slice(c', a)
    ensures Replay(k, op, c, trace) == Replay(k, op, c', trace)
  {
    hide Exec, Slice, Owned, Private, Fresh, Linked, Locate, Overlay, Prepare;
    if trace != [] {
      var init, last := trace[..|trace| - 1], trace[|trace| - 1];
      ReplayLocal(k, op, c, c', init, a);
      var l := Replay(k, op, c, init);
      if init == [] {
        SameLookup(k, op, c, c', last, a);
      } else if Prepare(op).Ok? {
        ReplayConfined(k, op, c, init, a);
        ReplayConfined(k, op, c', init, a);
        SliceOverlay(c, l.delta, a);
        SliceOverlay(c', l.delta, a);
        LocalStatement(k, op, l.pc, Overlay(c, l.delta), Overlay(c', l.delta), last, l.obs, a);
      } else {
        RefusedReplay(k, op, c, init);
        FinishedStays(k, op, c, last, l);
        FinishedStays(k, op, c', last, l);
      }
    }
  }

  lemma SameLookup(k: Provider, op: Op, c: Tables, c': Tables, s: Secrets, a: AppId)
    requires Locate(c, op) == Ok(a) && Locate(c', op) == Ok(a)
    ensures Advance(k, op, c, s, BEGUN) == Advance(k, op, c', s, BEGUN)
  {
    OverlayNothing(c);
    OverlayNothing(c');
  }

  lemma FinishedStays(k: Provider, op: Op, c: Tables, s: Secrets, l: Local)
    requires l.pc.Done?
    ensures Advance(k, op, c, s, l) == l
  {
    OverlayNothing(l.delta);
  }

  lemma {:induction false} RefusedReplay(k: Provider, op: Op, c: Tables, trace: seq<Secrets>)
    requires Prepare(op).Err? && trace != []
    ensures Replay(k, op, c, trace).pc.Done?
  {
    var init, last := trace[..|trace| - 1], trace[|trace| - 1];
    if init == [] {
      RefusedLookup(k, op, c, last);
    } else {
      RefusedReplay(k, op, c, init);
      FinishedStays(k, op, c, last, Replay(k, op, c, init));
    }
  }

  lemma RefusedLookup(k: Provider, op: Op, c: Tables, s: Secrets)
    requires Prepare(op).Err?
    ensures Advance(k, op, c, s, BEGUN).pc.Done?
  {
  }
}
