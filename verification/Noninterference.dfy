/**
 * Applications do not disturb one another: leaving out of a run every protocol call of the other
 * applications changes no answer that remains.
 */
module Noninterference {
  import opened Results
  import opened Envelopes
  import opened Vault
  import opened Database
  import opened Protocol
  import opened Locality
  import opened Effects
  import opened Invariants
  import opened History
  import opened Runs
  import opened Text

  /** Creations, secret operations, and the protocol calls that lock application `a`. */
  ghost predicate Kept(w: World, c: Call, a: AppId) {
    c.Lock? ==> Locate(w.tables, c.op) == Ok(a)
  }

  ghost function Purge(k: Provider, h: seq<Call>, a: AppId): seq<Call> {
    if h == [] then []
    else
      var n := |h| - 1;
      Purge(k, h[..n], a) + if Kept(Run(k, h[..n]), h[n], a) then [h[n]] else []
  }

  /** The rows of `a` are the same, the names of all applications are, and `u` has no row of its own. */
  ghost predicate Alike(t: Tables, u: Tables, a: AppId) {
    && Slice(t, a) == Slice(u, a)
    && SameNames(t, u)
    && u.tokens.Keys <= t.tokens.Keys && u.requests.Keys <= t.requests.Keys
    && u.instances.Keys <= t.instances.Keys && u.grants.Keys <= t.grants.Keys
  }

  ghost predicate SameNames(t: Tables, u: Tables) {
    && t.apps.Keys == u.apps.Keys
    && forall b | b in t.apps :: t.apps[b].name == u.apps[b].name && t.apps[b].environment == u.apps[b].environment
  }

  // ---- a call of `a` cannot tell the two databases apart ----

  lemma SameActive(t: Tables, u: Tables, a: AppId)
    requires Slice(t, a) == Slice(u, a)
    ensures ActiveOf(t, a) == ActiveOf(u, a)
  {
    SetsFromSlice(t, a);
    SetsFromSlice(u, a);
  }

  lemma SameLocate(t: Tables, u: Tables, a: AppId, op: Op)
    requires Alike(t, u, a) && Locate(t, op) == Ok(a)
    ensures Locate(u, op) == Ok(a)
  {
    if op.AccessOp? || op.PollOp? {
      assert Sha256(op.token) in OwnTokens(t, a) && Sha256(op.token) in OwnTokens(u, a);
    } else if op.ResolveOp? {
      SameRequests(t, u, a, op.request);
    }
  }

  lemma SameJoin(t: Tables, u: Tables, a: AppId, op: Op, paths: seq<string>)
    requires Alike(t, u, a) && op.AccessOp? && Fresh(t, op) && Linked(t) && Linked(u)
    ensures JoinWrites(t, a, paths, op) == JoinWrites(u, a, paths, op)
    ensures HandleFor(t, a, op) == HandleFor(u, a, op) && ApprovalFor(t, a, op) == ApprovalFor(u, a, op)
    ensures JoinClosed(t, a, paths, op).answer == JoinClosed(u, a, paths, op).answer
  {
    hide Slice, Alike;
    assert Slice(t, a) == Slice(u, a) by { AlikeSlices(t, u, a); }
    SamePending(t, u, a);
    var approval, key := ApprovalFor(t, a, op), KeyOf(op);
    if PendingOf(t, a) != {} {
      PickedRequest(t, a);
      SameInstances(t, u, a, approval, key);
      if InstancesWith(t, approval, key) != {} {
        assert HandleFor(t, a, op) in InstancesWith(t, approval, key);
        SameHandles(t, u, a, HandleFor(t, a, op));
      }
    } else {
      NoInstances(t, op.ids.request, key);
      AlikeKeys(t, u, a);
      NoInstances(u, op.ids.request, key);
    }
  }

  lemma AlikeSlices(t: Tables, u: Tables, a: AppId)
    requires Alike(t, u, a)
    ensures Slice(t, a) == Slice(u, a)
  {
  }

  lemma AlikeKeys(t: Tables, u: Tables, a: AppId)
    requires Alike(t, u, a)
    ensures u.requests.Keys <= t.requests.Keys
  {
  }

  lemma NoInstances(t: Tables, request: string, key: string)
    requires Linked(t) && request !in t.requests
    ensures InstancesWith(t, request, key) == {}
  {
  }

  /** The two outcomes give the same answer and write the same rows, all of them rows of `a`. */
  ghost predicate Twins(o: Outcome, p: Outcome, t: Tables, u: Tables, a: AppId) {
    o.answer == p.answer && exists rows :: SameRows(o, p, t, u, a, rows)
  }

  ghost predicate SameRows(o: Outcome, p: Outcome, t: Tables, u: Tables, a: AppId, rows: Tables) {
    && o.tables == Overlay(t, rows) && p.tables == Overlay(u, rows)
    && Private(t, rows, a) && Private(u, rows, a)
    && SameNames(t, o.tables) && SameNames(u, p.tables)
  }

  lemma NoRows(t: Tables, u: Tables, a: AppId, answer: Answer)
    ensures Twins(Outcome(t, answer), Outcome(u, answer), t, u, a)
  {
    OverlayNothing(t);
    OverlayNothing(u);
    assert SameRows(Outcome(t, answer), Outcome(u, answer), t, u, a, EMPTY);
  }

  lemma SomeRows(t: Tables, u: Tables, a: AppId, rows: Tables, answer: Answer)
    requires Private(t, rows, a) && Private(u, rows, a) && rows.apps == map[]
    ensures Twins(Outcome(Overlay(t, rows), answer), Outcome(Overlay(u, rows), answer), t, u, a)
  {
    hide Private;
    Unwritten(t);
    Unwritten(u);
    assert SameRows(Outcome(Overlay(t, rows), answer), Outcome(Overlay(u, rows), answer), t, u, a, rows);
  }

  lemma {:induction false} SameDelivering(t0: Tables, t: Tables, u0: Tables, u: Tables, a: AppId,
      paths: seq<string>, i: nat, out: map<string, Values>, obs: Obs)
    requires i <= |paths|
    ensures Delivering(t0, t, a, paths, i, out, obs).answer == Delivering(u0, u, a, paths, i, out, obs).answer
    decreases |paths| - i
  {
    if i < |paths| && ReadOf(obs, paths[i]).Ok? {
      var e := Logged([ReadEvent(a, paths[i])]);
      SameDelivering(t0, Overlay(t, e), u0, Overlay(u, e), a, paths, i + 1, out[paths[i] := ReadOf(obs, paths[i]).value], obs);
    }
  }

  /** Databases in which a call of `a` draws unused identifiers. */
  ghost predicate Ready(t: Tables, op: Op) {
    Valid(t) && Fresh(t, op)
  }

  lemma GrantedTwins(t: Tables, u: Tables, a: AppId, paths: seq<string>, op: Op, then_: Then, obs: Obs)
    requires Ready(t, op) && Ready(u, op) && Alike(t, u, a) && Fits(op, then_) && a in t.apps
    ensures Twins(Granted(t, a, paths, op, then_, obs), Granted(u, a, paths, op, then_, obs), t, u, a)
  {
    hide Granted, Valid, Alike, Fresh, Slice, Sound, Linked, Indefinite, Twins, Private, JoinClosed, JoinWrites,
      HandleFor, ApprovalFor, Delivering, ReadEvents, Overlay, Bundle;
    SoundParts(t);
    SoundParts(u);
    GrantedIsClosed(t, a, paths, op, then_, obs);
    GrantedIsClosed(u, a, paths, op, then_, obs);
    AlikeSlices(t, u, a);
    SameActive(t, u, a);
    if ActiveOf(t, a) != {} {
      SameDelivering(t, t, u, u, a, paths, 0, map[], obs);
      if AllReadable(obs, paths) {
        LoggedPrivate(t, a, ReadEvents(a, paths));
        LoggedPrivate(u, a, ReadEvents(a, paths));
        SomeRows(t, u, a, Logged(ReadEvents(a, paths)), Delivered(Bundle(obs, paths)));
      } else {
        NoRows(t, u, a, Granted(t, a, paths, op, then_, obs).answer);
      }
    } else if then_.NewAccess? {
      JoinTwins(t, u, a, paths, op);
    } else {
      NoRows(t, u, a, Closed(Revoked, op.handle, then_.approval));
    }
  }

  lemma LoggedPrivate(t: Tables, a: AppId, events: seq<Event>)
    ensures Private(t, Logged(events), a)
  {
  }

  lemma JoinTwins(t: Tables, u: Tables, a: AppId, paths: seq<string>, op: Op)
    requires Ready(t, op) && Ready(u, op) && Alike(t, u, a) && op.AccessOp? && a in t.apps
    ensures Twins(JoinClosed(t, a, paths, op), JoinClosed(u, a, paths, op), t, u, a)
  {
    hide Valid, Alike, Fresh, Sound, Linked, Indefinite, Twins, Private, JoinWrites, HandleFor, ApprovalFor,
      InstancesWith, Overlay;
    SoundParts(t);
    SoundParts(u);
    SameJoin(t, u, a, op, paths);
    var answer := JoinClosed(t, a, paths, op).answer;
    if answer.Failed? {
      NoRows(t, u, a, answer);
    } else {
      AlikeApps(t, u, a);
      JoinPrivate(t, a, paths, op);
      JoinPrivate(u, a, paths, op);
      JoinWritesNoApps(t, a, paths, op);
      SomeRows(t, u, a, JoinWrites(t, a, paths, op), answer);
    }
  }

  lemma JoinWritesNoApps(t: Tables, a: AppId, paths: seq<string>, op: Op)
    requires op.AccessOp?
    ensures JoinWrites(t, a, paths, op).apps == map[]
  {
  }

  lemma AlikeApps(t: Tables, u: Tables, a: AppId)
    requires Alike(t, u, a)
    ensures t.apps.Keys == u.apps.Keys && (a in t.apps ==> t.apps[a] == u.apps[a])
  {
    SameApp(t, u, a);
  }

  lemma CheckedTwins(t: Tables, u: Tables, a: AppId, row: Application, paths: seq<string>, op: Op, then_: Then,
      obs: Obs)
    requires Ready(t, op) && Ready(u, op) && Alike(t, u, a) && Fits(op, then_) && a in t.apps
    ensures Twins(Checked(t, a, row, paths, op, then_, obs), Checked(u, a, row, paths, op, then_, obs), t, u, a)
  {
    hide Ready, Alike, Granted, Twins;
    if !AllAllowed(row.allowed, paths) {
      NoRows(t, u, a, Failed(Forbidden));
    } else if !AllPresent(obs, paths, 0) {
      NoRows(t, u, a, Failed(NotFound));
    } else if then_.NewAccess? || then_.status == Approved {
      GrantedTwins(t, u, a, paths, op, then_, obs);
    } else {
      NoRows(t, u, a, if then_.status == Pending then Waiting(op.handle, then_.approval, RETRY_AFTER) else Closed(then_.status, op.handle, then_.approval));
    }
  }

  lemma AccessTwins(t: Tables, u: Tables, op: Op, obs: Obs, a: AppId)
    requires Ready(t, op) && Ready(u, op) && Alike(t, u, a) && (op.AccessOp? || op.PollOp?)
    requires Prepare(op).Ok? && Locate(t, op) == Ok(a) && a in t.apps
    ensures Twins(Authenticated(t, a, t.apps[a], op, obs), Authenticated(u, a, t.apps[a], op, obs), t, u, a)
  {
    hide Ready, Alike, Checked, Twins, Slice, TokenLive, Locate, Prepare, Assigned, Ordered;
    AlikeSlices(t, u, a);
    SameTokens(t, u, a, Sha256(op.token));
    var row := t.apps[a];
    if !TokenLive(t, a, Sha256(op.token)) || !row.enabled {
      NoRows(t, u, a, Failed(Unauthorized));
    } else if op.PollOp? {
      SameHandles(t, u, a, op.handle);
      if HandleOf(t, a, op.handle) {
        var i := t.instances[op.handle];
        CheckedTwins(t, u, a, row, i.paths, op, Report(i.request, t.requests[i.request].status), obs);
      } else {
        NoRows(t, u, a, Failed(NotFound));
      }
    } else if op.paths == [] {
      var paths := Assigned(row.allowed, Ordered(if obs.listed.Some? then obs.listed.value else {}));
      NoRows(t, u, a, Failed(NotFound));
      CheckedTwins(t, u, a, row, paths, op, NewAccess, obs);
    } else {
      CheckedTwins(t, u, a, row, Prepare(op).value, op, NewAccess, obs);
    }
  }

  lemma ResolveTwins(t: Tables, u: Tables, op: Op, obs: Obs, a: AppId)
    requires Ready(t, op) && Ready(u, op) && Alike(t, u, a) && op.ResolveOp? && a in t.apps
    requires Locate(t, op) == Ok(a)
    ensures Twins(Resolving(t, a, t.apps[a], op), Resolving(u, a, t.apps[a], op), t, u, a)
  {
    hide Ready, Alike, Twins, Slice, Overlay, Private, Resolving, ResolveWrites;
    AlikeSlices(t, u, a);
    SameRequests(t, u, a, op.request);
    SameActive(t, u, a);
    ResolvingAnswers(t, op, a);
    AlikeApps(t, u, a);
    ResolvingAnswers(u, op, a);
    if Decidable(t, op) {
      assert ResolveWrites(t, a, op) == ResolveWrites(u, a, op) by { SameDecision(t, u, a, op); }
      SomeRows(t, u, a, ResolveWrites(t, a, op), Resolved);
    } else {
      NoRows(t, u, a, Failed(Conflict));
    }
  }

  lemma SameDecision(t: Tables, u: Tables, a: AppId, op: Op)
    requires op.ResolveOp? && op.request in t.requests && op.request in u.requests && t.requests[op.request] == u.requests[op.request]
    ensures ResolveWrites(t, a, op) == ResolveWrites(u, a, op)
  {
  }

  lemma ResolvingAnswers(t: Tables, op: Op, a: AppId)
    requires Ready(t, op) && op.ResolveOp? && Locate(t, op) == Ok(a) && a in t.apps
    ensures Resolving(t, a, t.apps[a], op)
         == if Decidable(t, op) then Outcome(Overlay(t, ResolveWrites(t, a, op)), Resolved) else Fail(t, Conflict)
    ensures ResolveWrites(t, a, op).apps == map[]
    ensures Decidable(t, op) ==> Private(t, ResolveWrites(t, a, op), a)
  {
    hide Valid, Overlay, ResolveWrites, Fresh;
    assert ResolveWrites(t, a, op).apps == map[] by { ResolveWritesNoApps(t, a, op); }
    SoundParts(t);
    ResolvingClosed(t, op, UNSEEN);
    if Decidable(t, op) {
      PendingMeansNoGrant(t, op);
      ResolvePrivate(t, op);
    }
  }

  lemma ResolveWritesNoApps(t: Tables, a: AppId, op: Op)
    requires op.ResolveOp?
    ensures ResolveWrites(t, a, op).apps == map[]
  {
  }

  lemma ChangeTwins(t: Tables, u: Tables, op: Op, obs: Obs, a: AppId)
    requires Ready(t, op) && Ready(u, op) && Alike(t, u, a) && op.ChangeOp? && a in t.apps && op.app == a
    ensures Twins(Atomic(t, op, obs), Atomic(u, op, obs), t, u, a)
  {
    hide Valid, Alike, Twins, Slice, Overlay, Private, Atomic, ChangeWrites, Changes;
    AlikeSlices(t, u, a);
    AlikeApps(t, u, a);
    ChangingClosed(t, op, obs);
    ChangingClosed(u, op, obs);
    if Changes(op) {
      SameChange(t, u, a, op);
      ChangePrivate(t, op);
      ChangePrivate(u, op);
      ChangeNames(t, op);
      ChangeNames(u, op);
      assert SameRows(Atomic(t, op, obs), Atomic(u, op, obs), t, u, a, ChangeWrites(t, a, op));
      TwinsBy(Atomic(t, op, obs), Atomic(u, op, obs), t, u, a, ChangeWrites(t, a, op));
    } else {
      NoRows(t, u, a, Failed(Invalid));
      ChangeRefused(t, op, obs);
      ChangeRefused(u, op, obs);
    }
  }

  lemma TwinsBy(o: Outcome, p: Outcome, t: Tables, u: Tables, a: AppId, rows: Tables)
    requires o.answer == p.answer && SameRows(o, p, t, u, a, rows)
    ensures Twins(o, p, t, u, a)
  {
    hide SameRows;
  }

  lemma ChangeRefused(t: Tables, op: Op, obs: Obs)
    requires op.ChangeOp? && op.app in t.apps && !Changes(op)
    ensures Atomic(t, op, obs) == Fail(t, Invalid)
  {
  }

  lemma SameChange(t: Tables, u: Tables, a: AppId, op: Op)
    requires op.ChangeOp? && a in t.apps && a in u.apps && t.apps[a] == u.apps[a] && Slice(t, a) == Slice(u, a)
    ensures ChangeWrites(t, a, op) == ChangeWrites(u, a, op)
  {
    hide Slice, RevokeTokens, RevokeGrants, RevokeRequests;
    SameTokens(t, u, a, Sha256(""));
    SameGrants(t, u, a, 0);
    SamePending(t, u, a);
  }

  lemma ChangeNames(t: Tables, op: Op)
    requires op.ChangeOp? && op.app in t.apps
    ensures SameNames(t, Overlay(t, ChangeWrites(t, op.app, op)))
  {
    Unwritten(t);
    var u := Overlay(t, ChangeWrites(t, op.app, op));
    assert u.apps.Keys == t.apps.Keys;
  }

  /** A call of `a` answers the same in both databases and writes the same rows to both. */
  lemma AtomicTwins(t: Tables, u: Tables, op: Op, obs: Obs, a: AppId)
    requires Ready(t, op) && Ready(u, op) && Alike(t, u, a) && Locate(t, op) == Ok(a)
    ensures Twins(Atomic(t, op, obs), Atomic(u, op, obs), t, u, a)
  {
    hide Ready, Alike, Twins, Authenticated, Resolving, Changing, Locate, Prepare;
    SameLocate(t, u, a, op);
    AlikeApps(t, u, a);
    if Prepare(op).Err? {
      NoRows(t, u, a, Failed(Prepare(op).error));
    } else if a !in t.apps {
      NoRows(t, u, a, Failed(Internal));
    } else if op.ResolveOp? {
      ResolveTwins(t, u, op, obs, a);
    } else if op.ChangeOp? {
      assert op.app == a by { LocatedChange(t, op); }
      ChangeTwins(t, u, op, obs, a);
    } else {
      AccessTwins(t, u, op, obs, a);
    }
  }

  lemma LocatedChange(t: Tables, op: Op)
    requires op.ChangeOp? && Locate(t, op).Ok?
    ensures Locate(t, op) == Ok(op.app)
  {
  }

  // ---- one call of the run ----

  lemma AlikeBoth(t: Tables, u: Tables, a: AppId, b: AppId, rows: Tables)
    requires Alike(t, u, a) && Linked(t) && Linked(u) && Private(t, rows, b) && Private(u, rows, b)
    requires SameNames(Overlay(t, rows), Overlay(u, rows))
    ensures Alike(Overlay(t, rows), Overlay(u, rows), a)
  {
    hide Slice, SameNames, Private, Linked;
    if a == b {
      SliceOverlay(t, rows, a);
      SliceOverlay(u, rows, a);
    } else {
      SliceElsewhere(t, rows, b, a);
      SliceElsewhere(u, rows, b, a);
    }
  }

  lemma AlikeOne(t: Tables, u: Tables, a: AppId, b: AppId, rows: Tables)
    requires Alike(t, u, a) && Linked(t) && Private(t, rows, b) && a != b && SameNames(t, Overlay(t, rows))
    ensures Alike(Overlay(t, rows), u, a)
  {
    hide Slice, Private, Linked;
    SliceElsewhere(t, rows, b, a);
  }

  lemma NamesTransitive(t: Tables, t': Tables, u: Tables, u': Tables)
    requires SameNames(t, t') && SameNames(u, u') && SameNames(t, u)
    ensures SameNames(t', u')
  {
  }

  lemma AlikeNames(t: Tables, u: Tables, a: AppId)
    requires Alike(t, u, a)
    ensures SameNames(t, u)
  {
  }

  /** The two worlds of a run and of its purged form. */
  ghost predicate Paired(w: World, v: World, a: AppId) {
    && Valid(w.tables) && Valid(v.tables) && Alike(w.tables, v.tables, a)
    && w.secrets == v.secrets
  }

  lemma FewerNames(w: World, v: World, c: Call, a: AppId)
    requires Alike(w.tables, v.tables, a) && w.secrets == v.secrets && FreshCall(w, c)
    ensures FreshCall(v, c)
  {
    hide Slice;
  }

  lemma DroppedCall(k: Provider, w: World, v: World, c: Call, a: AppId)
    requires Paired(w, v, a) && FreshCall(w, c) && !Kept(w, c, a)
    ensures Paired(Apply(k, w, c).world, v, a)
  {
    hide Valid, Alike, Atomic, Twins, Fresh, Locate, Slice, Prepare;
    var t := w.tables;
    ApplyValid(k, w, c);
    var located := Locate(t, c.op);
    if located.Ok? && Prepare(c.op).Ok? {
      AlikeSelf(t, located.value);
      AtomicTwins(t, t, c.op, c.obs, located.value);
      var rows := TwinRows(t, t, located.value, Atomic(t, c.op, c.obs), Atomic(t, c.op, c.obs));
      SoundParts(t);
      AlikeOne(t, v.tables, a, located.value, rows);
    } else {
      NotLocated(t, c.op, c.obs);
    }
  }

  lemma TwinRows(t: Tables, u: Tables, a: AppId, o: Outcome, p: Outcome) returns (rows: Tables)
    requires Twins(o, p, t, u, a)
    ensures SameRows(o, p, t, u, a, rows)
  {
    hide SameRows;
    rows :| SameRows(o, p, t, u, a, rows);
  }

  lemma NotLocated(t: Tables, op: Op, obs: Obs)
    requires Prepare(op).Err? || Locate(t, op).Err?
    ensures Atomic(t, op, obs).tables == t
  {
  }

  lemma AlikeSelf(t: Tables, a: AppId)
    ensures Alike(t, t, a)
  {
  }

  lemma KeptLock(k: Provider, w: World, v: World, c: Call, a: AppId)
    requires Paired(w, v, a) && FreshCall(w, c) && FreshCall(v, c) && Kept(w, c, a) && c.Lock?
    ensures Apply(k, w, c).answer == Apply(k, v, c).answer
    ensures Alike(Apply(k, w, c).world.tables, Apply(k, v, c).world.tables, a)
  {
    hide Valid, Alike, Atomic, Twins, Fresh, Locate, Slice, Private, SameNames, Overlay;
    var t, u := w.tables, v.tables;
    AtomicTwins(t, u, c.op, c.obs, a);
    var o, p := Atomic(t, c.op, c.obs), Atomic(u, c.op, c.obs);
    var rows := TwinRows(t, u, a, o, p);
    TwinAnswers(t, u, a, o, p);
    SoundParts(t);
    SoundParts(u);
    AlikeNames(t, u, a);
    NamesTransitive(t, o.tables, u, p.tables);
    AlikeBoth(t, u, a, a, rows);
  }

  lemma TwinAnswers(t: Tables, u: Tables, a: AppId, o: Outcome, p: Outcome)
    requires Twins(o, p, t, u, a)
    ensures o.answer == p.answer
  {
  }

  lemma KeptCreate(k: Provider, w: World, v: World, c: Call, a: AppId)
    requires Paired(w, v, a) && FreshCall(w, c) && FreshCall(v, c) && c.Create?
    ensures Apply(k, w, c).answer == Apply(k, v, c).answer
    ensures Alike(Apply(k, w, c).world.tables, Apply(k, v, c).world.tables, a)
  {
    hide Valid, Alike, Slice, Private, SameNames, Overlay, FreshCall;
    var t, u := w.tables, v.tables;
    AlikeNames(t, u, a);
    assert NameTaken(t, c.name, c.environment) == NameTaken(u, c.name, c.environment) by { TakenAlike(t, u, c.name, c.environment); }
    SoundParts(t);
    SoundParts(u);
    CreateIsPrivate(w, c);
    CreateIsPrivate(v, c);
    CreateNames(t, u, c);
    AlikeBoth(t, u, a, c.app, Registration(c));
  }

  lemma TakenAlike(t: Tables, u: Tables, name: string, environment: string)
    requires SameNames(t, u)
    ensures NameTaken(t, name, environment) == NameTaken(u, name, environment)
  {
  }

  lemma CreateIsPrivate(w: World, c: Call)
    requires c.Create? && FreshCall(w, c)
    ensures Private(w.tables, Registration(c), c.app)
  {
    CreatePrivate(w.tables, c);
  }

  lemma CreateNames(t: Tables, u: Tables, c: Call)
    requires c.Create? && SameNames(t, u)
    ensures SameNames(Overlay(t, Registration(c)), Overlay(u, Registration(c)))
  {
    assert Overlay(t, Registration(c)).apps.Keys == t.apps.Keys + {c.app};
    assert Overlay(u, Registration(c)).apps.Keys == u.apps.Keys + {c.app};
  }

  lemma KeptSecret(k: Provider, w: World, v: World, c: Call, a: AppId)
    requires Paired(w, v, a) && !c.Lock? && !c.Create?
    ensures Apply(k, w, c).answer == Apply(k, v, c).answer
    ensures Apply(k, w, c).world.secrets == Apply(k, v, c).world.secrets
    ensures Alike(Apply(k, w, c).world.tables, Apply(k, v, c).world.tables, a)
  {
    hide Valid, Alike, Apply, Overlay, Private, Linked, Slice, SameNames;
    var t, u := w.tables, v.tables;
    var e := SecretCallsLog(k, w, c);
    var f := SecretCallsLog(k, v, c);
    SameSecretReply(k, w, v, c);
    LogAlike(t, u, a, e, f);
  }

  lemma SameSecretReply(k: Provider, w: World, v: World, c: Call)
    requires w.secrets == v.secrets && !c.Lock? && !c.Create?
    ensures Apply(k, w, c).answer == Apply(k, v, c).answer
    ensures Apply(k, w, c).world.secrets == Apply(k, v, c).world.secrets
  {
    hide WriteVersion, ReadVersion;
  }

  lemma LoggedSlice(t: Tables, a: AppId, e: seq<Event>)
    ensures Slice(Overlay(t, Logged(e)), a) == Slice(t, a)
  {
    LoggedTables(t, e);
  }

  lemma LogAlike(t: Tables, u: Tables, a: AppId, e: seq<Event>, f: seq<Event>)
    requires Alike(t, u, a)
    ensures Alike(Overlay(t, Logged(e)), Overlay(u, Logged(f)), a)
  {
    hide Slice, Overlay;
    LoggedTables(t, e);
    LoggedTables(u, f);
    LoggedSlice(t, a, e);
    LoggedSlice(u, a, f);
  }

  lemma KeptCall(k: Provider, w: World, v: World, c: Call, a: AppId)
    requires Paired(w, v, a) && FreshCall(w, c) && Kept(w, c, a)
    ensures FreshCall(v, c) && Apply(k, w, c).answer == Apply(k, v, c).answer
    ensures Paired(Apply(k, w, c).world, Apply(k, v, c).world, a)
  {
    hide Valid, Alike, Apply, FreshCall, Kept;
    FewerNames(w, v, c, a);
    ApplyValid(k, w, c);
    ApplyValid(k, v, c);
    if c.Lock? {
      KeptLock(k, w, v, c, a);
      LockKeepsSecrets(k, w, c);
      LockKeepsSecrets(k, v, c);
    } else if c.Create? {
      KeptCreate(k, w, v, c, a);
      LockKeepsSecrets(k, w, c);
      LockKeepsSecrets(k, v, c);
    } else {
      KeptSecret(k, w, v, c, a);
    }
  }

  lemma LockKeepsSecrets(k: Provider, w: World, c: Call)
    requires c.Lock? || c.Create?
    ensures Apply(k, w, c).world.secrets == w.secrets
  {
  }

  // ---- whole runs ----

  lemma {:induction false} PurgedRun(k: Provider, h: seq<Call>, a: AppId)
    requires FreshRun(k, h)
    ensures FreshRun(k, Purge(k, h, a))
    ensures Paired(Run(k, h), Run(k, Purge(k, h, a)), a)
  {
    hide Apply, FreshCall, Kept, Paired;
    if h == [] {
      PairedInitially(a);
    } else {
      var n := |h| - 1;
      var g := Purge(k, h[..n], a);
      FreshPrefix(k, h, n);
      PurgedRun(k, h[..n], a);
      assert FreshCall(WorldAt(k, h, n), h[n]);
      if Kept(Run(k, h[..n]), h[n], a) {
        KeptCall(k, Run(k, h[..n]), Run(k, g), h[n], a);
        FreshSnoc(k, g, h[n]);
      } else {
        DroppedCall(k, Run(k, h[..n]), Run(k, g), h[n], a);
        assert g + [] == g;
      }
    }
  }

  lemma PairedInitially(a: AppId)
    ensures Paired(INITIAL, INITIAL, a)
  {
    AlikeSelf(EMPTY, a);
  }

  lemma {:induction false} PurgePrefix(k: Provider, h: seq<Call>, i: nat, a: AppId)
    requires i <= |h|
    ensures Purge(k, h[..i], a) <= Purge(k, h, a)
  {
    if i == |h| {
      assert h[..i] == h;
    } else {
      var n := |h| - 1;
      assert h[..n][..i] == h[..i];
      PurgePrefix(k, h[..n], i, a);
    }
  }

  /**
   * Leaving out every protocol call of the other applications: each call that remains meets the
   * same secrets and gives the same answer.
   */
  lemma AnswersUnchanged(k: Provider, h: seq<Call>, i: nat, a: AppId)
    requires FreshRun(k, h) && i < |h| && (h[i].Lock? ==> Locate(WorldAt(k, h, i).tables, h[i].op) == Ok(a))
    ensures FreshRun(k, Purge(k, h, a))
    ensures var g := Purge(k, h, a);
      var j := |Purge(k, h[..i], a)|;
      && j < |g| && g[j] == h[i]
      && AnswerAt(k, g, j) == AnswerAt(k, h, i)
      && WorldAt(k, g, j).secrets == WorldAt(k, h, i).secrets
  {
    hide Apply, FreshCall, FreshRun, Kept, Purge, Locate, Run;
    KeptMeans(WorldAt(k, h, i), h[i], a);
    PurgedRun(k, h, a);
    FreshPrefix(k, h, i);
    PurgedRun(k, h[..i], a);
    var g, j := Purge(k, h, a), |Purge(k, h[..i], a)|;
    InPlace(k, h, i, a);
    assert FreshCall(WorldAt(k, h, i), h[i]) by { FreshAt(k, h, i); }
    KeptCall(k, WorldAt(k, h, i), WorldAt(k, g, j), h[i], a);
  }

  lemma FreshAt(k: Provider, h: seq<Call>, i: nat)
    requires FreshRun(k, h) && i < |h|
    ensures FreshCall(WorldAt(k, h, i), h[i])
  {
    hide FreshCall, Run;
  }

  /** A call that remains comes right after those that remain of the calls before it. */
  lemma InPlace(k: Provider, h: seq<Call>, i: nat, a: AppId)
    requires i < |h| && Kept(WorldAt(k, h, i), h[i], a)
    ensures var g, j := Purge(k, h, a), |Purge(k, h[..i], a)|;
      j < |g| && g[j] == h[i] && g[..j] == Purge(k, h[..i], a)
  {
    hide Kept, Run, Purge;
    PurgePrefix(k, h, i + 1, a);
    PurgeSnoc(k, h, i, a);
    PrefixOf(Purge(k, h[..i], a), Purge(k, h[..i + 1], a), Purge(k, h, a));
  }

  lemma PrefixOf<T>(xs: seq<T>, ys: seq<T>, zs: seq<T>)
    requires xs <= ys <= zs
    ensures zs[..|xs|] == xs
  {
  }

  lemma KeptMeans(w: World, c: Call, a: AppId)
    ensures Kept(w, c, a) <==> (c.Lock? ==> Locate(w.tables, c.op) == Ok(a))
  {
  }

  /** And nothing else remains: every call left is one of the run that locks `a` or locks nothing, in its place. */
  lemma {:induction false} NothingElseRemains(k: Provider, h: seq<Call>, j: nat, a: AppId)
    requires j < |Purge(k, h, a)|
    ensures exists i: nat | i < |h| ::
              && Purge(k, h, a)[j] == h[i] && j == |Purge(k, h[..i], a)|
              && (h[i].Lock? ==> Locate(WorldAt(k, h, i).tables, h[i].op) == Ok(a))
  {
    hide Run, Locate;
    var n := |h| - 1;
    if j < |Purge(k, h[..n], a)| {
      NothingElseRemains(k, h[..n], j, a);
      var i: nat :| i < n && Purge(k, h[..n], a)[j] == h[..n][i] && j == |Purge(k, h[..n][..i], a)|
        && (h[..n][i].Lock? ==> Locate(WorldAt(k, h[..n], i).tables, h[..n][i].op) == Ok(a));
      assert h[..n][..i] == h[..i] && h[..n][i] == h[i];
    } else {
      assert Purge(k, h, a)[j] == h[n];
    }
  }

  lemma PurgeSnoc(k: Provider, h: seq<Call>, i: nat, a: AppId)
    requires i < |h| && Kept(WorldAt(k, h, i), h[i], a)
    ensures Purge(k, h[..i + 1], a) == Purge(k, h[..i], a) + [h[i]]
  {
    hide Kept, Run;
    assert h[..i + 1][..i] == h[..i];
  }

  // ---- handles ----

  /** A handle of another application and one that does not exist cannot be told apart. */
  lemma ForeignHandle(t: Tables, a: AppId, token: string, foreign: string, absent: string, now: int, obs: Obs)
    requires Locate(t, PollOp(token, foreign, now)) == Ok(a)
    requires !HandleOf(t, a, foreign) && absent !in t.instances
    ensures Atomic(t, PollOp(token, foreign, now), obs) == Atomic(t, PollOp(token, absent, now), obs)
    ensures a in t.apps && t.apps[a].enabled && TokenLive(t, a, Sha256(token)) ==>
              Atomic(t, PollOp(token, foreign, now), obs) == Fail(t, NotFound)
  {
  }
}
