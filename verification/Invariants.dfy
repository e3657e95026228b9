/**
 * The invariant of the approval tables, and how each transaction moves an application's standing:
 * whether it is enabled, its pending request, its approved request and its active grant.
 */
module Invariants {
  import opened Results
  import opened Database
  import opened Protocol
  import opened Locality
  import opened Effects
  import opened Text
  import opened Paths

  datatype Standing = Standing(
    enabled: bool, pending: set<string>, approved: set<string>, active: set<GrantId>, live: set<Digest>)

  function ApprovedOf(t: Tables, a: AppId): set<string> {
    set r | r in t.requests && t.requests[r].app == a && t.requests[r].status == Approved
  }

  function LiveOf(t: Tables, a: AppId): set<Digest> {
    set d | d in t.tokens && t.tokens[d].app == a && t.tokens[d].live
  }

  function StandingOf(t: Tables, a: AppId): Standing
    requires a in t.apps
  {
    Standing(t.apps[a].enabled, PendingOf(t, a), ApprovedOf(t, a), ActiveOf(t, a), LiveOf(t, a))
  }

  ghost predicate AtMostOne<T(!new)>(s: set<T>) {
    forall x, y | x in s && y in s :: x == y
  }

  /** One pending request or one active grant, never both; approved requests go with active grants. */
  ghost predicate Orderly(s: Standing) {
    && AtMostOne(s.pending) && AtMostOne(s.approved) && AtMostOne(s.active) && AtMostOne(s.live)
    && (s.pending == {} || s.active == {})
    && (s.approved == {} <==> s.active == {})
    && (!s.enabled ==> s.pending == {} && s.approved == {} && s.active == {})
  }

  /** A path list that a request may carry. */
  ghost predicate Requestable(paths: seq<string>) {
    paths != [] && StrictlySorted(paths) && forall p | p in paths :: ValidPath(p)
  }

  /** Foreign keys, unique names, well-formed rows, and no expiring grants. */
  ghost predicate Sound(t: Tables) {
    && Linked(t) && Indefinite(t)
    && (forall i | i in t.instances :: Requestable(t.instances[i].paths))
    && (forall d | d in t.tokens :: t.tokens[d].app in t.apps)
    && (forall r | r in t.requests :: t.requests[r].app in t.apps)
    && (forall g | g in t.grants :: t.grants[g].app in t.apps)
    && (forall r | r in t.requests :: ResolverRecorded(t.requests[r]))
  }

  ghost predicate ResolverRecorded(r: Request) {
    && (r.status == Pending ==> r.resolvedBy.None?)
    && (r.status == Approved || r.status == Denied ==> r.resolvedBy.Some?)
  }

  ghost predicate Valid(t: Tables) {
    Sound(t) && forall a | a in t.apps :: Orderly(StandingOf(t, a))
  }

  // ---- other applications ----

  lemma StandingFromSlice(t: Tables, u: Tables, b: AppId)
    requires Slice(t, b) == Slice(u, b) && b in t.apps
    ensures b in u.apps && StandingOf(t, b) == StandingOf(u, b)
  {
    SameApp(t, u, b);
    SamePending(t, u, b);
    SetsFromSlice(t, b);
    SetsFromSlice(u, b);
  }

  lemma SetsFromSlice(t: Tables, b: AppId)
    ensures ApprovedOf(t, b) == set r | r in OwnRequests(t, b) && OwnRequests(t, b)[r].status == Approved
    ensures ActiveOf(t, b) == set g | g in OwnGrants(t, b) && OwnGrants(t, b)[g].status == Active
    ensures LiveOf(t, b) == set d | d in OwnTokens(t, b) && OwnTokens(t, b)[d].live
  {
  }

  /** Rows of one application do not show in another's standing. */
  lemma StandingElsewhere(t: Tables, w: Tables, a: AppId, b: AppId)
    requires Linked(t) && Private(t, w, a) && a != b && b in t.apps
    ensures b in Overlay(t, w).apps && StandingOf(Overlay(t, w), b) == StandingOf(t, b)
  {
    SliceElsewhere(t, w, a, b);
    StandingFromSlice(t, Overlay(t, w), b);
  }

  /** To stay valid it is enough that the rows are sound and the one application stays orderly. */
  lemma ValidAfter(t: Tables, w: Tables, a: AppId)
    requires Valid(t) && a in t.apps && Private(t, w, a) && Sound(Overlay(t, w))
    requires a in Overlay(t, w).apps && Orderly(StandingOf(Overlay(t, w), a))
    ensures Valid(Overlay(t, w))
  {
    var u := Overlay(t, w);
    forall b | b in u.apps ensures Orderly(StandingOf(u, b)) {
      if b != a { StandingElsewhere(t, w, a, b); }
    }
  }

  // ---- events only ----

  lemma LoggedStanding(t: Tables, e: seq<Event>, a: AppId)
    requires Valid(t)
    ensures Valid(Overlay(t, Logged(e)))
    ensures Overlay(t, Logged(e)).apps == t.apps
    ensures forall b | b in t.apps :: StandingOf(Overlay(t, Logged(e)), b) == StandingOf(t, b)
    ensures Private(t, Logged(e), a)
  {
    hide Sound, Orderly, PendingOf, ApprovedOf, ActiveOf, LiveOf, Overlay;
    var u := Overlay(t, Logged(e));
    LoggedTables(t, e);
    LoggedSound(t, e);
    forall b | b in t.apps ensures StandingOf(u, b) == StandingOf(t, b) {
      SameSets(t, u, b);
    }
  }

  lemma LoggedTables(t: Tables, e: seq<Event>)
    ensures var u := Overlay(t, Logged(e));
      u.apps == t.apps && u.tokens == t.tokens && u.requests == t.requests && u.instances == t.instances && u.grants == t.grants
  {
    Unwritten(t);
  }

  lemma LoggedSound(t: Tables, e: seq<Event>)
    requires Sound(t)
    ensures Sound(Overlay(t, Logged(e)))
  {
    hide Requestable, ResolverRecorded;
    LoggedTables(t, e);
  }

  // ---- a request starts waiting ----

  lemma JoinPrivate(t: Tables, a: AppId, paths: seq<string>, op: Op)
    requires op.AccessOp? && Fresh(t, op) && a in t.apps && Linked(t)
    ensures Private(t, JoinWrites(t, a, paths, op), a)
  {
    if PendingOf(t, a) != {} { PickedRequest(t, a); }
  }

  lemma JoinStanding(t: Tables, a: AppId, paths: seq<string>, op: Op)
    requires op.AccessOp? && Fresh(t, op) && a in t.apps
    ensures var u := Overlay(t, JoinWrites(t, a, paths, op));
      && u.apps == t.apps
      && StandingOf(u, a) == StandingOf(t, a).(pending := if PendingOf(t, a) == {} then {op.ids.request} else PendingOf(t, a))
  {
    var u := Overlay(t, JoinWrites(t, a, paths, op));
    Unwritten(t);
    assert PendingOf(u, a) == if PendingOf(t, a) == {} then {op.ids.request} else PendingOf(t, a);
    assert ApprovedOf(u, a) == ApprovedOf(t, a);
  }

  lemma JoinSound(t: Tables, a: AppId, paths: seq<string>, op: Op)
    requires op.AccessOp? && Fresh(t, op) && a in t.apps && Sound(t) && Requestable(paths)
    ensures Sound(Overlay(t, JoinWrites(t, a, paths, op)))
  {
    hide InstancesWith, PendingOf, Requestable;
    Unwritten(t);
    var u := Overlay(t, JoinWrites(t, a, paths, op));
    if PendingOf(t, a) != {} { PickedRequest(t, a); }
    forall i | i in u.instances ensures u.instances[i].request in u.requests && Requestable(u.instances[i].paths) {
    }
    forall r | r in u.requests ensures u.requests[r].app in u.apps && ResolverRecorded(u.requests[r]) {
    }
  }

  lemma JoinValid(t: Tables, a: AppId, paths: seq<string>, op: Op)
    requires op.AccessOp? && Fresh(t, op) && a in t.apps && Valid(t) && Requestable(paths)
    requires t.apps[a].enabled && ActiveOf(t, a) == {}
    ensures Valid(Overlay(t, JoinWrites(t, a, paths, op)))
  {
    JoinPrivate(t, a, paths, op);
    JoinStanding(t, a, paths, op);
    JoinSound(t, a, paths, op);
    assert Orderly(StandingOf(t, a));
    ValidAfter(t, JoinWrites(t, a, paths, op), a);
  }

  // ---- an administrator decides ----

  ghost predicate Decidable(t: Tables, op: Op)
    requires op.ResolveOp?
  {
    && op.request in t.requests && t.requests[op.request].app in t.apps
    && t.apps[t.requests[op.request].app].enabled && t.requests[op.request].status == Pending
  }

  /** Approving a pending request never meets an active grant. */
  lemma PendingMeansNoGrant(t: Tables, op: Op)
    requires op.ResolveOp? && Valid(t) && Decidable(t, op)
    ensures var a := t.requests[op.request].app;
      PendingOf(t, a) == {op.request} && ApprovedOf(t, a) == {} && ActiveOf(t, a) == {}
  {
    var a := t.requests[op.request].app;
    assert Orderly(StandingOf(t, a));
    assert op.request in PendingOf(t, a);
  }

  lemma ResolvePrivate(t: Tables, op: Op)
    requires op.ResolveOp? && Fresh(t, op) && Decidable(t, op)
    ensures Private(t, ResolveWrites(t, t.requests[op.request].app, op), t.requests[op.request].app)
  {
  }

  lemma ResolveStanding(t: Tables, op: Op)
    requires op.ResolveOp? && Fresh(t, op) && Valid(t) && Decidable(t, op)
    ensures var a := t.requests[op.request].app;
      var u := Overlay(t, ResolveWrites(t, a, op));
      && u.apps == t.apps
      && StandingOf(u, a) == StandingOf(t, a).(
           pending := {},
           approved := if op.approve then {op.request} else {},
           active := if op.approve then {op.grant} else {})
  {
    var a := t.requests[op.request].app;
    var u := Overlay(t, ResolveWrites(t, a, op));
    hide Valid, PendingOf, ApprovedOf, ActiveOf, LiveOf, Decide, Overlay, ResolveWrites, Fresh;
    PendingMeansNoGrant(t, op);
    ResolvedRows(t, op);
    SameSets(t, u, a);
    RequestDecided(t, op);
    GrantAdded(t, a, op);
  }

  lemma ResolvedRows(t: Tables, op: Op)
    requires op.ResolveOp? && Fresh(t, op) && Decidable(t, op)
    ensures var a := t.requests[op.request].app;
      var u := Overlay(t, ResolveWrites(t, a, op));
      && u.apps == t.apps && u.tokens == t.tokens && u.requests == t.requests + Decide(t, op)
      && u.grants == (if op.approve then t.grants + map[op.grant := Grant(a, Active, None, op.admin)] else t.grants)
      && op.grant !in t.grants
  {
    Unwritten(t);
  }

  lemma RequestDecided(t: Tables, op: Op)
    requires op.ResolveOp? && Decidable(t, op)
    ensures var a := t.requests[op.request].app;
      forall u: Tables | u.requests == t.requests + Decide(t, op) ::
        && PendingOf(u, a) == PendingOf(t, a) - {op.request}
        && ApprovedOf(u, a) == ApprovedOf(t, a) + if op.approve then {op.request} else {}
  {
    hide ValidPath;
    var a := t.requests[op.request].app;
    var decided := Decide(t, op);
    assert decided.Keys == {op.request} && decided[op.request].status == Decision(op.approve);
  }

  lemma GrantAdded(t: Tables, a: AppId, op: Op)
    requires op.ResolveOp? && op.grant !in t.grants
    ensures forall u: Tables | u.grants == t.grants + map[op.grant := Grant(a, Active, None, op.admin)] ::
              ActiveOf(u, a) == ActiveOf(t, a) + {op.grant}
  {
  }

  lemma ResolveSound(t: Tables, op: Op)
    requires op.ResolveOp? && Fresh(t, op) && Sound(t) && Decidable(t, op)
    ensures Sound(Overlay(t, ResolveWrites(t, t.requests[op.request].app, op)))
  {
    hide Sound, Decide;
    Unwritten(t);
    var a := t.requests[op.request].app;
    var u := Overlay(t, ResolveWrites(t, a, op));
    RevokedSound(t, a);
    DecidedSound(t, op);
    SoundBy(t, u);
  }

  lemma DecidedSound(t: Tables, op: Op)
    requires op.ResolveOp? && Sound(t) && Decidable(t, op)
    ensures SoundRequests(t.apps.Keys, t.requests + Decide(t, op))
  {
    hide Linked, Requestable;
  }

  lemma ResolveValid(t: Tables, op: Op)
    requires op.ResolveOp? && Fresh(t, op) && Valid(t) && Decidable(t, op)
    ensures Valid(Overlay(t, ResolveWrites(t, t.requests[op.request].app, op)))
  {
    hide ResolveWrites, Overlay, Private, Sound;
    var a := t.requests[op.request].app;
    ResolvePrivate(t, op);
    ResolveStanding(t, op);
    ResolveSound(t, op);
    assert Orderly(StandingOf(t, a));
    ValidAfter(t, ResolveWrites(t, a, op), a);
  }

  // ---- an administrator changes the application ----

  lemma ChangePrivate(t: Tables, op: Op)
    requires op.ChangeOp? && Fresh(t, op) && op.app in t.apps
    ensures Private(t, ChangeWrites(t, op.app, op), op.app)
  {
  }

  function EnabledAfter(enabled: bool, action: Action): bool {
    if action.Enable? then true else if action.Disable? then false else enabled
  }

  lemma ChangeStanding(t: Tables, op: Op)
    requires op.ChangeOp? && Fresh(t, op) && op.app in t.apps
    ensures var u := Overlay(t, ChangeWrites(t, op.app, op));
      && u.apps.Keys == t.apps.Keys
      && StandingOf(u, op.app).enabled == EnabledAfter(t.apps[op.app].enabled, op.action)
      && (op.action.Enable? ==> StandingOf(u, op.app) == StandingOf(t, op.app).(enabled := true))
      && (!op.action.Enable? ==> PendingOf(u, op.app) == {} && ApprovedOf(u, op.app) == {} && ActiveOf(u, op.app) == {})
      && LiveOf(u, op.app) == if op.action.Rotate? then {Sha256(op.newToken)} else LiveOf(t, op.app)
  {
    var a := op.app;
    var u := Overlay(t, ChangeWrites(t, a, op));
    Unwritten(t);
    assert u.apps.Keys == t.apps.Keys;
    ChangedSets(t, u, op);
  }

  lemma ChangedSets(t: Tables, u: Tables, op: Op)
    requires op.ChangeOp? && Fresh(t, op) && op.app in t.apps && u == Overlay(t, ChangeWrites(t, op.app, op))
    ensures PendingOf(u, op.app) == if op.action.Enable? then PendingOf(t, op.app) else {}
    ensures ApprovedOf(u, op.app) == if op.action.Enable? then ApprovedOf(t, op.app) else {}
    ensures ActiveOf(u, op.app) == if op.action.Enable? then ActiveOf(t, op.app) else {}
    ensures LiveOf(u, op.app) == if op.action.Rotate? then {Sha256(op.newToken)} else LiveOf(t, op.app)
  {
    hide Edited, PendingOf, ApprovedOf, ActiveOf, LiveOf, RevokeTokens, RevokeGrants, RevokeRequests;
    Unwritten(t);
    RequestsRevoked(t, op.app);
    GrantsRevoked(t, op.app);
    if op.action.Rotate? { TokensRevoked(t, op.app, Sha256(op.newToken)); }
    SameSets(t, u, op.app);
    var rows := t.(requests := t.requests + RevokeRequests(t, op.app), grants := t.grants + RevokeGrants(t, op.app));
    SameSets(rows, u, op.app);
    if op.action.Rotate? {
      SameSets(t.(tokens := t.tokens + RevokeTokens(t, op.app)[Sha256(op.newToken) := Token(op.app, true)]), u, op.app);
    }
  }

  /** Each part of a standing comes from one table. */
  lemma SameSets(t: Tables, u: Tables, a: AppId)
    ensures t.requests == u.requests ==> PendingOf(t, a) == PendingOf(u, a) && ApprovedOf(t, a) == ApprovedOf(u, a)
    ensures t.grants == u.grants ==> ActiveOf(t, a) == ActiveOf(u, a)
    ensures t.tokens == u.tokens ==> LiveOf(t, a) == LiveOf(u, a)
  {
  }

  lemma RequestsRevoked(t: Tables, a: AppId)
    ensures forall u: Tables | u.requests == t.requests + RevokeRequests(t, a) :: PendingOf(u, a) == {} && ApprovedOf(u, a) == {}
  {
  }

  lemma GrantsRevoked(t: Tables, a: AppId)
    ensures forall u: Tables | u.grants == t.grants + RevokeGrants(t, a) :: ActiveOf(u, a) == {}
  {
  }

  lemma TokensRevoked(t: Tables, a: AppId, d: Digest)
    ensures forall u: Tables | u.tokens == t.tokens + RevokeTokens(t, a)[d := Token(a, true)] :: LiveOf(u, a) == {d}
  {
    forall u: Tables | u.tokens == t.tokens + RevokeTokens(t, a)[d := Token(a, true)] ensures LiveOf(u, a) == {d} {
    }
  }

  lemma ChangeSound(t: Tables, op: Op)
    requires op.ChangeOp? && Fresh(t, op) && op.app in t.apps && Sound(t)
    ensures Sound(Overlay(t, ChangeWrites(t, op.app, op)))
  {
    hide Sound, Edited, RevokeTokens, RevokeGrants, RevokeRequests;
    Unwritten(t);
    var u := Overlay(t, ChangeWrites(t, op.app, op));
    assert u.apps.Keys == t.apps.Keys;
    RevokedSound(t, op.app);
    if op.action.Rotate? {
      TokensSound(t, op.app, Sha256(op.newToken));
    }
    SoundBy(t, u);
  }

  ghost predicate SoundTokens(apps: set<AppId>, tokens: map<Digest, Token>) {
    forall d | d in tokens :: tokens[d].app in apps
  }

  ghost predicate SoundRequests(apps: set<AppId>, requests: map<string, Request>) {
    forall r | r in requests :: requests[r].app in apps && ResolverRecorded(requests[r])
  }

  ghost predicate SoundGrants(apps: set<AppId>, grants: map<GrantId, Grant>) {
    forall g | g in grants :: grants[g].app in apps && grants[g].expires == None
  }

  lemma SoundBy(t: Tables, u: Tables)
    requires Sound(t) && u.instances == t.instances && t.requests.Keys <= u.requests.Keys
    requires SoundTokens(u.apps.Keys, u.tokens) && SoundRequests(u.apps.Keys, u.requests) && SoundGrants(u.apps.Keys, u.grants)
    ensures Sound(u)
  {
  }

  lemma RevokedSound(t: Tables, a: AppId)
    requires Sound(t)
    ensures SoundTokens(t.apps.Keys, t.tokens) && SoundRequests(t.apps.Keys, t.requests) && SoundGrants(t.apps.Keys, t.grants)
    ensures SoundRequests(t.apps.Keys, t.requests + RevokeRequests(t, a))
    ensures SoundGrants(t.apps.Keys, t.grants + RevokeGrants(t, a))
  {
    hide Linked, Requestable;
  }

  lemma TokensSound(t: Tables, a: AppId, d: Digest)
    requires Sound(t) && a in t.apps
    ensures SoundTokens(t.apps.Keys, t.tokens + RevokeTokens(t, a)[d := Token(a, true)])
  {
    hide Linked, Requestable;
  }

  lemma ChangeValid(t: Tables, op: Op)
    requires op.ChangeOp? && Fresh(t, op) && op.app in t.apps && Valid(t)
    ensures Valid(Overlay(t, ChangeWrites(t, op.app, op)))
  {
    hide ChangeWrites, Sound, Private;
    ChangePrivate(t, op);
    ChangeStanding(t, op);
    ChangeSound(t, op);
    assert Orderly(StandingOf(t, op.app));
    ValidAfter(t, ChangeWrites(t, op.app, op), op.app);
  }

  // ---- every transaction ----

  /** The paths that get past the checks can be stored. */
  lemma GatedRequestable(t: Tables, op: Op, obs: Obs, a: AppId, paths: seq<string>, then_: Then)
    requires Sound(t) && Gate(t, op, obs, a, paths, then_)
    ensures Requestable(paths)
  {
    if op.AccessOp? {
      if op.paths == [] {
        AssignedSorted(t.apps[a].allowed, Ordered(if obs.listed.Some? then obs.listed.value else {}));
      } else {
        SortCanonical(op.paths);
        assert op.paths[0] in Elements(Sort(op.paths));
        forall p | p in paths ensures ValidPath(p) {
          assert p in Elements(Sort(op.paths));
        }
      }
    }
  }

  lemma AccessValid(t: Tables, op: Op, obs: Obs)
    requires Valid(t) && Fresh(t, op) && (op.AccessOp? || op.PollOp?)
    ensures Valid(Atomic(t, op, obs).tables)
  {
    hide Atomic, Valid, Granted, Gate;
    var passed, a, paths, then_ := GateOrFail(t, op, obs);
    if passed {
      GatedValid(t, op, obs, a, paths, then_);
    }
  }

  lemma SoundParts(t: Tables)
    requires Valid(t)
    ensures Sound(t) && Linked(t) && Indefinite(t)
  {
  }

  lemma GatedValid(t: Tables, op: Op, obs: Obs, a: AppId, paths: seq<string>, then_: Then)
    requires Valid(t) && Fresh(t, op) && Gate(t, op, obs, a, paths, then_)
    ensures Valid(AfterGate(t, op, obs, a, paths, then_).tables)
  {
    hide Granted, Bundle, JoinWrites, Valid, Overlay, Requestable, AllReadable, AllPresent, AllAllowed, Allowed,
      Delivering, ActiveOf;
    assert Sound(t) && Linked(t) && Indefinite(t) by { SoundParts(t); }
    GatedRequestable(t, op, obs, a, paths, then_);
    GrantedIsClosed(t, a, paths, op, then_, obs);
    LoggedStanding(t, ReadEvents(a, paths), a);
    if op.AccessOp? && ActiveOf(t, a) == {} {
      JoinValid(t, a, paths, op);
    }
  }

  /** The invariant is kept by every Access, Poll, Resolve and ChangeApplication. */
  lemma AtomicValid(t: Tables, op: Op, obs: Obs)
    requires Valid(t) && Fresh(t, op)
    ensures Valid(Atomic(t, op, obs).tables)
  {
    hide Atomic, Fresh;
    if op.ResolveOp? {
      ResolvingClosed(t, op, obs);
      if Decidable(t, op) { ResolveValid(t, op); }
    } else if op.ChangeOp? {
      ChangingClosed(t, op, obs);
      if op.app in t.apps { ChangeValid(t, op); }
    } else {
      AccessValid(t, op, obs);
    }
  }
}
