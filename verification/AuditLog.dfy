/**
 * The audit log determines the state: folding the events alone gives back every application's
 * standing and every path's latest version, and its counts are the counts of the rows.
 */
module AuditLog {
  import opened Results
  import opened Envelopes
  import opened Vault
  import opened Database
  import opened Protocol
  import opened Locality
  import opened Effects
  import opened Invariants
  import opened History
  import opened Runs
  import opened Deeds
  import opened Text

  // ---- folding the events ----

  /** What an auditor can tell about an application, and about a path. */
  datatype AppView = AppView(enabled: bool, pending: bool, active: bool)
  datatype PathView = PathView(latest: nat, archived: bool)

  function NoteApp(views: map<AppId, AppView>, e: Event): map<AppId, AppView> {
    if e.app.None? then views
    else if e.kind == AppCreated then views[e.app.value := AppView(true, false, false)]
    else if e.app.value !in views then views
    else views[e.app.value := NoteView(views[e.app.value], e.kind)]
  }

  function NoteView(v: AppView, kind: Kind): AppView {
    match kind
    case AppEnabled => v.(enabled := true)
    case AppDisabled => AppView(false, false, false)
    case TokenRotated => v.(pending := false, active := false)
    case PathsUpdated => v.(pending := false, active := false)
    case AccessRevoked => v.(pending := false, active := false)
    case AccessRequested => v.(pending := true)
    case AccessApproved => v.(pending := false, active := true)
    case AccessDenied => v.(pending := false)
    case _ => v
  }

  function NotePath(views: map<string, PathView>, e: Event): map<string, PathView> {
    if e.kind == SecretCreated then views[e.path := PathView(1, false)]
    else if e.path !in views then views
    else if e.kind == SecretUpdated then views[e.path := PathView(views[e.path].latest + 1, false)]
    else if e.kind == SecretArchived then views[e.path := views[e.path].(archived := true)]
    else views
  }

  function FoldApps(events: seq<Event>): map<AppId, AppView> {
    if events == [] then map[] else NoteApp(FoldApps(events[..|events| - 1]), events[|events| - 1])
  }

  function FoldPaths(events: seq<Event>): map<string, PathView> {
    if events == [] then map[] else NotePath(FoldPaths(events[..|events| - 1]), events[|events| - 1])
  }

  lemma FoldOne(events: seq<Event>, e: Event)
    ensures FoldApps(events + [e]) == NoteApp(FoldApps(events), e)
    ensures FoldPaths(events + [e]) == NotePath(FoldPaths(events), e)
  {
    assert (events + [e])[..|events|] == events;
  }

  /** Reads, and whatever concerns no application, change no application's view. */
  predicate SilentForApps(e: Event) {
    e.app.None? || e.kind == SecretRead
  }

  predicate SilentForPaths(e: Event) {
    !(e.kind in {SecretCreated, SecretUpdated, SecretArchived})
  }

  lemma SilentNote(views: map<AppId, AppView>, e: Event)
    requires SilentForApps(e)
    ensures NoteApp(views, e) == views
  {
  }

  lemma {:induction false} SilentAppEvents(events: seq<Event>, more: seq<Event>)
    requires forall e | e in more :: SilentForApps(e)
    ensures FoldApps(events + more) == FoldApps(events)
  {
    hide NoteApp;
    if more == [] {
      assert events + more == events;
    } else {
      var init, last := more[..|more| - 1], more[|more| - 1];
      SilentAppEvents(events, init);
      FoldOne(events + init, last);
      assert events + more == (events + init) + [last];
      SilentNote(FoldApps(events + init), last);
    }
  }

  lemma SilentPathNote(views: map<string, PathView>, e: Event)
    requires SilentForPaths(e)
    ensures NotePath(views, e) == views
  {
  }

  lemma {:induction false} SilentPathEvents(events: seq<Event>, more: seq<Event>)
    requires forall e | e in more :: SilentForPaths(e)
    ensures FoldPaths(events + more) == FoldPaths(events)
  {
    hide NotePath;
    if more == [] {
      assert events + more == events;
    } else {
      var init, last := more[..|more| - 1], more[|more| - 1];
      SilentPathEvents(events, init);
      FoldOne(events + init, last);
      assert events + more == (events + init) + [last];
      SilentPathNote(FoldPaths(events + init), last);
    }
  }

  // ---- the state as the log should show it ----

  function ViewOf(t: Tables, a: AppId): AppView
    requires a in t.apps
  {
    AppView(t.apps[a].enabled, PendingOf(t, a) != {}, ActiveOf(t, a) != {})
  }

  function AppViews(t: Tables): map<AppId, AppView> {
    map a | a in t.apps :: ViewOf(t, a)
  }

  ghost function PathViews(s: Secrets): map<string, PathView> {
    map p | p in s :: PathView(MaxOf(s[p].versions.Keys), s[p].archived)
  }

  lemma ViewFromStanding(t: Tables, a: AppId)
    requires a in t.apps
    ensures ViewOf(t, a) == AppView(StandingOf(t, a).enabled, StandingOf(t, a).pending != {}, StandingOf(t, a).active != {})
  {
  }

  /** One application's view moves with one event, the others' stay. */
  lemma ViewsMove(t: Tables, w: Tables, a: AppId, e: Event)
    requires Linked(t) && Private(t, w, a) && Overlay(t, w).apps.Keys == t.apps.Keys + {a}
    requires e.app == Some(a) && (e.kind == AppCreated || a in t.apps)
    requires var u := Overlay(t, w);
      ViewOf(u, a) == if e.kind == AppCreated then AppView(true, false, false) else NoteView(ViewOf(t, a), e.kind)
    ensures AppViews(Overlay(t, w)) == NoteApp(AppViews(t), e)
  {
    hide Private, Linked, Overlay, StandingOf, ViewOf;
    var u := Overlay(t, w);
    forall b | b in t.apps && b != a ensures b in u.apps && ViewOf(u, b) == ViewOf(t, b) {
      StandingElsewhere(t, w, a, b);
      ViewFromStanding(t, b);
      ViewFromStanding(u, b);
    }
  }

  lemma JoinedView(t: Tables, a: AppId, paths: seq<string>, op: Op)
    requires op.AccessOp? && Fresh(t, op) && a in t.apps && Sound(t) && ActiveOf(t, a) == {}
    ensures var w := JoinWrites(t, a, paths, op);
      AppViews(Overlay(t, w)) == FoldEvents(AppViews(t), w.audit)
  {
    hide Overlay, Fresh, Private;
    var w := JoinWrites(t, a, paths, op);
    var u := Overlay(t, w);
    JoinStanding(t, a, paths, op);
    JoinPrivate(t, a, paths, op);
    ViewFromStanding(t, a);
    ViewFromStanding(u, a);
    if PendingOf(t, a) == {} {
      assert op.ids.request in StandingOf(u, a).pending;
      ViewsMove(t, w, a, w.audit[0]);
    } else {
      forall b | b in t.apps ensures ViewOf(u, b) == ViewOf(t, b) {
        if b != a { StandingElsewhere(t, w, a, b); }
        ViewFromStanding(t, b);
        ViewFromStanding(u, b);
      }
    }
  }

  function FoldEvents(views: map<AppId, AppView>, events: seq<Event>): map<AppId, AppView> {
    if events == [] then views else NoteApp(views, events[0])
  }

  lemma DecidedView(t: Tables, op: Op)
    requires op.ResolveOp? && Fresh(t, op) && Valid(t) && Decidable(t, op)
    ensures var a := t.requests[op.request].app;
      AppViews(Overlay(t, ResolveWrites(t, a, op))) == NoteApp(AppViews(t), DecisionEvent(a, op))
  {
    hide Overlay, Private, Valid;
    var a := t.requests[op.request].app;
    var w := ResolveWrites(t, a, op);
    SoundParts(t);
    PendingMeansNoGrant(t, op);
    ResolveStanding(t, op);
    ResolvePrivate(t, op);
    ViewFromStanding(t, a);
    ViewFromStanding(Overlay(t, w), a);
    assert op.grant in {op.grant};
    ViewsMove(t, w, a, DecisionEvent(a, op));
  }

  lemma AlteredView(t: Tables, op: Op)
    requires op.ChangeOp? && Fresh(t, op) && Sound(t) && op.app in t.apps && Changes(op)
    ensures var w := ChangeWrites(t, op.app, op);
      AppViews(Overlay(t, w)) == NoteApp(AppViews(t), w.audit[0])
  {
    hide Overlay, Private, Fresh;
    var w := ChangeWrites(t, op.app, op);
    ChangeStanding(t, op);
    ChangePrivate(t, op);
    ViewFromStanding(t, op.app);
    ViewFromStanding(Overlay(t, w), op.app);
    ViewsMove(t, w, op.app, w.audit[0]);
  }

  lemma RegisteredView(t: Tables, c: Call)
    requires c.Create? && FreshCall(World(t, map[]), c) && Sound(t)
    ensures AppViews(Overlay(t, Registration(c))) == NoteApp(AppViews(t), Registration(c).audit[0])
  {
    CreateStanding(t, c);
    CreatePrivate(t, c);
    ViewFromStanding(Overlay(t, Registration(c)), c.app);
    ViewsMove(t, Registration(c), c.app, Registration(c).audit[0]);
  }

  lemma LoggedViews(t: Tables, events: seq<Event>)
    ensures AppViews(Overlay(t, Logged(events))) == AppViews(t)
  {
    Unwritten(t);
  }

  lemma GatedApp(t: Tables, op: Op, obs: Obs, a: AppId, paths: seq<string>, then_: Then)
    requires Gate(t, op, obs, a, paths, then_)
    ensures a in t.apps && t.apps[a].enabled
  {
  }

  /** The log of `w`, folded on, gives the views after `w`. */
  ghost predicate LogShows(t: Tables, w: Tables) {
    FoldApps(t.audit) == AppViews(t) ==> FoldApps(t.audit + w.audit) == AppViews(Overlay(t, w))
  }

  lemma ShowsOne(t: Tables, w: Tables)
    requires |w.audit| == 1 && AppViews(Overlay(t, w)) == NoteApp(AppViews(t), w.audit[0])
    ensures LogShows(t, w)
  {
    hide AppViews, NoteApp, Overlay;
    assert w.audit == [w.audit[0]];
    FoldOne(t.audit, w.audit[0]);
  }

  lemma ShowsSilent(t: Tables, events: seq<Event>)
    requires forall e | e in events :: SilentForApps(e)
    ensures LogShows(t, Logged(events))
  {
    hide AppViews, FoldApps, Overlay;
    SilentAppEvents(t.audit, events);
    LoggedViews(t, events);
  }

  lemma JoinedShows(t: Tables, a: AppId, paths: seq<string>, op: Op)
    requires op.AccessOp? && Fresh(t, op) && a in t.apps && Sound(t) && ActiveOf(t, a) == {}
    ensures LogShows(t, JoinWrites(t, a, paths, op))
  {
    hide AppViews, NoteApp, Overlay, Fresh, Sound, PendingOf, ActiveOf, InstancesWith;
    var w := JoinWrites(t, a, paths, op);
    JoinedView(t, a, paths, op);
    if w.audit == [] {
      assert t.audit + w.audit == t.audit;
    } else {
      ShowsOne(t, w);
    }
  }

  lemma AppsStep(k: Provider, w: World, c: Call) returns (rows: Tables)
    requires Valid(w.tables) && FreshCall(w, c)
    ensures Apply(k, w, c).world.tables == Overlay(w.tables, rows)
    ensures LogShows(w.tables, rows)
  {
    hide Valid, Apply, AppViews, Gate, Requestable, Bundle, AllReadable, JoinWrites, PendingOf, ActiveOf, NoteApp,
      Sound, Overlay, LogShows;
    var t := w.tables;
    var d := WhatHappened(k, w, c);
    SoundParts(t);
    match d
    case Nothing =>
      rows := EMPTY;
      OverlayNothing(t);
      ShowsSilent(t, []);
    case Served(a, paths, _) =>
      rows := Logged(ReadEvents(a, paths));
      ShowsSilent(t, ReadEvents(a, paths));
    case Joined(a, paths) =>
      rows := JoinWrites(t, a, paths, c.op);
      GatedApp(t, c.op, c.obs, a, paths, NewAccess);
      JoinedShows(t, a, paths, c.op);
    case Decided(a) =>
      rows := ResolveWrites(t, a, c.op);
      DecidedView(t, c.op);
      ShowsOne(t, rows);
    case Altered(a) =>
      rows := ChangeWrites(t, a, c.op);
      AlteredView(t, c.op);
      ShowsOne(t, rows);
    case Registered(a) =>
      rows := Registration(c);
      RegisteredView(t, c);
      ShowsOne(t, rows);
    case Noted(events) =>
      rows := Logged(events);
      ShowsSilent(t, events);
  }

  // ---- paths ----

  lemma MaxExtended(s: set<nat>, n: nat)
    requires forall x | x in s :: x < n
    ensures MaxOf(s + {n}) == n
  {
    assert n in s + {n};
  }

  lemma WrittenView(k: Provider, s: Secrets, path: string, values: Values, r: Coins, admin: int)
    requires WriteVersion(k, s, path, values, r).Ok?
    ensures var x := WriteVersion(k, s, path, values, r).value;
      PathViews(s[path := x.row]) == NotePath(PathViews(s), WriteEvents(path, x.version, admin)[0])
  {
    var versions := if path in s then s[path].versions else map[];
    var x := WriteVersion(k, s, path, values, r).value;
    MaxExtended(versions.Keys, x.version);
    assert x.row.versions.Keys == versions.Keys + {x.version};
    assert path !in s ==> versions.Keys == {};
  }

  lemma PathsStep(k: Provider, w: World, c: Call)
    requires Valid(w.tables) && FreshCall(w, c)
    requires FoldPaths(w.tables.audit) == PathViews(w.secrets)
    ensures var u := Apply(k, w, c).world; FoldPaths(u.tables.audit) == PathViews(u.secrets)
  {
    hide Valid, PathViews, WriteVersion, ReadVersion, Atomic, NotePath;
    var t := w.tables;
    if c.Lock? || c.Create? {
      ProtocolEvents(k, w, c);
    } else if !Apply(k, w, c).answer.Failed? {
      match c
      case Save(path, values, _, admin, coins) =>
        var v := WriteVersion(k, w.secrets, path, values, coins).value.version;
        WrittenView(k, w.secrets, path, values, coins, admin);
        FoldOne(t.audit, WriteEvents(path, v, admin)[0]);
      case Restore(path, version, admin, coins) =>
        var values := ReadVersion(k, w.secrets, path, version).value;
        var v := WriteVersion(k, w.secrets, path, values, coins).value.version;
        var restored := Event(SecretRestored, ByAdmin(admin), None, path);
        WrittenView(k, w.secrets, path, values, coins, admin);
        FoldOne(t.audit, WriteEvents(path, v, admin)[0]);
        SilentPathEvents(t.audit + WriteEvents(path, v, admin), [restored]);
        assert t.audit + (WriteEvents(path, v, admin) + [restored]) == t.audit + WriteEvents(path, v, admin) + [restored];
      case Archive(path, admin) =>
        var e := Event(SecretArchived, ByAdmin(admin), None, path);
        FoldOne(t.audit, e);
        ArchivedView(w.secrets, path, e);
      case View(path, admin) =>
        SilentPathEvents(t.audit, [Event(SecretRead, ByAdmin(admin), None, path)]);
    }
  }

  lemma ArchivedView(s: Secrets, path: string, e: Event)
    requires path in s && e.kind == SecretArchived && e.path == path
    ensures PathViews(s[path := s[path].(archived := true)]) == NotePath(PathViews(s), e)
  {
  }

  lemma QuietRows(t: Tables, w: Tables)
    requires forall e | e in w.audit :: SilentForPaths(e)
    ensures FoldPaths(Overlay(t, w).audit) == FoldPaths(t.audit)
  {
    SilentPathEvents(t.audit, w.audit);
  }

  /** Protocol calls write no event that concerns versions. */
  lemma ProtocolEvents(k: Provider, w: World, c: Call)
    requires Valid(w.tables) && FreshCall(w, c) && (c.Lock? || c.Create?)
    ensures Apply(k, w, c).world.secrets == w.secrets
    ensures FoldPaths(Apply(k, w, c).world.tables.audit) == FoldPaths(w.tables.audit)
  {
    hide Valid, Apply, Gate, Requestable, Bundle, AllReadable, PendingOf, ActiveOf, InstancesWith, Overlay,
      RevokeGrants, RevokeRequests, RevokeTokens, Fresh;
    var d := WhatHappened(k, w, c);
    ProtocolKeepsSecrets(k, w, c);
    var t := w.tables;
    match d
    case Nothing =>
    case Served(a, paths, _) => QuietRows(t, Logged(ReadEvents(a, paths)));
    case Joined(a, paths) => QuietRows(t, JoinWrites(t, a, paths, c.op));
    case Decided(a) => QuietRows(t, ResolveWrites(t, a, c.op));
    case Altered(a) => QuietRows(t, ChangeWrites(t, a, c.op));
    case Registered(a) => QuietRows(t, Registration(c));
  }

  lemma ProtocolKeepsSecrets(k: Provider, w: World, c: Call)
    requires c.Lock? || c.Create?
    ensures Apply(k, w, c).world.secrets == w.secrets
  {
  }

  /** The events alone give back every application's view and every path's latest version and tombstone. */
  lemma {:induction false} LogDeterminesState(k: Provider, h: seq<Call>)
    requires FreshRun(k, h)
    ensures FoldApps(Run(k, h).tables.audit) == AppViews(Run(k, h).tables)
    ensures FoldPaths(Run(k, h).tables.audit) == PathViews(Run(k, h).secrets)
  {
    hide Apply, FreshCall, Valid;
    if h == [] {
      assert AppViews(EMPTY) == map[];
      assert PathViews(map[]) == map[];
    } else {
      var n := |h| - 1;
      FreshPrefix(k, h, n);
      LogDeterminesState(k, h[..n]);
      ValidAt(k, h, n);
      assert FreshCall(WorldAt(k, h, n), h[n]);
      var rows := AppsStep(k, Run(k, h[..n]), h[n]);
      PathsStep(k, Run(k, h[..n]), h[n]);
    }
  }

  // ---- conservation ----

  datatype Tally = Reads | Kinds(kind: Kind)

  predicate Tallied(q: Tally, e: Event) {
    match q
    case Reads => e.kind == SecretRead && e.actor.ByApp?
    case Kinds(kind) => e.kind == kind
  }

  function Count(q: Tally, events: seq<Event>): nat {
    if events == [] then 0
    else Count(q, events[..|events| - 1]) + if Tallied(q, events[|events| - 1]) then 1 else 0
  }

  lemma {:induction false} CountConcat(q: Tally, events: seq<Event>, more: seq<Event>)
    ensures Count(q, events + more) == Count(q, events) + Count(q, more)
  {
    if more == [] {
      assert events + more == events;
    } else {
      var n := |more| - 1;
      CountConcat(q, events, more[..n]);
      assert (events + more)[..|events| + n] == events + more[..n];
    }
  }

  lemma {:induction false} CountAll(q: Tally, events: seq<Event>)
    ensures (forall e | e in events :: Tallied(q, e)) ==> Count(q, events) == |events|
    ensures (forall e | e in events :: !Tallied(q, e)) ==> Count(q, events) == 0
  {
    if events != [] { CountAll(q, events[..|events| - 1]); }
  }

  datatype Totals = Totals(served: nat, requested: nat, approved: nat, denied: nat)

  function TotalsOf(events: seq<Event>): Totals {
    Totals(Count(Reads, events), Count(Kinds(AccessRequested), events),
           Count(Kinds(AccessApproved), events), Count(Kinds(AccessDenied), events))
  }

  lemma TotalsConcat(events: seq<Event>, more: seq<Event>)
    ensures var x, y := TotalsOf(events), TotalsOf(more);
      TotalsOf(events + more)
      == Totals(x.served + y.served, x.requested + y.requested, x.approved + y.approved, x.denied + y.denied)
  {
    CountConcat(Reads, events, more);
    CountConcat(Kinds(AccessRequested), events, more);
    CountConcat(Kinds(AccessApproved), events, more);
    CountConcat(Kinds(AccessDenied), events, more);
  }

  lemma TotalsOne(e: Event)
    ensures TotalsOf([]) == Totals(0, 0, 0, 0)
    ensures TotalsOf([e]) == Totals(
      if Tallied(Reads, e) then 1 else 0, if e.kind == AccessRequested then 1 else 0,
      if e.kind == AccessApproved then 1 else 0, if e.kind == AccessDenied then 1 else 0)
  {
    CountAll(Reads, [e]);
    CountAll(Kinds(AccessRequested), [e]);
    CountAll(Kinds(AccessApproved), [e]);
    CountAll(Kinds(AccessDenied), [e]);
  }

  lemma TotalsReads(events: seq<Event>)
    ensures (forall e | e in events :: Tallied(Reads, e)) ==> TotalsOf(events) == Totals(|events|, 0, 0, 0)
    ensures (forall e | e in events :: OfSecrets(e)) ==> TotalsOf(events) == Totals(0, 0, 0, 0)
  {
    CountAll(Reads, events);
    CountAll(Kinds(AccessRequested), events);
    CountAll(Kinds(AccessApproved), events);
    CountAll(Kinds(AccessDenied), events);
  }

  /** Requests some administrator has resolved. */
  function ResolvedIds(requests: map<string, Request>): set<string> {
    set r | r in requests && requests[r].resolvedBy.Some?
  }

  function DeliveredCount(answer: Answer): nat {
    if answer.Delivered? then |answer.secrets| else 0
  }

  ghost function DeliveredIn(k: Provider, h: seq<Call>): nat {
    if h == [] then 0
    else DeliveredIn(k, h[..|h| - 1]) + DeliveredCount(Apply(k, Run(k, h[..|h| - 1]), h[|h| - 1]).answer)
  }

  /** Rows `w` add to the counts of events what they add to the counts of rows. */
  ghost predicate Balanced(t: Tables, w: Tables, delivered: nat) {
    var n := TotalsOf(w.audit);
    && n.served == delivered
    && |t.requests + w.requests| == |t.requests| + n.requested
    && |t.grants + w.grants| == |t.grants| + n.approved
    && |ResolvedIds(t.requests + w.requests)| == |ResolvedIds(t.requests)| + n.approved + n.denied
  }

  lemma BalanceStep(k: Provider, w: World, c: Call) returns (rows: Tables)
    requires Valid(w.tables) && FreshCall(w, c)
    ensures Apply(k, w, c).world.tables == Overlay(w.tables, rows)
    ensures Balanced(w.tables, rows, DeliveredCount(Apply(k, w, c).answer))
  {
    hide Valid, Apply, Gate, AllReadable, PendingOf, ActiveOf, JoinWrites, ResolveWrites, ChangeWrites,
      Registration, Overlay, Balanced, Bundle, Sound;
    var t := w.tables;
    var d := WhatHappened(k, w, c);
    SoundParts(t);
    match d
    case Nothing =>
      rows := EMPTY;
      OverlayNothing(t);
      LogBalance(t, []);
    case Served(a, paths, _) =>
      rows := Logged(ReadEvents(a, paths));
      ReadBalance(t, a, paths, c.obs);
    case Joined(a, paths) =>
      rows := JoinWrites(t, a, paths, c.op);
      JoinBalance(t, a, paths, c.op);
    case Decided(a) =>
      rows := ResolveWrites(t, a, c.op);
      DecidedBalance(t, c.op);
    case Altered(a) =>
      rows := ChangeWrites(t, a, c.op);
      AlteredBalance(t, c.op);
    case Registered(a) =>
      rows := Registration(c);
      RegisteredBalance(t, c);
    case Noted(events) =>
      rows := Logged(events);
      LogBalance(t, events);
  }

  lemma SameRowsBalance(t: Tables, w: Tables, delivered: nat)
    requires w.requests == map[] && w.grants == map[] && TotalsOf(w.audit) == Totals(delivered, 0, 0, 0)
    ensures Balanced(t, w, delivered)
  {
    hide ResolvedIds, TotalsOf;
    Unwritten(t);
  }

  lemma LogBalance(t: Tables, events: seq<Event>)
    requires forall e | e in events :: OfSecrets(e)
    ensures Balanced(t, Logged(events), 0)
  {
    hide Balanced, TotalsOf;
    TotalsReads(events);
    SameRowsBalance(t, Logged(events), 0);
  }

  lemma ReadBalance(t: Tables, a: AppId, paths: seq<string>, obs: Obs)
    requires Requestable(paths) && AllReadable(obs, paths)
    ensures Balanced(t, Logged(ReadEvents(a, paths)), |Bundle(obs, paths)|)
  {
    hide Balanced, TotalsOf;
    TotalsReads(ReadEvents(a, paths));
    SortedDistinct(paths);
    CountDistinct(paths);
    assert Bundle(obs, paths).Keys == Elements(paths);
    SameRowsBalance(t, Logged(ReadEvents(a, paths)), |paths|);
  }

  lemma {:induction false} CountDistinct(xs: seq<string>)
    requires Distinct(xs)
    ensures |Elements(xs)| == |xs|
  {
    if xs == [] {
      assert Elements(xs) == {};
    } else {
      var n := |xs| - 1;
      CountDistinct(xs[..n]);
      assert xs == xs[..n] + [xs[n]];
      assert Elements(xs) == Elements(xs[..n]) + {xs[n]};
    }
  }

  lemma JoinBalance(t: Tables, a: AppId, paths: seq<string>, op: Op)
    requires op.AccessOp? && Fresh(t, op)
    ensures Balanced(t, JoinWrites(t, a, paths, op), 0)
  {
    hide TotalsOf, PendingOf, InstancesWith, ResolvedIds;
    TotalsOne(Event(AccessRequested, ByApp(a), Some(a), ""));
    Unwritten(t);
    RequestAdded(t.requests, op.ids.request, a);
  }

  lemma RequestAdded(requests: map<string, Request>, r: string, a: AppId)
    requires r !in requests
    ensures var more := requests + map[r := Request(a, Pending, None)];
      |more| == |requests| + 1 && ResolvedIds(more) == ResolvedIds(requests)
  {
    var more := requests + map[r := Request(a, Pending, None)];
    assert more.Keys == requests.Keys + {r};
  }

  lemma PendingUnresolved(t: Tables, r: string)
    requires Sound(t) && r in t.requests && t.requests[r].status == Pending
    ensures t.requests[r].resolvedBy.None?
  {
    assert ResolverRecorded(t.requests[r]);
  }

  lemma RequestDecided(t: Tables, op: Op)
    requires op.ResolveOp? && Sound(t) && Decidable(t, op)
    ensures var more := t.requests + Decide(t, op);
      |more| == |t.requests| && |ResolvedIds(more)| == |ResolvedIds(t.requests)| + 1
  {
    hide Sound;
    var more := t.requests + Decide(t, op);
    PendingUnresolved(t, op.request);
    assert more.Keys == t.requests.Keys;
    assert ResolvedIds(more) == ResolvedIds(t.requests) + {op.request};
  }

  lemma OneMoreGrant(grants: map<GrantId, Grant>, id: GrantId, g: Grant)
    requires id !in grants
    ensures |grants + map[id := g]| == |grants| + 1
  {
    assert (grants + map[id := g]).Keys == grants.Keys + {id};
  }

  lemma GrantCounted(t: Tables, op: Op, g: Grant)
    requires op.ResolveOp? && Fresh(t, op)
    ensures |t.grants + if op.approve then map[op.grant := g] else map[]| == |t.grants| + if op.approve then 1 else 0
  {
    Unwritten(t);
    if op.approve { OneMoreGrant(t.grants, op.grant, g); }
  }

  lemma DecidedBalance(t: Tables, op: Op)
    requires op.ResolveOp? && Fresh(t, op) && Sound(t) && Decidable(t, op)
    ensures Balanced(t, ResolveWrites(t, t.requests[op.request].app, op), 0)
  {
    hide TotalsOf, Sound, Decide, ResolvedIds, Fresh;
    var a := t.requests[op.request].app;
    TotalsOne(DecisionEvent(a, op));
    RequestDecided(t, op);
    GrantCounted(t, op, Grant(a, Active, None, op.admin));
  }

  lemma AlteredBalance(t: Tables, op: Op)
    requires op.ChangeOp? && op.app in t.apps
    ensures Balanced(t, ChangeWrites(t, op.app, op), 0)
  {
    hide TotalsOf, RevokeTokens, RevokeGrants, RevokeRequests, ResolvedIds, Edited;
    var w := ChangeWrites(t, op.app, op);
    TotalsOne(w.audit[0]);
    Unwritten(t);
    RevokedCounts(t, op.app);
  }

  lemma RevokedCounts(t: Tables, a: AppId)
    ensures |t.requests + RevokeRequests(t, a)| == |t.requests|
    ensures |t.grants + RevokeGrants(t, a)| == |t.grants|
    ensures ResolvedIds(t.requests + RevokeRequests(t, a)) == ResolvedIds(t.requests)
  {
    assert (t.requests + RevokeRequests(t, a)).Keys == t.requests.Keys;
    assert (t.grants + RevokeGrants(t, a)).Keys == t.grants.Keys;
  }

  lemma RegisteredBalance(t: Tables, c: Call)
    requires c.Create?
    ensures Balanced(t, Registration(c), 0)
  {
    hide Balanced, TotalsOf;
    TotalsOne(Registration(c).audit[0]);
    SameRowsBalance(t, Registration(c), 0);
  }

  /** Application reads equal delivered paths, and the approval events equal the rows they announce. */
  lemma {:induction false} AuditConserves(k: Provider, h: seq<Call>)
    requires FreshRun(k, h)
    ensures var t := Run(k, h).tables;
      var n := TotalsOf(t.audit);
      && n.served == DeliveredIn(k, h)
      && n.requested == |t.requests|
      && n.approved == |t.grants|
      && n.approved + n.denied == |ResolvedIds(t.requests)|
  {
    hide Apply, FreshCall, Valid, TotalsOf, ResolvedIds;
    if h == [] {
      NothingCounted();
    } else {
      var n := |h| - 1;
      FreshPrefix(k, h, n);
      AuditConserves(k, h[..n]);
      ValidAt(k, h, n);
      assert FreshCall(WorldAt(k, h, n), h[n]);
      var w := Run(k, h[..n]);
      var rows := BalanceStep(k, w, h[n]);
      TotalsConcat(w.tables.audit, rows.audit);
    }
  }

  lemma NothingCounted()
    ensures TotalsOf(EMPTY.audit) == Totals(0, 0, 0, 0) && ResolvedIds(EMPTY.requests) == {}
  {
  }
}
