/**
 * What holds in every reachable world: the approval invariant, and the plain secret store that
 * the sealed one stands for.
 */
module Runs {
  import opened Results
  import opened Envelopes
  import opened Vault
  import opened Database
  import opened Protocol
  import opened Locality
  import opened Effects
  import opened Invariants
  import opened History
  import opened Paths

  // ---- the approval invariant ----

  lemma CreatePrivate(t: Tables, c: Call)
    requires c.Create? && FreshCall(World(t, map[]), c)
    ensures Private(t, Registration(c), c.app)
  {
  }

  lemma CreateValid(t: Tables, c: Call)
    requires c.Create? && FreshCall(World(t, map[]), c) && Valid(t)
    ensures Valid(Overlay(t, Registration(c)))
    ensures StandingOf(Overlay(t, Registration(c)), c.app) == Standing(true, {}, {}, {}, {Sha256(c.token)})
  {
    hide Sound, Overlay, Registration, Private, StandingOf, Linked;
    var u := Overlay(t, Registration(c));
    CreatePrivate(t, c);
    SoundParts(t);
    CreateStanding(t, c);
    CreateSound(t, c);
    assert u.apps.Keys == t.apps.Keys + {c.app} by { CreatedApps(t, c); }
    forall b | b in u.apps ensures Orderly(StandingOf(u, b)) {
      if b != c.app { StandingElsewhere(t, Registration(c), c.app, b); }
    }
  }

  lemma CreatedApps(t: Tables, c: Call)
    requires c.Create?
    ensures Overlay(t, Registration(c)).apps.Keys == t.apps.Keys + {c.app}
  {
  }

  lemma CreateSound(t: Tables, c: Call)
    requires c.Create? && Sound(t)
    ensures Sound(Overlay(t, Registration(c)))
  {
    hide Requestable, ResolverRecorded;
    Unwritten(t);
    CreatedApps(t, c);
  }

  lemma CreateStanding(t: Tables, c: Call)
    requires c.Create? && FreshCall(World(t, map[]), c) && Sound(t)
    ensures StandingOf(Overlay(t, Registration(c)), c.app) == Standing(true, {}, {}, {}, {Sha256(c.token)})
  {
    var u := Overlay(t, Registration(c));
    Unwritten(t);
    assert PendingOf(u, c.app) == {};
    assert ApprovedOf(u, c.app) == {};
    assert ActiveOf(u, c.app) == {};
    assert LiveOf(u, c.app) == {Sha256(c.token)};
  }

  /** An event of an administrator's secret operation. */
  predicate OfSecrets(e: Event) {
    && e.app == None && e.actor.ByAdmin?
    && e.kind in {SecretRead, SecretCreated, SecretUpdated, SecretRestored, SecretArchived}
  }

  /** Secret operations only add events to the tables. */
  lemma SecretCallsLog(k: Provider, w: World, c: Call) returns (events: seq<Event>)
    requires !c.Lock? && !c.Create?
    ensures Apply(k, w, c).world.tables == Overlay(w.tables, Logged(events))
    ensures Apply(k, w, c).answer.Failed? ==> events == [] && Apply(k, w, c).world == w
    ensures forall e | e in events :: OfSecrets(e)
  {
    OverlayNothing(w.tables);
    events := [];
    if !Apply(k, w, c).answer.Failed? {
      match c
      case Save(_, _, _, _, _) => events := WriteEvents(c.path, WriteVersion(k, w.secrets, c.path, c.values, c.coins).value.version, c.admin);
      case Restore(_, _, _, _) =>
        var values := ReadVersion(k, w.secrets, c.path, c.version).value;
        events := WriteEvents(c.path, WriteVersion(k, w.secrets, c.path, values, c.coins).value.version, c.admin)
          + [Event(SecretRestored, ByAdmin(c.admin), None, c.path)];
      case Archive(_, _) => events := [Event(SecretArchived, ByAdmin(c.admin), None, c.path)];
      case View(_, _) => events := [Event(SecretRead, ByAdmin(c.admin), None, c.path)];
    }
  }

  lemma ApplyValid(k: Provider, w: World, c: Call)
    requires Valid(w.tables) && FreshCall(w, c)
    ensures Valid(Apply(k, w, c).world.tables)
  {
    hide Valid, Atomic, Fresh, Saving, Restoring, Viewing, Overlay, Registration;
    if c.Lock? {
      AtomicValid(w.tables, c.op, c.obs);
    } else if c.Create? {
      CreateValid(w.tables, c);
    } else {
      var events := SecretCallsLog(k, w, c);
      LoggedStanding(w.tables, events, AppId(0));
    }
  }

  /** Every reachable database satisfies the approval invariant. */
  lemma {:induction false} RunValid(k: Provider, h: seq<Call>)
    requires FreshRun(k, h)
    ensures Valid(Run(k, h).tables)
  {
    if h != [] {
      var n := |h| - 1;
      FreshPrefix(k, h, n);
      RunValid(k, h[..n]);
      assert FreshCall(WorldAt(k, h, n), h[n]);
      ApplyValid(k, Run(k, h[..n]), h[n]);
    }
  }

  lemma ValidAt(k: Provider, h: seq<Call>, i: nat)
    requires FreshRun(k, h) && i <= |h|
    ensures Valid(WorldAt(k, h, i).tables)
  {
    FreshPrefix(k, h, i);
    RunValid(k, h[..i]);
  }

  /** In numbers: at most one pending request, at most one active grant, never both, as many approved requests as grants. */
  lemma ApprovalInvariant(k: Provider, h: seq<Call>, a: AppId)
    requires FreshRun(k, h) && a in Run(k, h).tables.apps
    ensures var s := StandingOf(Run(k, h).tables, a);
      && |s.pending| <= 1 && |s.active| <= 1 && |s.live| <= 1 && |s.pending| + |s.active| <= 1
      && |s.approved| == |s.active|
      && (!s.enabled ==> |s.pending| == |s.approved| == |s.active| == 0)
  {
    RunValid(k, h);
    var s := StandingOf(Run(k, h).tables, a);
    assert Orderly(s);
    CountAtMostOne(s.pending);
    CountAtMostOne(s.approved);
    CountAtMostOne(s.active);
    CountAtMostOne(s.live);
  }

  lemma CountAtMostOne<T(!new)>(s: set<T>)
    requires AtMostOne(s)
    ensures |s| <= 1 && (|s| == 0 <==> s == {})
  {
    if x :| x in s {
      assert s == {x};
    }
  }

  /**
   * So approving a pending request never fails on the one-active-grant index: a decision fails
   * only when the request is not pending or its application is disabled.
   */
  lemma ApprovalNeverClashes(k: Provider, h: seq<Call>, op: Op, obs: Obs)
    requires FreshRun(k, h) && op.ResolveOp? && Fresh(Run(k, h).tables, op)
    ensures var t := Run(k, h).tables;
      && (Atomic(t, op, obs).answer == Resolved <==> Decidable(t, op))
      && Atomic(t, op, obs).answer != Failed(Internal)
  {
    RunValid(k, h);
    var t := Run(k, h).tables;
    ResolvingClosed(t, op, obs);
    if Decidable(t, op) {
      PendingMeansNoGrant(t, op);
    } else {
      assert op.request in t.requests ==> t.requests[op.request].app in t.apps;
    }
  }

  // ---- the plain store ----

  /** The secret operations on plain values. */
  ghost function PlainApply(m: Plain, c: Call): Plain {
    match c
    case Save(path, values, size, _, _) => if ValidPath(path) && ValidValues(values, size) then PlainWrite(m, path, values) else m
    case Restore(path, version, _, _) =>
      if version >= 1 && PlainRead(m, path, version).Ok? then PlainWrite(m, path, PlainRead(m, path, version).value) else m
    case Archive(path, _) => if path in m && !m[path].archived then m[path := m[path].(archived := true)] else m
    case _ => m
  }

  ghost function PlainRun(h: seq<Call>): Plain {
    if h == [] then map[] else PlainApply(PlainRun(h[..|h| - 1]), h[|h| - 1])
  }

  function Viewed(r: Result<Values>): Answer {
    match r
    case Ok(v) => Shown(v)
    case Err(e) => Failed(e)
  }

  lemma ApplyRefines(k: Provider, w: World, m: Plain, c: Call)
    requires ValidProvider(k) && Represents(k, w.secrets, m) && FreshCall(w, c)
    ensures Represents(k, Apply(k, w, c).world.secrets, PlainApply(m, c))
    ensures var answer := Apply(k, w, c).answer;
      match c
      case Save(path, values, size, _, _) =>
        answer == if ValidPath(path) && ValidValues(values, size) then Saved(|PlainApply(m, c)[path].history|) else Failed(Invalid)
      case Restore(path, version, _, _) =>
        answer == if version < 1 then Failed(Invalid)
                  else if path in m && version <= |m[path].history| then Answer.Restored else Failed(NotFound)
      case Archive(path, _) => answer == if path in m && !m[path].archived then Archived else Failed(NotFound)
      case View(path, _) => answer == Viewed(PlainRead(m, path, 0))
      case _ => true
  {
    hide Represents, WriteVersion, ReadVersion;
    match c
    case Lock(_, _) =>
    case Create(_, _, _, _, _, _) =>
    case Save(path, values, size, _, coins) =>
      if ValidPath(path) { WriteRefines(k, w.secrets, m, path, values, coins); }
    case Restore(path, version, _, coins) =>
      if version >= 1 {
        ReadRefines(k, w.secrets, m, path, version);
        RepresentsKeys(k, w.secrets, m, path);
        if PlainRead(m, path, version).Ok? { WriteRefines(k, w.secrets, m, path, PlainRead(m, path, version).value, coins); }
      }
    case Archive(path, _) =>
      RepresentsKeys(k, w.secrets, m, path);
      if path in w.secrets { ArchiveRefines(k, w.secrets, m, path); }
    case View(path, _) => ReadRefines(k, w.secrets, m, path, 0);
  }

  lemma RepresentsKeys(k: Provider, s: Secrets, m: Plain, path: string)
    requires Represents(k, s, m)
    ensures path in s <==> path in m
    ensures path in s ==> ValidPath(path) && s[path].archived == m[path].archived
  {
    if path in s { assert RowRepresents(k, path, s[path], m[path]); }
  }

  /** Over any run the encrypted store stands for the plain one. */
  lemma {:induction false} RunRefines(k: Provider, h: seq<Call>)
    requires ValidProvider(k) && FreshRun(k, h)
    ensures Represents(k, Run(k, h).secrets, PlainRun(h))
  {
    if h != [] {
      var n := |h| - 1;
      FreshPrefix(k, h, n);
      RunRefines(k, h[..n]);
      assert FreshCall(WorldAt(k, h, n), h[n]);
      ApplyRefines(k, Run(k, h[..n]), PlainRun(h[..n]), h[n]);
    }
  }

  /** Versions are immutable: whatever happens later, an envelope once stored stays where it is. */
  lemma {:induction false} VersionsImmutable(k: Provider, h: seq<Call>, i: nat, path: string, v: nat)
    requires ValidProvider(k) && FreshRun(k, h) && i <= |h|
    requires path in WorldAt(k, h, i).secrets && v in WorldAt(k, h, i).secrets[path].versions
    ensures var s := Run(k, h).secrets;
      path in s && v in s[path].versions && s[path].versions[v] == WorldAt(k, h, i).secrets[path].versions[v]
  {
    hide Apply, Represents, FreshCall, ValidProvider;
    if i == |h| {
      assert h[..i] == h;
    } else {
      var n := |h| - 1;
      FreshPrefix(k, h, n);
      assert h[..n][..i] == h[..i];
      VersionsImmutable(k, h[..n], i, path, v);
      RunRefines(k, h[..n]);
      assert FreshCall(WorldAt(k, h, n), h[n]);
      StepKeepsVersions(k, Run(k, h[..n]), PlainRun(h[..n]), h[n], path, v);
    }
  }

  lemma StepKeepsVersions(k: Provider, w: World, m: Plain, c: Call, path: string, v: nat)
    requires ValidProvider(k) && Represents(k, w.secrets, m) && FreshCall(w, c)
    requires path in w.secrets && v in w.secrets[path].versions
    ensures var s := Apply(k, w, c).world.secrets;
      path in s && v in s[path].versions && s[path].versions[v] == w.secrets[path].versions[v]
  {
    hide Represents, ReadVersion, WriteVersion;
    if c.Save? && ValidPath(c.path) {
      WriteRefines(k, w.secrets, m, c.path, c.values, c.coins);
    }
    if c.Restore? && c.version >= 1 && c.path in w.secrets {
      RepresentsKeys(k, w.secrets, m, c.path);
      var values := ReadVersion(k, w.secrets, c.path, c.version);
      if values.Ok? { WriteRefines(k, w.secrets, m, c.path, values.value, c.coins); }
    }
  }
}
