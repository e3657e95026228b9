/**
 * The store as the program runs it: an object whose methods change the tables statement by
 * statement and put them back when a transaction fails (access.go, store.go, secrets.go).
 */
module Storage {
  import opened Results
  import opened Envelopes
  import opened KeyProvider
  import opened Sealing
  import opened Vault
  import opened Database
  import opened Protocol
  import opened Locality
  import opened Effects
  import opened Invariants
  import opened History
  import opened Runs
  import Answers
  import Contracts
  import opened Handles
  import opened Text
  import opened Paths

  /** The path column of a query without an order, then sorted: `ORDER BY path`. */
  method ListPaths(s: Secrets) returns (paths: seq<string>)
    ensures paths == Ordered(LivePaths(s))
  {
    paths := [];
    var todo := LivePaths(s);
    while todo != {}
      invariant todo <= LivePaths(s)
      invariant StrictlySorted(paths) && Elements(paths) == LivePaths(s) - todo
      decreases |todo|
    {
      var p :| p in todo;
      InsertSorted(paths, p);
      paths := Insert(paths, p);
      todo := todo - {p};
    }
    SortedUnique(paths, Ordered(LivePaths(s)));
  }

  lemma AssignedNext(patterns: seq<string>, listed: seq<string>, i: nat)
    requires i < |listed|
    ensures Assigned(patterns, listed[i..])
         == (if Allowed(patterns, listed[i]) then [listed[i]] else []) + Assigned(patterns, listed[i + 1..])
  {
    assert listed[i..][1..] == listed[i + 1..];
  }

  /** Nothing but the grants and request statuses of one application may differ. */
  ghost predicate OnlyTouched(t: Tables, u: Tables, a: AppId) {
    && u.apps == t.apps && u.tokens == t.tokens && u.instances == t.instances && u.audit == t.audit
    && u.requests.Keys == t.requests.Keys && u.grants.Keys == t.grants.Keys
    && forall b | b != a :: Slice(u, b) == Slice(t, b)
  }

  lemma GrantsElsewhere(t: Tables, rows: map<GrantId, Grant>, a: AppId, b: AppId)
    requires a != b && forall g | g in rows :: g in t.grants && t.grants[g].app == a && rows[g].app == a
    ensures Slice(Overlay(t, Grants(rows)), b) == Slice(t, b)
    ensures Overlay(t, Grants(rows)).grants.Keys == t.grants.Keys
  {
    hide OwnApps, OwnTokens, OwnRequests, OwnInstances;
    Unwritten(t);
    var u := Overlay(t, Grants(rows));
    SameTables(t, u, b);
    forall g ensures g in OwnGrants(u, b) <==> g in OwnGrants(t, b) {
    }
  }

  lemma SameTables(t: Tables, u: Tables, b: AppId)
    requires u.apps == t.apps && u.tokens == t.tokens && u.requests == t.requests && u.instances == t.instances
    ensures OwnApps(u, b) == OwnApps(t, b) && OwnTokens(u, b) == OwnTokens(t, b)
    ensures OwnRequests(u, b) == OwnRequests(t, b) && OwnInstances(u, b) == OwnInstances(t, b)
  {
  }

  lemma RequestsElsewhere(t: Tables, rows: map<string, Request>, a: AppId, b: AppId)
    requires a != b && forall r | r in rows :: r in t.requests && t.requests[r].app == a && rows[r].app == a
    ensures Slice(Overlay(t, Requests(rows)), b) == Slice(t, b)
    ensures Overlay(t, Requests(rows)).requests.Keys == t.requests.Keys
  {
    hide OwnApps, OwnTokens, OwnGrants;
    Unwritten(t);
    var u := Overlay(t, Requests(rows));
    forall r ensures r in OwnRequests(u, b) <==> r in OwnRequests(t, b) {
    }
    forall i ensures HandleOf(u, b, i) <==> HandleOf(t, b, i) {
    }
    OtherTables(t, u, b);
  }

  lemma OtherTables(t: Tables, u: Tables, b: AppId)
    requires u.apps == t.apps && u.tokens == t.tokens && u.grants == t.grants
    ensures OwnApps(u, b) == OwnApps(t, b) && OwnTokens(u, b) == OwnTokens(t, b) && OwnGrants(u, b) == OwnGrants(t, b)
  {
  }

  lemma WhatExpires(t: Tables, a: AppId, now: int)
    ensures var u := Overlay(t, Grants(ExpireGrants(t, a, now)));
      && (HasCurrentGrant(u, a, now) <==> ActiveOf(u, a) != {})
      && (forall g | g in ActiveOf(u, a) :: GrantCurrent(u.grants[g], now))
      && (forall g | g in ActiveOf(t, a) && GrantCurrent(t.grants[g], now) :: g in ActiveOf(u, a))
      && OnlyTouched(t, u, a)
      && (Indefinite(t) ==> u == t)
  {
    hide Slice;
    var rows := ExpireGrants(t, a, now);
    var u := Overlay(t, Grants(rows));
    forall b | b != a ensures Slice(u, b) == Slice(t, b) {
      GrantsElsewhere(t, rows, a, b);
    }
    Unwritten(t);
    assert u.grants.Keys == t.grants.Keys;
    if Indefinite(t) { NothingExpires(t, a, now); }
    CurrentIfActive(t, a, now);
  }

  lemma CurrentIfActive(t: Tables, a: AppId, now: int)
    ensures var u := Overlay(t, Grants(ExpireGrants(t, a, now)));
      && (forall g | g in ActiveOf(u, a) :: GrantCurrent(u.grants[g], now))
      && (HasCurrentGrant(u, a, now) <==> ActiveOf(u, a) != {})
  {
    var u := Overlay(t, Grants(ExpireGrants(t, a, now)));
    if HasCurrentGrant(u, a, now) {
      var g :| g in u.grants && u.grants[g].app == a && GrantCurrent(u.grants[g], now);
      assert g in ActiveOf(u, a);
    }
    if g :| g in ActiveOf(u, a) {
      assert g in u.grants && u.grants[g].app == a && GrantCurrent(u.grants[g], now);
    }
  }

  lemma WhatRevokes(t: Tables, a: AppId)
    ensures var t1 := Overlay(t, Grants(RevokeGrants(t, a)));
      var u := Overlay(t1, Requests(RevokeRequests(t1, a)));
      ActiveOf(u, a) == {} && PendingOf(u, a) == {} && ApprovedOf(u, a) == {} && OnlyTouched(t, u, a)
  {
    hide Slice, ActiveOf, PendingOf, ApprovedOf;
    var t1 := Overlay(t, Grants(RevokeGrants(t, a)));
    var u := Overlay(t1, Requests(RevokeRequests(t1, a)));
    forall b | b != a ensures Slice(u, b) == Slice(t, b) {
      GrantsElsewhere(t, RevokeGrants(t, a), a, b);
      RequestsElsewhere(t1, RevokeRequests(t1, a), a, b);
    }
    Unwritten(t);
    Unwritten(t1);
    GrantsRevoked(t, a);
    RequestsRevoked(t1, a);
    SameSets(t1, u, a);
    assert u.grants.Keys == t.grants.Keys && u.requests.Keys == t.requests.Keys;
  }

  class Store {
    const keys: MemoryKeyProvider
    var tables: Tables
    var secrets: Secrets

    ghost function Here(): World
      reads this
    {
      World(tables, secrets)
    }

    ghost function Seen(): Obs
      reads this, keys, keys.keys.Values
    {
      ObsOf(keys.Model(), secrets)
    }

    /** The tables satisfy the approval invariant, and the provider holds its keys. */
    ghost predicate Sane()
      reads this, keys, keys.keys.Values
    {
      keys.Valid() && Valid(tables) && UniqueKeys(tables)
    }

    constructor (keys: MemoryKeyProvider)
      requires keys.Valid()
      ensures this.keys == keys && Sane() && Here() == INITIAL
    {
      this.keys := keys;
      tables := EMPTY;
      secrets := map[];
    }

    // ---- reading ----

    method ReadVersionOf(path: string, v: nat) returns (r: Result<Values>)
      requires keys.Valid()
      ensures r == ReadVersion(keys.Model(), secrets, path, v)
    {
      if path !in secrets {
        return Err(NotFound);
      }
      var versions := secrets[path].versions;
      var n := v;
      if v == 0 {
        n := MaxVersion(versions);
      }
      if n !in versions {
        return Err(NotFound);
      }
      var plain := OpenEnvelope(keys, versions[n], path, n);
      r := Decode(plain);
    }

    method Authenticate(token: string) returns (r: Result<AppId>)
      ensures r == if LocateToken(tables, token).Err? then Err(Unauthorized)
        else
          var a := LocateToken(tables, token).value;
          if a in tables.apps && TokenLive(tables, a, Sha256(token)) && tables.apps[a].enabled then Ok(a) else Err(Unauthorized)
    {
      if !WellFormedToken(token) {
        return Err(Unauthorized);
      }
      var hash := Sha256(token);
      if hash !in tables.tokens || tables.tokens[hash].app !in tables.apps {
        return Err(Unauthorized);
      }
      var a := tables.tokens[hash].app;
      if !tables.tokens[hash].live || !tables.apps[a].enabled {
        return Err(Unauthorized);
      }
      r := Ok(a);
    }

    method CheckPaths(patterns: seq<string>, paths: seq<string>) returns (r: Option<Error>)
      ensures r == if !AllAllowed(patterns, paths) then Some(Forbidden)
                   else if !AllPresent(Seen(), paths, 0) then Some(NotFound) else None
      ensures r == Some(Forbidden) <==> exists p | p in paths :: !Allowed(patterns, p)
      ensures r == Some(NotFound) <==>
              (forall p | p in paths :: Allowed(patterns, p)) && exists p | p in paths :: p !in secrets || secrets[p].archived
      ensures r in {None, Some(Forbidden), Some(NotFound)}
    {
      for i := 0 to |paths|
        invariant forall j | 0 <= j < i :: Allowed(patterns, paths[j])
      {
        if !Allowed(patterns, paths[i]) {
          return Some(Forbidden);
        }
      }
      for i := 0 to |paths|
        invariant forall j | 0 <= j < i :: Present(Seen(), paths[j])
      {
        if !LivePath(secrets, paths[i]) {
          assert !Present(Seen(), paths[i]);
          return Some(NotFound);
        }
      }
      r := None;
    }

    method ConfiguredPaths(patterns: seq<string>) returns (r: Result<seq<string>>)
      ensures var paths := Assigned(patterns, Ordered(LivePaths(secrets)));
        r == if paths == [] then Err(NotFound) else Ok(paths)
    {
      hide Allowed, Ordered, LivePaths;
      var listed := ListPaths(secrets);
      var paths: seq<string> := [];
      assert listed[0..] == listed;
      for i := 0 to |listed|
        invariant Assigned(patterns, listed) == paths + Assigned(patterns, listed[i..])
      {
        AssignedNext(patterns, listed, i);
        if Allowed(patterns, listed[i]) {
          paths := paths + [listed[i]];
        }
      }
      assert listed[|listed|..] == [] && paths + [] == paths;
      assert Assigned(patterns, listed[|listed|..]) == [];
      assert paths == Assigned(patterns, listed);
      if paths == [] {
        return Err(NotFound);
      }
      r := Ok(paths);
    }

    // ---- access and poll ----

    method HasGrant(a: AppId, now: int) returns (active: bool)
      modifies this`tables
      ensures active <==> ActiveOf(tables, a) != {}
      ensures forall g | g in ActiveOf(tables, a) :: GrantCurrent(tables.grants[g], now)
      ensures forall g | g in ActiveOf(old(tables), a) && GrantCurrent(old(tables).grants[g], now) :: g in ActiveOf(tables, a)
      ensures OnlyTouched(old(tables), tables, a)
      ensures Indefinite(old(tables)) ==> tables == old(tables)
      ensures tables.grants.Keys == old(tables).grants.Keys
      ensures forall g | g in tables.grants ::
                var was := old(tables).grants[g];
                tables.grants[g] == if was.app == a && was.status == Active && was.expires.Some? && was.expires.value <= now
                                    then Grant(a, Expired, was.expires, was.approvedBy) else was
      ensures active <==> exists g | g in old(tables).grants ::
                var was := old(tables).grants[g];
                was.app == a && was.status == Active && (was.expires.None? || was.expires.value > now)
      ensures tables == Overlay(old(tables), Grants(ExpireGrants(old(tables), a, now)))
    {
      WhatExpires(tables, a, now);
      ExpiryRows(tables, a, now);
      tables := Overlay(tables, Grants(ExpireGrants(tables, a, now)));
      active := HasCurrentGrant(tables, a, now);
    }

    /** Reads every path and logs each read; what it wrote before an error is left to the rollback. */
    method Deliver(a: AppId, paths: seq<string>, ghost t0: Tables) returns (answer: Answer)
      requires keys.Valid()
      modifies this`tables
      ensures var o := Delivering(t0, old(tables), a, paths, 0, map[], Seen());
        answer == o.answer && (!answer.Failed? ==> tables == o.tables)
    {
      hide Overlay, ReadVersion, ObsOf, ReadEvent;
      var out: map<string, Values> := map[];
      ghost var goal := Delivering(t0, tables, a, paths, 0, map[], Seen());
      for i := 0 to |paths|
        invariant goal == Delivering(t0, tables, a, paths, i, out, Seen())
      {
        var v := ReadVersionOf(paths[i], 0);
        ReadSeen(keys.Model(), secrets, paths[i]);
        if v.Err? {
          return Failed(v.error);
        }
        out := out[paths[i] := v.value];
        tables := Overlay(tables, Logged([ReadEvent(a, paths[i])]));
      }
      answer := Delivered(out);
    }

    /** Joins the pending request or opens one, and joins the instance of this key or adds one. */
    method JoinRequest(a: AppId, paths: seq<string>, op: Op, ghost t0: Tables) returns (answer: Answer)
      requires op.AccessOp? && Fresh(tables, op) && AtMostOne(PendingOf(tables, a)) && UniqueKeys(tables) && Linked(tables)
      modifies this`tables
      ensures var o := Asked(t0, old(tables), a, paths, op);
        answer == o.answer && (!answer.Failed? ==> tables == o.tables)
    {
      ghost var goal := Asked(t0, tables, a, paths, op);
      var pending := PendingOf(tables, a);
      var approval := op.ids.request;
      if pending == {} {
        tables := Overlay(tables, NewRequest(approval, a));
      } else {
        approval :| approval in pending;
        Picked(pending, approval);
      }
      assert goal == Announced(t0, tables, a, paths, approval, op);
      if approval == op.ids.request {
        tables := Overlay(tables, Logged([Event(AccessRequested, ByApp(a), Some(a), "")]));
      }
      assert goal == Joined(t0, tables, paths, approval, op);
      var same := InstancesWith(tables, approval, KeyOf(op));
      var handle := op.ids.instance;
      if same == {} {
        tables := Overlay(tables, NewInstance(handle, approval, KeyOf(op), paths));
      } else {
        handle :| handle in same;
        Picked(same, handle);
      }
      assert goal == Compared(t0, tables, paths, approval, handle);
      if handle !in tables.instances {
        return Failed(Internal);
      }
      if Printed(tables.instances[handle].paths) != Printed(paths) {
        return Failed(Conflict);
      }
      answer := Waiting(handle, approval, RETRY_AFTER);
    }

    /** Past the checks: deliver under a grant, or else wait for one. */
    method ServeOrJoin(a: AppId, paths: seq<string>, op: Op) returns (answer: Answer)
      requires Sane() && op.AccessOp? && Fresh(tables, op) && a in tables.apps
      modifies this`tables
      ensures var o := Granted(old(tables), a, paths, op, NewAccess, Seen());
        answer == o.answer && (!answer.Failed? ==> tables == o.tables)
    {
      hide Valid, Fresh, Delivering, Asked, ObsOf, HasCurrentGrant, ExpireGrants, PendingOf, OnlyTouched, UniqueKeys;
      ghost var t := tables;
      SoundParts(t);
      var active := HasGrant(a, op.now);
      NothingExpires(t, a, op.now);
      if active {
        answer := Deliver(a, paths, t);
      } else {
        OneRequest(t, a);
        answer := JoinRequest(a, paths, op, t);
      }
    }

    /** The body of an access between BEGIN and COMMIT or ROLLBACK. */
    method AccessTransaction(op: Op, wanted: seq<string>) returns (answer: Answer)
      requires Sane() && op.AccessOp? && Fresh(tables, op) && Prepare(op) == Ok(wanted)
      modifies this`tables
      ensures var o := Atomic(old(tables), op, Seen());
        answer == o.answer && (!answer.Failed? ==> tables == o.tables)
    {
      hide Valid, Fresh, Granted, ObsOf, Assigned, Ordered, AllAllowed, AllPresent, Normalize, UniqueKeys;
      ghost var t := tables;
      ghost var obs := Seen();
      PreparedPaths(op, wanted);
      var auth := Authenticate(op.token);
      if auth.Err? {
        return Failed(auth.error);
      }
      var a := auth.value;
      var row := tables.apps[a];
      assert Atomic(t, op, obs) == Authenticated(t, a, row, op, obs);
      var paths := wanted;
      if op.paths == [] {
        var configured := ConfiguredPaths(row.allowed);
        Answers.ListedObs(keys.Model(), secrets);
        if configured.Err? {
          return Failed(configured.error);
        }
        paths := configured.value;
      }
      assert Atomic(t, op, obs) == Checked(t, a, row, paths, op, NewAccess, obs);
      var refused := CheckPaths(row.allowed, paths);
      if refused.Some? {
        return Failed(refused.value);
      }
      assert Atomic(t, op, obs) == Granted(t, a, paths, op, NewAccess, obs);
      answer := ServeOrJoin(a, paths, op);
    }

    method Access(token: string, paths: seq<string>, instance: string, now: int, ids: Ids) returns (answer: Answer)
      requires Sane() && Fresh(tables, AccessOp(token, paths, instance, now, ids))
      modifies this`tables
      ensures var c := Lock(AccessOp(token, paths, instance, now, ids), old(Seen()));
        Reply(Here(), answer) == Apply(keys.Model(), old(Here()), c)
      ensures Sane()
      ensures answer.Delivered? ==> forall p | p in answer.secrets :: p in secrets && !secrets[p].archived
    {
      hide Valid, Atomic, Fresh, ObsOf, UniqueKeys, Normalize;
      DeliveredLive(keys.Model(), Here(), AccessOp(token, paths, instance, now, ids));
      var op := AccessOp(token, paths, instance, now, ids);
      ghost var c := Lock(op, Seen());
      ghost var w := Here();
      AtomicKeeps(keys.Model(), w, c);
      RefusedEarly(tables, op, Seen());
      var wanted := [];
      if paths != [] {
        var normalized := NormalizePaths(paths);
        if normalized.Err? {
          return Failed(normalized.error);
        }
        wanted := normalized.value;
      }
      if |instance| > MAX_KEY {
        return Failed(Invalid);
      }
      var saved := tables;
      answer := AccessTransaction(op, wanted);
      if answer.Failed? {
        tables := saved;
      }
    }

    method PollTransaction(op: Op) returns (answer: Answer)
      requires Sane() && op.PollOp?
      modifies this`tables
      ensures var o := Atomic(old(tables), op, Seen());
        answer == o.answer && (!answer.Failed? ==> tables == o.tables)
    {
      hide Valid, Delivering, ObsOf, AllAllowed, AllPresent, Linked, UniqueKeys, Indefinite, Sound, HasCurrentGrant,
        ExpireGrants;
      ghost var t := tables;
      ghost var obs := Seen();
      assert Linked(t) && Indefinite(t) by { SoundParts(t); }
      var auth := Authenticate(op.token);
      if auth.Err? {
        return Failed(auth.error);
      }
      var a := auth.value;
      var row := tables.apps[a];
      if !HandleOf(tables, a, op.handle) {
        return Failed(NotFound);
      }
      var instance := tables.instances[op.handle];
      var status := tables.requests[instance.request].status;
      var refused := CheckPaths(row.allowed, instance.paths);
      if refused.Some? {
        return Failed(refused.value);
      }
      if status == Pending {
        return Waiting(op.handle, instance.request, RETRY_AFTER);
      }
      if status != Approved {
        return Closed(status, op.handle, instance.request);
      }
      var active := HasGrant(a, op.now);
      NothingExpires(t, a, op.now);
      if active {
        answer := Deliver(a, instance.paths, t);
      } else {
        answer := Closed(Revoked, op.handle, instance.request);
      }
    }

    method Poll(token: string, handle: string, now: int) returns (answer: Answer)
      requires Sane()
      modifies this`tables
      ensures var c := Lock(PollOp(token, handle, now), old(Seen()));
        Reply(Here(), answer) == Apply(keys.Model(), old(Here()), c)
      ensures Sane()
      ensures answer.Delivered? ==> forall p | p in answer.secrets :: p in secrets && !secrets[p].archived
    {
      hide Valid, Atomic, ObsOf, UniqueKeys;
      DeliveredLive(keys.Model(), Here(), PollOp(token, handle, now));
      var op := PollOp(token, handle, now);
      ghost var c := Lock(op, Seen());
      AtomicKeeps(keys.Model(), Here(), c);
      var saved := tables;
      answer := PollTransaction(op);
      if answer.Failed? {
        tables := saved;
      }
    }

    // ---- the administrator's transactions ----

    method ResolveTransaction(op: Op) returns (answer: Answer)
      requires op.ResolveOp?
      modifies this`tables
      ensures var o := Atomic(old(tables), op, UNSEEN);
        answer == o.answer && (!answer.Failed? ==> tables == o.tables)
    {
      if op.request !in tables.requests {
        return Failed(NotFound);
      }
      var a := tables.requests[op.request].app;
      if a !in tables.apps {
        return Failed(Internal);
      }
      if !tables.apps[a].enabled {
        return Failed(Conflict);
      }
      var updated := Decide(tables, op);
      tables := Overlay(tables, Requests(updated));
      if updated == map[] {
        return Failed(Conflict);
      }
      if op.approve {
        if HasActiveGrant(tables, a) {
          return Failed(Internal);
        }
        tables := Overlay(tables, NewGrant(a, op));
      }
      tables := Overlay(tables, Logged([DecisionEvent(a, op)]));
      answer := Resolved;
    }

    method Resolve(request: string, admin: int, approve: bool, grant: GrantId) returns (answer: Answer)
      requires Sane() && Fresh(tables, ResolveOp(request, admin, approve, grant))
      modifies this`tables
      ensures var c := Lock(ResolveOp(request, admin, approve, grant), UNSEEN);
        Reply(Here(), answer) == Apply(keys.Model(), old(Here()), c)
      ensures Sane()
      ensures answer == Resolved <==>
              && request in old(tables).requests && old(tables).requests[request].status == Pending
              && old(tables).apps[old(tables).requests[request].app].enabled
      ensures answer == Resolved ==>
                && request in tables.requests && tables.requests[request].status == (if approve then Approved else Denied)
                && tables.requests[request].resolvedBy == Some(admin)
    {
      hide Valid, Atomic, UniqueKeys, Fresh;
      var op := ResolveOp(request, admin, approve, grant);
      ResolvedRow(tables, op);
      AtomicKeeps(keys.Model(), Here(), Lock(op, UNSEEN));
      var saved := tables;
      answer := ResolveTransaction(op);
      if answer.Failed? {
        tables := saved;
      }
    }

    /** `revoke`: the active grant and every open or approved request go. */
    method RevokeAll(a: AppId)
      modifies this`tables
      ensures ActiveOf(tables, a) == {} && PendingOf(tables, a) == {} && ApprovedOf(tables, a) == {}
      ensures OnlyTouched(old(tables), tables, a)
      ensures var t1 := Overlay(old(tables), Grants(RevokeGrants(old(tables), a)));
        tables == Overlay(t1, Requests(RevokeRequests(t1, a)))
    {
      WhatRevokes(tables, a);
      tables := Overlay(tables, Grants(RevokeGrants(tables, a)));
      tables := Overlay(tables, Requests(RevokeRequests(tables, a)));
    }

    method ChangeTransaction(op: Op) returns (answer: Answer)
      requires op.ChangeOp?
      modifies this`tables
      ensures var o := Atomic(old(tables), op, UNSEEN);
        answer == o.answer && (!answer.Failed? ==> tables == o.tables)
    {
      hide ValidApplication, RevokeGrants, RevokeRequests, RevokeTokens, Overlay;
      var a := op.app;
      if a !in tables.apps {
        return Failed(NotFound);
      }
      var row := tables.apps[a];
      var token := "";
      match op.action {
        case Rotate =>
          token := op.newToken;
          tables := Overlay(tables, Tokens(RevokeTokens(tables, a)));
          tables := Overlay(tables, NewToken(a, token));
        case Disable => tables := Overlay(tables, Apps(map[a := row.(enabled := false)]));
        case Enable => tables := Overlay(tables, Apps(map[a := row.(enabled := true)]));
        case SetPaths(patterns) =>
          if !ValidApplication("x", "x", patterns) {
            return Failed(Invalid);
          }
          tables := Overlay(tables, Apps(map[a := row.(allowed := patterns)]));
        case Revoke =>
        case Unknown => return Failed(Invalid);
      }
      if !op.action.Enable? {
        RevokeAll(a);
      }
      tables := Overlay(tables, Logged([Event(ChangeKind(op.action), ByAdmin(op.admin), Some(a), "")]));
      answer := Changed(token);
    }

    method ChangeApplication(app: AppId, admin: int, action: Action, newToken: string) returns (answer: Answer)
      requires Sane() && Fresh(tables, ChangeOp(app, admin, action, newToken))
      modifies this`tables
      ensures var c := Lock(ChangeOp(app, admin, action, newToken), UNSEEN);
        Reply(Here(), answer) == Apply(keys.Model(), old(Here()), c)
      ensures Sane()
      ensures answer.Changed? <==>
              && app in old(tables).apps && !action.Unknown?
              && (action.SetPaths? ==> 1 <= |action.patterns| <= 100 && forall p | p in action.patterns :: ValidPattern(p))
      ensures answer.Changed? ==>
                && app in tables.apps
                && tables.apps[app] == Application(
                     old(tables).apps[app].name, old(tables).apps[app].environment,
                     if action.Disable? then false else if action.Enable? then true else old(tables).apps[app].enabled,
                     if action.SetPaths? then action.patterns else old(tables).apps[app].allowed)
    {
      hide Valid, Atomic, UniqueKeys, Fresh, ValidPattern;
      var op := ChangeOp(app, admin, action, newToken);
      ChangedRow(tables, op);
      AtomicKeeps(keys.Model(), Here(), Lock(op, UNSEEN));
      var saved := tables;
      answer := ChangeTransaction(op);
      if answer.Failed? {
        tables := saved;
      }
    }

    method CreateApplication(name: string, environment: string, patterns: seq<string>, admin: int, app: AppId,
        token: string)
      returns (answer: Answer)
      requires Sane() && FreshCall(Here(), Create(name, environment, patterns, admin, app, token))
      modifies this`tables
      ensures var c := Create(name, environment, patterns, admin, app, token);
        Reply(Here(), answer) == Apply(keys.Model(), old(Here()), c)
      ensures Sane()
    {
      hide Valid, UniqueKeys;
      ghost var c := Create(name, environment, patterns, admin, app, token);
      CallKeeps(keys.Model(), Here(), c);
      ghost var t := tables;
      if !ValidApplication(name, environment, patterns) {
        return Failed(Invalid);
      }
      if NameTaken(tables, name, environment) {
        return Failed(Internal);
      }
      tables := Overlay(tables, Apps(map[app := Application(name, environment, true, patterns)]));
      tables := Overlay(tables, NewToken(app, token));
      tables := Overlay(tables, Logged([Event(AppCreated, ByAdmin(admin), Some(app), "")]));
      RegistrationRows(t, c);
      answer := Created(app, token);
    }

    // ---- secrets ----

    /** Seals and inserts the next version, revives the path and logs it. */
    method WriteNext(path: string, values: Values, admin: int, coins: Coins) returns (r: Result<nat>)
      requires keys.Valid()
      modifies this`tables, this`secrets
      ensures var w := WriteVersion(keys.Model(), old(secrets), path, values, coins);
        match w
        case Err(e) => r == Err(e) && Here() == old(Here())
        case Ok(x) => r == Ok(x.version) && secrets == old(secrets)[path := x.row]
                      && tables == Log(old(tables), WriteEvents(path, x.version, admin))
    {
      var versions := if path in secrets then secrets[path].versions else map[];
      var n := MaxVersion(versions);
      var v := n + 1;
      var e := SealEnvelope(keys, Json(values), path, v, coins);
      if e.Err? {
        assert false;
        return Err(Internal);
      }
      secrets := secrets[path := SecretRow(false, versions[v := e.value])];
      tables := Overlay(tables, Logged([Event(if v == 1 then SecretCreated else SecretUpdated, ByAdmin(admin), None, path)]));
      r := Ok(v);
    }

    method SaveSecret(path: string, values: Values, jsonSize: nat, admin: int, coins: Coins) returns (answer: Answer)
      requires Sane() && ValidCoins(coins)
      modifies this`tables, this`secrets
      ensures var c := Save(path, values, jsonSize, admin, coins);
        Reply(Here(), answer) == Apply(keys.Model(), old(Here()), c)
      ensures Sane()
    {
      hide Valid, UniqueKeys, WriteVersion, Log, WriteEvents;
      ghost var c := Save(path, values, jsonSize, admin, coins);
      CallKeeps(keys.Model(), Here(), c);
      if !ValidPath(path) || !ValidValues(values, jsonSize) {
        return Failed(Invalid);
      }
      var v := WriteNext(path, values, admin, coins);
      answer := if v.Err? then Failed(v.error) else Saved(v.value);
    }

    method RestoreVersion(path: string, version: int, admin: int, coins: Coins) returns (answer: Answer)
      requires Sane() && ValidCoins(coins)
      modifies this`tables, this`secrets
      ensures var c := Restore(path, version, admin, coins);
        Reply(Here(), answer) == Apply(keys.Model(), old(Here()), c)
      ensures Sane()
    {
      hide Valid, UniqueKeys, WriteVersion, ReadVersion;
      ghost var c := Restore(path, version, admin, coins);
      ghost var t := tables;
      CallKeeps(keys.Model(), Here(), c);
      if version < 1 {
        return Failed(Invalid);
      }
      if path !in secrets {
        return Failed(NotFound);
      }
      var values := ReadVersionOf(path, version);
      if values.Err? {
        return Failed(values.error);
      }
      var v := WriteNext(path, values.value, admin, coins);
      if v.Err? {
        return Failed(v.error);
      }
      ghost var written := WriteEvents(path, v.value, admin);
      ghost var restored := [Event(SecretRestored, ByAdmin(admin), None, path)];
      tables := Overlay(tables, Logged([Event(SecretRestored, ByAdmin(admin), None, path)]));
      OverlayAssociative(t, Logged(written), Logged(restored));
      LogTwice(written, restored);
      answer := Answer.Restored;
    }

    method ArchiveSecret(path: string, admin: int) returns (answer: Answer)
      requires Sane()
      modifies this`tables, this`secrets
      ensures Reply(Here(), answer) == Apply(keys.Model(), old(Here()), Archive(path, admin))
      ensures Sane()
      ensures answer == Archived <==> path in old(secrets) && !old(secrets)[path].archived
      ensures answer == Archived ==> path in secrets && secrets[path] == SecretRow(true, old(secrets)[path].versions)
    {
      hide Valid, UniqueKeys;
      CallKeeps(keys.Model(), Here(), Archive(path, admin));
      if !LivePath(secrets, path) {
        return Failed(NotFound);
      }
      secrets := secrets[path := secrets[path].(archived := true)];
      tables := Overlay(tables, Logged([Event(SecretArchived, ByAdmin(admin), None, path)]));
      answer := Archived;
    }

    method ReadSecret(path: string, admin: int) returns (answer: Answer)
      requires Sane()
      modifies this`tables
      ensures Reply(Here(), answer) == Apply(keys.Model(), old(Here()), View(path, admin))
      ensures Sane()
    {
      hide Valid, UniqueKeys, ReadVersion;
      CallKeeps(keys.Model(), Here(), View(path, admin));
      var v := ReadVersionOf(path, 0);
      if v.Err? {
        return Failed(v.error);
      }
      tables := Overlay(tables, Logged([Event(SecretRead, ByAdmin(admin), None, path)]));
      answer := Shown(v.value);
    }
  }

  /** What is delivered is stored and not archived. */
  lemma DeliveredLive(k: Provider, w: World, op: Op)
    requires Valid(w.tables) && Fresh(w.tables, op) && (op.AccessOp? || op.PollOp?)
    ensures var answer := Atomic(w.tables, op, ObsOf(k, w.secrets)).answer;
      answer.Delivered? ==> forall p | p in answer.secrets :: p in w.secrets && !w.secrets[p].archived
  {
    hide Valid, Fresh, Atomic, Requestable, AllReadable, JoinWrites, JoinClosed, Overlay, ActiveOf, Asks, ReadVersion;
    var obs := ObsOf(k, w.secrets);
    var d := Deeds.WhatHappened(k, w, Lock(op, obs));
    if d.Served? {
      forall p | p in d.paths ensures p in w.secrets && !w.secrets[p].archived {
        var i :| 0 <= i < |d.paths| && d.paths[i] == p;
        assert Present(obs, d.paths[i]);
      }
    }
  }

  lemma ResolvedRow(t: Tables, op: Op)
    requires op.ResolveOp? && Valid(t)
    ensures var o := Atomic(t, op, UNSEEN);
      && (op.request in t.requests ==> t.requests[op.request].app in t.apps)
      && (o.answer == Resolved <==>
            op.request in t.requests && t.requests[op.request].status == Pending && t.apps[t.requests[op.request].app].enabled)
      && (o.answer == Resolved ==>
            && op.request in o.tables.requests
            && o.tables.requests[op.request].status == (if op.approve then Approved else Denied)
            && o.tables.requests[op.request].resolvedBy == Some(op.admin))
  {
    hide Atomic, Orderly, StandingOf, Linked, Indefinite;
    Contracts.ResolutionRefused(t, op, UNSEEN);
    if op.request in t.requests {
      var a := t.requests[op.request].app;
      assert a in t.apps;
      if t.requests[op.request].status == Pending && t.apps[a].enabled {
        PendingMeansNoGrant(t, op);
        NoActiveRow(t, a);
        Contracts.Resolution(t, op, UNSEEN);
      }
    }
  }

  lemma NoActiveRow(t: Tables, a: AppId)
    requires ActiveOf(t, a) == {}
    ensures forall g | g in t.grants :: !(t.grants[g].app == a && t.grants[g].status == Active)
  {
    forall g | g in t.grants ensures !(t.grants[g].app == a && t.grants[g].status == Active) {
      assert g !in ActiveOf(t, a);
    }
  }

  lemma ChangedRow(t: Tables, op: Op)
    requires op.ChangeOp?
    ensures var o := Atomic(t, op, UNSEEN);
      && (o.answer.Changed? <==>
            && op.app in t.apps && !op.action.Unknown?
            && (op.action.SetPaths? ==> 1 <= |op.action.patterns| <= 100 && forall p | p in op.action.patterns :: ValidPattern(p)))
      && (o.answer.Changed? ==>
            && op.app in o.tables.apps
            && o.tables.apps[op.app] == Application(
                 t.apps[op.app].name, t.apps[op.app].environment,
                 if op.action.Disable? then false else if op.action.Enable? then true else t.apps[op.app].enabled,
                 if op.action.SetPaths? then op.action.patterns else t.apps[op.app].allowed))
  {
    hide Atomic, ValidPattern;
    Contracts.AlterationRefused(t, op, UNSEEN);
    if op.app in t.apps && !op.action.Unknown?
        && (op.action.SetPaths? ==> 1 <= |op.action.patterns| <= 100 && forall p | p in op.action.patterns :: ValidPattern(p)) {
      Contracts.AlteredRow(t, op, UNSEEN);
    }
  }

  lemma RegistrationRows(t: Tables, c: Call)
    requires c.Create?
    ensures Overlay(Overlay(Overlay(t, Apps(map[c.app := Application(c.name, c.environment, true, c.patterns)])), NewToken(c.app, c.token)),
                    Logged([Event(AppCreated, ByAdmin(c.admin), Some(c.app), "")]))
         == Overlay(t, Registration(c))
  {
    Unwritten(t);
    var t1 := Overlay(t, Apps(map[c.app := Application(c.name, c.environment, true, c.patterns)]));
    Unwritten(t1);
    Unwritten(Overlay(t1, NewToken(c.app, c.token)));
  }

  lemma CallKeeps(k: Provider, w: World, c: Call)
    requires Valid(w.tables) && UniqueKeys(w.tables) && FreshCall(w, c)
    ensures Valid(Apply(k, w, c).world.tables) && UniqueKeys(Apply(k, w, c).world.tables)
  {
    hide Valid, UniqueKeys, Apply, FreshCall;
    ApplyValid(k, w, c);
    UniqueStep(k, w, c);
  }

  lemma PreparedPaths(op: Op, wanted: seq<string>)
    requires op.AccessOp? && Prepare(op) == Ok(wanted)
    ensures op.paths == [] ==> wanted == []
    ensures |op.instance| <= MAX_KEY
  {
  }

  lemma ReadSeen(k: Provider, s: Secrets, p: string)
    ensures ReadOf(ObsOf(k, s), p) == ReadVersion(k, s, p, 0)
  {
  }

  lemma OneRequest(t: Tables, a: AppId)
    requires Valid(t) && a in t.apps
    ensures AtMostOne(PendingOf(t, a))
  {
    assert Orderly(StandingOf(t, a));
  }

  lemma RefusedEarly(t: Tables, op: Op, obs: Obs)
    requires op.AccessOp?
    ensures Prepare(op).Err? ==> Atomic(t, op, obs) == Fail(t, Prepare(op).error)
    ensures Prepare(op) == if op.paths != [] && Normalize(op.paths).Err? then Err(Normalize(op.paths).error)
                           else if |op.instance| > MAX_KEY then Err(Invalid)
                           else if op.paths == [] then Ok([]) else Ok(Normalize(op.paths).value)
  {
  }

  /** A failed call changes nothing, and every call keeps the invariants. */
  lemma AtomicKeeps(k: Provider, w: World, c: Call)
    requires Valid(w.tables) && UniqueKeys(w.tables) && c.Lock? && FreshCall(w, c)
    ensures Atomic(w.tables, c.op, c.obs).answer.Failed? ==> Atomic(w.tables, c.op, c.obs).tables == w.tables
    ensures Valid(Atomic(w.tables, c.op, c.obs).tables) && UniqueKeys(Atomic(w.tables, c.op, c.obs).tables)
  {
    hide Valid, UniqueKeys, Atomic, Gate, AllReadable, Requestable, JoinWrites, Overlay, Bundle, JoinClosed,
      ActiveOf, Fresh;
    AtomicValid(w.tables, c.op, c.obs);
    UniqueStep(k, w, c);
    var d := Deeds.WhatHappened(k, w, c);
  }
}
