/**
 * What an access or a poll is answered, written out on the rows and on the plain store while the
 * secrets stand still: every error in its order, the delivery, and the waiting (access.go).
 */
module Answers {
  import opened Results
  import opened Envelopes
  import opened Vault
  import opened Database
  import opened Protocol
  import opened Locality
  import opened Effects
  import opened Invariants
  import opened Runs
  import opened Handles
  import opened Delivery
  import opened Text
  import opened Paths

  // ---- before the checks on paths ----

  /** More than a hundred paths, a path outside the language or a key over 128 is invalid, whoever asks. */
  lemma MalformedRequest(t: Tables, op: Op, obs: Obs)
    requires op.AccessOp?
    requires |op.paths| > 100 || (exists p | p in op.paths :: !ValidPath(p)) || |op.instance| > 128
    ensures Atomic(t, op, obs) == Outcome(t, Failed(Invalid))
  {
    hide ValidPath, Sort, Locked;
  }

  lemma WellFormedRequest(op: Op)
    requires op.AccessOp? && |op.paths| <= 100 && |op.instance| <= 128 && forall p | p in op.paths :: ValidPath(p)
    ensures Prepare(op).Ok? && Elements(Prepare(op).value) == Elements(op.paths) && StrictlySorted(Prepare(op).value)
    ensures op.paths == [] <==> Prepare(op).value == []
  {
    hide ValidPath, Sort;
    SortCanonical(op.paths);
    if op.paths != [] { assert op.paths[0] in Elements(op.paths); }
  }

  /** A request without a well-formed live token of an enabled application is unauthorized. */
  lemma Unauthenticated(t: Tables, op: Op, obs: Obs)
    requires op.PollOp? || (op.AccessOp? && |op.paths| <= 100 && |op.instance| <= 128 && forall p | p in op.paths :: ValidPath(p))
    requires !(&& "lg_app_" <= op.token && |op.token| <= 128
               && Sha256(op.token) in t.tokens && t.tokens[Sha256(op.token)].live
               && t.tokens[Sha256(op.token)].app in t.apps && t.apps[t.tokens[Sha256(op.token)].app].enabled)
    ensures Atomic(t, op, obs) == Outcome(t, Failed(Unauthorized))
  {
    hide ValidPath, Normalize, Found, Configured, Checked;
    if op.AccessOp? { WellFormedRequest(op); }
    assert HasPrefix(op.token, "lg_app_") <==> "lg_app_" <= op.token;
  }

  /** An authenticated request goes on to the checks of its paths. */
  lemma Authentic(t: Tables, op: Op, obs: Obs, a: AppId)
    requires op.AccessOp? || op.PollOp?
    requires Prepare(op).Ok?
    requires "lg_app_" <= op.token && |op.token| <= 128
    requires Sha256(op.token) in t.tokens && t.tokens[Sha256(op.token)] == Token(a, true) && a in t.apps && t.apps[a].enabled
    ensures Locate(t, op) == Ok(a)
    ensures op.PollOp? ==> Atomic(t, op, obs) == Found(t, a, t.apps[a], op, obs)
    ensures op.AccessOp? && op.paths == [] ==> Atomic(t, op, obs) == Configured(t, a, t.apps[a], op, obs)
    ensures op.AccessOp? && op.paths != [] ==> Atomic(t, op, obs) == Checked(t, a, t.apps[a], Prepare(op).value, op, NewAccess, obs)
  {
    hide Prepare, Found, Configured, Checked;
  }

  // ---- the checks ----

  /** Outside the boundary is Forbidden, missing or archived NotFound, in this order. */
  lemma CheckedPaths(k: Provider, s: Secrets, m: Plain, t: Tables, a: AppId, paths: seq<string>, op: Op, then_: Then)
    requires Represents(k, s, m) && Fits(op, then_) && a in t.apps
    ensures var o := Checked(t, a, t.apps[a], paths, op, then_, ObsOf(k, s));
      if exists p | p in paths :: !Allowed(t.apps[a].allowed, p) then o == Outcome(t, Failed(Forbidden))
      else if exists p | p in paths :: p !in m || m[p].archived then o == Outcome(t, Failed(NotFound))
      else o == AfterGate(t, op, ObsOf(k, s), a, paths, then_)
  {
    hide Represents, Granted, Allowed, ReadVersion;
    var obs := ObsOf(k, s);
    forall p | p in paths ensures Present(obs, p) <==> p in m && !m[p].archived {
      RepresentsKeys(k, s, m, p);
    }
  }

  lemma LiveNow(k: Provider, s: Secrets, m: Plain)
    requires Represents(k, s, m)
    ensures LivePaths(s) == set p | p in m && !m[p].archived
  {
    hide Represents;
    forall p ensures p in LivePaths(s) <==> p in m && !m[p].archived {
      RepresentsKeys(k, s, m, p);
    }
  }

  /** What is left of an access: the paths it asks for, named or configured. */
  lemma Asked(k: Provider, s: Secrets, m: Plain, t: Tables, op: Op, a: AppId) returns (paths: seq<string>)
    requires Represents(k, s, m) && op.AccessOp?
    requires |op.paths| <= 100 && |op.instance| <= 128 && forall p | p in op.paths :: ValidPath(p)
    requires "lg_app_" <= op.token && |op.token| <= 128
    requires Sha256(op.token) in t.tokens && t.tokens[Sha256(op.token)] == Token(a, true) && a in t.apps && t.apps[a].enabled
    ensures StrictlySorted(paths)
    ensures Elements(paths) == if op.paths == [] then set p | p in m && !m[p].archived && Allowed(t.apps[a].allowed, p)
                               else Elements(op.paths)
    ensures Atomic(t, op, ObsOf(k, s))
         == if paths == [] then Outcome(t, Failed(NotFound)) else Checked(t, a, t.apps[a], paths, op, NewAccess, ObsOf(k, s))
  {
    hide Represents, Checked, Prepare, ValidPath, Allowed, ReadVersion, LivePaths, Ordered, Assigned;
    WellFormedRequest(op);
    Authentic(t, op, ObsOf(k, s), a);
    if op.paths == [] {
      var listed := Ordered(LivePaths(s));
      LiveNow(k, s, m);
      paths := Assigned(t.apps[a].allowed, listed);
      AssignedSorted(t.apps[a].allowed, listed);
      forall p ensures p in paths <==> p in m && !m[p].archived && Allowed(t.apps[a].allowed, p) {
        assert p in listed <==> p in Elements(listed);
      }
      ListedObs(k, s);
    } else {
      paths := Prepare(op).value;
    }
  }

  lemma ListedObs(k: Provider, s: Secrets)
    ensures ObsOf(k, s).listed == Some(LivePaths(s))
  {
  }

  // ---- past the checks ----

  /** Served under an active grant: exactly these paths, each with its newest value, one event for each. */
  lemma Served(k: Provider, s: Secrets, m: Plain, t: Tables, op: Op, a: AppId, paths: seq<string>, then_: Then)
    requires Valid(t) && Fresh(t, op) && Represents(k, s, m) && Fits(op, then_)
    requires then_.NewAccess? || then_.status == Approved
    requires forall p | p in paths :: p in m && !m[p].archived
    requires exists g | g in t.grants :: t.grants[g].app == a && t.grants[g].status == Active
    ensures forall p | p in paths :: m[p].history != []
    ensures AfterGate(t, op, ObsOf(k, s), a, paths, then_)
         == Outcome(t.(audit := t.audit + seq(|paths|, i requires 0 <= i < |paths| => Event(SecretRead, ByApp(a), Some(a), paths[i]))),
                    Delivered(map p | p in paths :: m[p].history[|m[p].history| - 1]))
  {
    hide Valid, Granted, Fresh, Represents, Bundle, AllReadable, ObsOf, Overlay;
    LivePresent(k, s, m, paths);
    PresentStored(k, s, m, paths);
    SoundParts(t);
    GrantedIsClosed(t, a, paths, op, then_, ObsOf(k, s));
    GrantedRow(t, a);
    LoggedAll(t, ReadEvents(a, paths));
    assert ReadEvents(a, paths) == seq(|paths|, i requires 0 <= i < |paths| => Event(SecretRead, ByApp(a), Some(a), paths[i]));
  }

  lemma LivePresent(k: Provider, s: Secrets, m: Plain, paths: seq<string>)
    requires Represents(k, s, m) && forall p | p in paths :: p in m && !m[p].archived
    ensures AllPresent(ObsOf(k, s), paths, 0)
  {
    hide Represents, ReadVersion;
    forall i | 0 <= i < |paths| ensures Present(ObsOf(k, s), paths[i]) {
      RepresentsKeys(k, s, m, paths[i]);
    }
  }

  lemma GrantedRow(t: Tables, a: AppId)
    ensures ActiveOf(t, a) != {} <==> exists g | g in t.grants :: t.grants[g].app == a && t.grants[g].status == Active
  {
    if g :| g in t.grants && t.grants[g].app == a && t.grants[g].status == Active { assert g in ActiveOf(t, a); }
    if g :| g in ActiveOf(t, a) { assert g in t.grants; }
  }

  lemma LoggedAll(t: Tables, events: seq<Event>)
    ensures Overlay(t, Logged(events)) == t.(audit := t.audit + events)
  {
    Unwritten(t);
  }

  /** Without a grant and a pending request, an access opens one, with its first instance and one event. */
  lemma OpensRequest(t: Tables, op: Op, obs: Obs, a: AppId, paths: seq<string>)
    requires Valid(t) && Fresh(t, op) && op.AccessOp? && a in t.apps
    requires forall g | g in t.grants :: !(t.grants[g].app == a && t.grants[g].status == Active)
    requires forall r | r in t.requests :: !(t.requests[r].app == a && t.requests[r].status == Pending)
    ensures AfterGate(t, op, obs, a, paths, NewAccess)
         == Outcome(t.(
              requests := t.requests[op.ids.request := Request(a, Pending, None)],
              instances := t.instances[op.ids.instance :=
                Instance(op.ids.request, if op.instance == "" then op.ids.key else op.instance, paths)],
              audit := t.audit + [Event(AccessRequested, ByApp(a), Some(a), "")]),
            Waiting(op.ids.instance, op.ids.request, 3))
  {
    hide Valid, Granted, Bundle, AllReadable, Delivering, Fresh, JoinClosed, PendingOf;
    SoundParts(t);
    GrantedRow(t, a);
    GrantedIsClosed(t, a, paths, op, NewAccess, obs);
    assert PendingOf(t, a) == {} by { NonePending(t, a); }
    NoInstanceYet(t, op);
    OpenedRows(t, op, a, paths);
  }

  lemma NonePending(t: Tables, a: AppId)
    requires forall r | r in t.requests :: !(t.requests[r].app == a && t.requests[r].status == Pending)
    ensures PendingOf(t, a) == {}
  {
  }

  lemma NoInstanceYet(t: Tables, op: Op)
    requires Linked(t) && Fresh(t, op) && op.AccessOp?
    ensures forall key :: InstancesWith(t, op.ids.request, key) == {}
  {
  }

  lemma OpenedRows(t: Tables, op: Op, a: AppId, paths: seq<string>)
    requires op.AccessOp? && PendingOf(t, a) == {} && forall key :: InstancesWith(t, op.ids.request, key) == {}
    ensures JoinClosed(t, a, paths, op)
         == Outcome(t.(
              requests := t.requests[op.ids.request := Request(a, Pending, None)],
              instances := t.instances[op.ids.instance :=
                Instance(op.ids.request, if op.instance == "" then op.ids.key else op.instance, paths)],
              audit := t.audit + [Event(AccessRequested, ByApp(a), Some(a), "")]),
            Waiting(op.ids.instance, op.ids.request, 3))
  {
    hide PendingOf, InstancesWith, Overlay;
    WrittenTables(t, op.ids.request, Request(a, Pending, None), op.ids.instance,
      Instance(op.ids.request, if op.instance == "" then op.ids.key else op.instance, paths),
      Event(AccessRequested, ByApp(a), Some(a), ""));
  }

  lemma WrittenTables(t: Tables, r: string, request: Request, i: string, instance: Instance, e: Event)
    ensures Overlay(t, Tables(map[], map[], map[r := request], map[i := instance], map[], [e]))
         == t.(requests := t.requests[r := request], instances := t.instances[i := instance], audit := t.audit + [e])
  {
    Unwritten(t);
  }

  /** While one is pending it joins that one: under a key of its own, or under a known key for the same paths only. */
  lemma JoinsRequest(t: Tables, op: Op, obs: Obs, a: AppId, paths: seq<string>, approval: string)
    requires Valid(t) && UniqueKeys(t) && Fresh(t, op) && op.AccessOp? && a in t.apps && Requestable(paths)
    requires approval in t.requests && t.requests[approval].app == a && t.requests[approval].status == Pending
    ensures var o := AfterGate(t, op, obs, a, paths, NewAccess);
      var key := if op.instance == "" then op.ids.key else op.instance;
      && (forall i | i in t.instances && t.instances[i].request == approval && t.instances[i].key == key ::
            o == Outcome(t, if t.instances[i].paths == paths then Waiting(i, approval, 3) else Failed(Conflict)))
      && ((forall i | i in t.instances :: !(t.instances[i].request == approval && t.instances[i].key == key)) ==>
            o == Outcome(t.(instances := t.instances[op.ids.instance := Instance(approval, key, paths)]),
                         Waiting(op.ids.instance, approval, 3)))
  {
    hide Valid, Granted, Bundle, AllReadable, Delivering, Fresh, JoinClosed, Requestable;
    SoundParts(t);
    PendingAlone(t, a, approval);
    GrantedIsClosed(t, a, paths, op, NewAccess, obs);
    var key := if op.instance == "" then op.ids.key else op.instance;
    forall i | i in t.instances && t.instances[i].request == approval && t.instances[i].key == key
      ensures JoinClosed(t, a, paths, op)
           == Outcome(t, if t.instances[i].paths == paths then Waiting(i, approval, 3) else Failed(Conflict))
    {
      KeyedInstance(t, op, i, approval, t.instances[i].paths);
      Rejoined(t, a, op, paths, i, approval);
      assert Requestable(t.instances[i].paths) by { StoredRequestable(t, i); }
      RequestableValid(t.instances[i].paths, paths);
      PrintedInjective(t.instances[i].paths, paths);
    }
    if forall i | i in t.instances :: !(t.instances[i].request == approval && t.instances[i].key == key) {
      NewKey(t, op, a, paths, approval);
    }
  }

  lemma PendingAlone(t: Tables, a: AppId, approval: string)
    requires Valid(t) && a in t.apps
    requires approval in t.requests && t.requests[approval].app == a && t.requests[approval].status == Pending
    ensures PendingOf(t, a) == {approval} && ActiveOf(t, a) == {}
  {
    assert Orderly(StandingOf(t, a));
    assert approval in PendingOf(t, a);
  }

  lemma NewKey(t: Tables, op: Op, a: AppId, paths: seq<string>, approval: string)
    requires op.AccessOp? && PendingOf(t, a) == {approval}
    requires forall i | i in t.instances ::
               !(t.instances[i].request == approval && t.instances[i].key == if op.instance == "" then op.ids.key else op.instance)
    ensures JoinClosed(t, a, paths, op)
         == Outcome(t.(instances := t.instances[op.ids.instance :=
                         Instance(approval, if op.instance == "" then op.ids.key else op.instance, paths)]),
                    Waiting(op.ids.instance, approval, 3))
  {
    hide PendingOf;
    assert Pick({approval}) == approval by { Picked({approval}, approval); }
    assert InstancesWith(t, approval, KeyOf(op)) == {};
    Unwritten(t);
  }

  // ---- grants that expire ----

  lemma {:induction false} DeliveringKeepsRows(t0: Tables, t: Tables, a: AppId, paths: seq<string>, i: nat,
      out: map<string, Values>, obs: Obs)
    ensures var o := Delivering(t0, t, a, paths, i, out, obs);
      if o.answer.Failed? then o.tables == t0 else o.answer.Delivered? && o.tables.grants == t.grants
    decreases |paths| - i
  {
    hide ReadOf;
    if i < |paths| && ReadOf(obs, paths[i]).Ok? {
      var next := Overlay(t, Logged([ReadEvent(a, paths[i])]));
      LoggedAll(t, [ReadEvent(a, paths[i])]);
      DeliveringKeepsRows(t0, next, a, paths, i + 1, out[paths[i] := ReadOf(obs, paths[i]).value], obs);
    }
  }

  lemma GrantsKept(t: Tables, w: Tables)
    requires w.grants == map[]
    ensures Overlay(t, w).grants == t.grants
  {
  }

  lemma JoinedKeepsGrants(t0: Tables, t: Tables, paths: seq<string>, approval: string, op: Op)
    requires op.AccessOp?
    ensures var o := Joined(t0, t, paths, approval, op);
      if o.answer.Failed? then o.tables == t0 else o.answer.Waiting? && o.tables.grants == t.grants
  {
    hide InstancesWith, Printed, Overlay;
    GrantsKept(t, NewInstance(op.ids.instance, approval, KeyOf(op), paths));
  }

  lemma AskedKeepsGrants(t0: Tables, t: Tables, a: AppId, paths: seq<string>, op: Op)
    requires op.AccessOp?
    ensures var o := Protocol.Asked(t0, t, a, paths, op);
      if o.answer.Failed? then o.tables == t0 else o.answer.Waiting? && o.tables.grants == t.grants
  {
    hide PendingOf, Joined, Overlay;
    var begun := Overlay(t, NewRequest(op.ids.request, a));
    var logged := Logged([Event(AccessRequested, ByApp(a), Some(a), "")]);
    GrantsKept(t, NewRequest(op.ids.request, a));
    GrantsKept(t, logged);
    GrantsKept(begun, logged);
    JoinedKeepsGrants(t0, Overlay(begun, logged), paths, op.ids.request, op);
    JoinedKeepsGrants(t0, Overlay(t, logged), paths, op.ids.request, op);
    if PendingOf(t, a) != {} { JoinedKeepsGrants(t0, t, paths, Pick(PendingOf(t, a)), op); }
  }

  /**
   * Over any tables, expiring grants included: past the checks, an access, or a poll on an approved
   * request, first expires the application's overdue grants, and secrets are delivered under a grant
   * that is active and not overdue, and under no other.
   */
  lemma DeliveredUnderCurrentGrant(t: Tables, op: Op, obs: Obs, a: AppId, paths: seq<string>, then_: Then)
    requires Fits(op, then_) && (then_.NewAccess? || then_.status == Approved)
    ensures var o := AfterGate(t, op, obs, a, paths, then_);
      var granted := exists g | g in t.grants ::
        t.grants[g].app == a && t.grants[g].status == Active && (t.grants[g].expires.None? || t.grants[g].expires.value > op.now);
      && (o.answer.Delivered? ==> granted)
      && (granted ==> o.answer.Delivered? || o.answer.Failed?)
      && (!o.answer.Failed? ==>
            && o.tables.grants.Keys == t.grants.Keys
            && forall g | g in t.grants ::
                 o.tables.grants[g] == if t.grants[g].app == a && t.grants[g].status == Active && t.grants[g].expires.Some?
                                          && t.grants[g].expires.value <= op.now
                                       then Grant(a, Expired, t.grants[g].expires, t.grants[g].approvedBy) else t.grants[g])
  {
    hide Delivering, ExpireGrants, HasCurrentGrant, Protocol.Asked, Overlay;
    ExpiryRows(t, a, op.now);
    var u := Overlay(t, Grants(ExpireGrants(t, a, op.now)));
    DeliveringKeepsRows(t, u, a, paths, 0, map[], obs);
    if op.AccessOp? { AskedKeepsGrants(t, u, a, paths, op); }
  }

  // ---- the whole answer ----

  /**
   * An authenticated access, for the paths it names or else for all live ones of its boundary, in
   * order: outside the boundary Forbidden; missing, archived or none at all NotFound; under a grant
   * delivered; and otherwise waiting, with the rows `OpensRequest` and `JoinsRequest` describe.
   */
  lemma AccessAnswer(k: Provider, s: Secrets, m: Plain, t: Tables, op: Op, a: AppId) returns (paths: seq<string>)
    requires Valid(t) && Fresh(t, op) && Represents(k, s, m) && op.AccessOp?
    requires |op.paths| <= 100 && |op.instance| <= 128 && forall p | p in op.paths :: ValidPath(p)
    requires "lg_app_" <= op.token && |op.token| <= 128
    requires Sha256(op.token) in t.tokens && t.tokens[Sha256(op.token)] == Token(a, true) && a in t.apps && t.apps[a].enabled
    ensures StrictlySorted(paths)
    ensures forall p :: p in paths <==>
              if op.paths == [] then p in m && !m[p].archived && Allowed(t.apps[a].allowed, p) else p in op.paths
    ensures var o := Atomic(t, op, ObsOf(k, s));
      if exists p | p in paths :: !Allowed(t.apps[a].allowed, p) then o == Outcome(t, Failed(Forbidden))
      else if paths == [] || exists p | p in paths :: p !in m || m[p].archived then o == Outcome(t, Failed(NotFound))
      else if exists g | g in t.grants :: t.grants[g].app == a && t.grants[g].status == Active
      then
        && (forall p | p in paths :: m[p].history != [])
        && o == Outcome(t.(audit := t.audit
                  + seq(|paths|, i requires 0 <= i < |paths| => Event(SecretRead, ByApp(a), Some(a), paths[i]))),
                Delivered(map p | p in paths :: m[p].history[|m[p].history| - 1]))
      else o == AfterGate(t, op, ObsOf(k, s), a, paths, NewAccess) && Requestable(paths)
  {
    hide Represents, Checked, Valid, Fresh, ValidPath, Allowed, ObsOf, Atomic, AfterGate, Requestable;
    paths := Asked(k, s, m, t, op, a);
    forall p ensures p in paths <==> p in Elements(paths) {
    }
    if paths != [] {
      CheckedPaths(k, s, m, t, a, paths, op, NewAccess);
      if forall p | p in paths :: p in m && !m[p].archived {
        LiveRequestable(k, s, m, paths);
        if exists g | g in t.grants :: t.grants[g].app == a && t.grants[g].status == Active {
          Served(k, s, m, t, op, a, paths, NewAccess);
        }
      }
    }
  }

  lemma LiveRequestable(k: Provider, s: Secrets, m: Plain, paths: seq<string>)
    requires Represents(k, s, m) && paths != [] && StrictlySorted(paths) && forall p | p in paths :: p in m
    ensures Requestable(paths)
  {
    hide Represents, ValidPath;
    forall p | p in paths ensures ValidPath(p) {
      RepresentsKeys(k, s, m, p);
    }
  }

  /** An authenticated poll: an unknown or foreign handle is NotFound; then the checks; then what became of the request. */
  lemma PollAnswer(k: Provider, s: Secrets, m: Plain, t: Tables, op: Op, a: AppId)
    requires Valid(t) && Represents(k, s, m) && op.PollOp?
    requires "lg_app_" <= op.token && |op.token| <= 128
    requires Sha256(op.token) in t.tokens && t.tokens[Sha256(op.token)] == Token(a, true) && a in t.apps && t.apps[a].enabled
    ensures var o := Atomic(t, op, ObsOf(k, s));
      if op.handle !in t.instances then o == Outcome(t, Failed(NotFound))
      else
        var paths, r := t.instances[op.handle].paths, t.instances[op.handle].request;
        && r in t.requests
        && if t.requests[r].app != a then o == Outcome(t, Failed(NotFound))
           else if exists p | p in paths :: !Allowed(t.apps[a].allowed, p) then o == Outcome(t, Failed(Forbidden))
           else if exists p | p in paths :: p !in m || m[p].archived then o == Outcome(t, Failed(NotFound))
           else if t.requests[r].status == Pending then o == Outcome(t, Waiting(op.handle, r, 3))
           else if t.requests[r].status != Approved then o == Outcome(t, Closed(t.requests[r].status, op.handle, r))
           else if exists g | g in t.grants :: t.grants[g].app == a && t.grants[g].status == Active
           then
             && (forall p | p in paths :: m[p].history != [])
             && o == Outcome(t.(audit := t.audit
                       + seq(|paths|, i requires 0 <= i < |paths| => Event(SecretRead, ByApp(a), Some(a), paths[i]))),
                     Delivered(map p | p in paths :: m[p].history[|m[p].history| - 1]))
           else o == Outcome(t, Closed(Revoked, op.handle, r))
  {
    hide Represents, Checked, Valid, ValidPath, Allowed, ObsOf, Atomic, Granted, Fresh;
    Authentic(t, op, ObsOf(k, s), a);
    SoundParts(t);
    if op.handle in t.instances && t.requests[t.instances[op.handle].request].app == a {
      var r := t.instances[op.handle].request;
      var paths, then_ := t.instances[op.handle].paths, Report(r, t.requests[r].status);
      CheckedPaths(k, s, m, t, a, paths, op, then_);
      if t.requests[r].status == Approved {
        assert Fresh(t, op) by { PollsAreFresh(t, op); }
        if exists g | g in t.grants :: t.grants[g].app == a && t.grants[g].status == Active {
          if forall p | p in paths :: p in m && !m[p].archived { Served(k, s, m, t, op, a, paths, then_); }
        } else {
          GrantedRow(t, a);
          GrantedIsClosed(t, a, paths, op, then_, ObsOf(k, s));
        }
      }
    }
  }

  lemma PollsAreFresh(t: Tables, op: Op)
    requires op.PollOp?
    ensures Fresh(t, op)
  {
  }
}
