/**
 * What the atomic transactions amount to, in closed form: which requests get past the checks, and
 * the rows each transaction leaves behind, in a database whose grants do not expire.
 */
module Effects {
  import opened Results
  import opened Envelopes
  import opened Database
  import opened Protocol
  import opened Locality
  import opened Text
  import opened Paths

  /** No grant carries an expiry: the only code that inserts grants leaves it null. */
  ghost predicate Indefinite(t: Tables) {
    forall g | g in t.grants :: t.grants[g].expires == None
  }

  function ActiveOf(t: Tables, a: AppId): set<GrantId> {
    set g | g in t.grants && t.grants[g].app == a && t.grants[g].status == Active
  }

  // ---- the checks ----

  /** The request is authenticated, within its boundary, and every path is there. */
  ghost predicate Gate(t: Tables, op: Op, obs: Obs, a: AppId, paths: seq<string>, then_: Then) {
    && Fits(op, then_) && Prepare(op).Ok?
    && Locate(t, op) == Ok(a) && a in t.apps && t.apps[a].enabled && TokenLive(t, a, Sha256(op.token))
    && Asks(t, op, obs, a, paths, then_)
    && AllAllowed(t.apps[a].allowed, paths) && AllPresent(obs, paths, 0)
  }

  /** The paths the request is about. */
  ghost predicate Asks(t: Tables, op: Op, obs: Obs, a: AppId, paths: seq<string>, then_: Then)
    requires Fits(op, then_) && Prepare(op).Ok? && a in t.apps
  {
    if op.AccessOp? then
      if op.paths == [] then
        paths != [] && paths == Assigned(t.apps[a].allowed, Ordered(if obs.listed.Some? then obs.listed.value else {}))
      else paths == Prepare(op).value
    else
      && HandleOf(t, a, op.handle)
      && paths == t.instances[op.handle].paths
      && then_ == Report(t.instances[op.handle].request, t.requests[t.instances[op.handle].request].status)
  }

  ghost function AfterGate(t: Tables, op: Op, obs: Obs, a: AppId, paths: seq<string>, then_: Then): Outcome
    requires Fits(op, then_)
  {
    if then_.NewAccess? || then_.status == Approved then Granted(t, a, paths, op, then_, obs)
    else if then_.status == Pending then Outcome(t, Waiting(op.handle, then_.approval, RETRY_AFTER))
    else Outcome(t, Closed(then_.status, op.handle, then_.approval))
  }

  /** Either the gate lets the request through, or the request fails and leaves no trace. */
  lemma GateOrFail(t: Tables, op: Op, obs: Obs) returns (passed: bool, a: AppId, paths: seq<string>, then_: Then)
    requires op.AccessOp? || op.PollOp?
    ensures passed ==> Gate(t, op, obs, a, paths, then_) && Atomic(t, op, obs) == AfterGate(t, op, obs, a, paths, then_)
    ensures !passed ==> Atomic(t, op, obs).answer.Failed? && Atomic(t, op, obs).tables == t
    ensures !passed ==> forall b, ps, th :: !Gate(t, op, obs, b, ps, th)
  {
    hide Granted, Prepare, Assigned, Ordered, Allowed;
    passed, a, paths, then_ := false, AppId(0), [], NewAccess;
    var located := Locate(t, op);
    if Prepare(op).Ok? && located.Ok? && located.value in t.apps {
      a := located.value;
      var row := t.apps[a];
      if op.PollOp? {
        if HandleOf(t, a, op.handle) {
          paths := t.instances[op.handle].paths;
          then_ := Report(t.instances[op.handle].request, t.requests[t.instances[op.handle].request].status);
        }
      } else if op.paths == [] {
        paths := Assigned(row.allowed, Ordered(if obs.listed.Some? then obs.listed.value else {}));
      } else {
        paths := Prepare(op).value;
      }
      passed := TokenLive(t, a, Sha256(op.token)) && row.enabled
        && (op.PollOp? ==> HandleOf(t, a, op.handle)) && (op.AccessOp? && op.paths == [] ==> paths != [])
        && AllAllowed(row.allowed, paths) && AllPresent(obs, paths, 0);
    }
  }

  /** A request passes the gate for one application and one list of paths. */
  lemma GateUnique(t: Tables, op: Op, obs: Obs, a: AppId, paths: seq<string>, then_: Then, b: AppId,
      ps: seq<string>, th: Then)
    requires Gate(t, op, obs, a, paths, then_) && Gate(t, op, obs, b, ps, th)
    ensures a == b && paths == ps && then_ == th
  {
  }

  // ---- past the gate ----

  function ReadEvents(a: AppId, paths: seq<string>): seq<Event> {
    seq(|paths|, i requires 0 <= i < |paths| => ReadEvent(a, paths[i]))
  }

  ghost predicate AllReadable(obs: Obs, paths: seq<string>) {
    forall p | p in paths :: ReadOf(obs, p).Ok?
  }

  ghost function Bundle(obs: Obs, paths: seq<string>): map<string, Values>
    requires AllReadable(obs, paths)
  {
    map p | p in paths :: ReadOf(obs, p).value
  }

  lemma {:induction false} DeliveringClosed(t0: Tables, t: Tables, a: AppId, paths: seq<string>, i: nat,
      out: map<string, Values>, obs: Obs)
    requires i <= |paths|
    ensures var o := Delivering(t0, t, a, paths, i, out, obs);
      if AllReadable(obs, paths[i..])
      then o == Outcome(Overlay(t, Logged(ReadEvents(a, paths[i..]))), Delivered(out + Bundle(obs, paths[i..])))
      else o.tables == t0 && o.answer.Failed?
    decreases |paths| - i
  {
    if i == |paths| {
      OverlayNothing(t);
      assert ReadEvents(a, paths[i..]) == [];
      assert out + Bundle(obs, paths[i..]) == out;
    } else {
      var p := paths[i];
      if ReadOf(obs, p).Ok? {
        var v := ReadOf(obs, p).value;
        DeliveringClosed(t0, Overlay(t, Logged([ReadEvent(a, p)])), a, paths, i + 1, out[p := v], obs);
        DeliveredNext(t, a, paths, i, out, obs);
      } else {
        assert p in paths[i..];
      }
    }
  }

  lemma DeliveredNext(t: Tables, a: AppId, paths: seq<string>, i: nat, out: map<string, Values>, obs: Obs)
    requires i < |paths| && ReadOf(obs, paths[i]).Ok?
    ensures AllReadable(obs, paths[i..]) <==> AllReadable(obs, paths[i + 1..])
    ensures AllReadable(obs, paths[i..]) ==>
              out[paths[i] := ReadOf(obs, paths[i]).value] + Bundle(obs, paths[i + 1..]) == out + Bundle(obs, paths[i..])
    ensures Overlay(Overlay(t, Logged([ReadEvent(a, paths[i])])), Logged(ReadEvents(a, paths[i + 1..])))
         == Overlay(t, Logged(ReadEvents(a, paths[i..])))
  {
    hide Overlay, ReadEvent, ReadOf;
    var p, tail := paths[i], paths[i + 1..];
    assert paths[i..] == [p] + tail;
    assert [ReadEvent(a, p)] + ReadEvents(a, tail) == ReadEvents(a, paths[i..]);
    LogTwice([ReadEvent(a, p)], ReadEvents(a, tail));
    OverlayAssociative(t, Logged([ReadEvent(a, p)]), Logged(ReadEvents(a, tail)));
  }

  lemma LogTwice(e: seq<Event>, f: seq<Event>)
    ensures Overlay(Logged(e), Logged(f)) == Logged(e + f)
  {
  }

  lemma NothingExpires(t: Tables, a: AppId, now: int)
    requires Indefinite(t)
    ensures Overlay(t, Grants(ExpireGrants(t, a, now))) == t
    ensures HasCurrentGrant(t, a, now) <==> ActiveOf(t, a) != {}
    ensures HasActiveGrant(t, a) <==> ActiveOf(t, a) != {}
  {
    var expired := ExpireGrants(t, a, now);
    forall g ensures g !in expired {
    }
    assert expired == map[];
    OverlayNothing(t);
    if HasCurrentGrant(t, a, now) {
      var g :| g in t.grants && t.grants[g].app == a && GrantCurrent(t.grants[g], now);
      assert g in ActiveOf(t, a);
    }
    if ActiveOf(t, a) != {} {
      var g :| g in ActiveOf(t, a);
      assert g in t.grants && t.grants[g].app == a && GrantCurrent(t.grants[g], now);
    }
  }

  /** Row by row: overdue active grants of the application expire, and whether one is left. */
  lemma ExpiryRows(t: Tables, a: AppId, now: int)
    ensures var u := Overlay(t, Grants(ExpireGrants(t, a, now)));
      && u.grants.Keys == t.grants.Keys
      && (forall g | g in t.grants ::
            u.grants[g] == if t.grants[g].app == a && t.grants[g].status == Active && t.grants[g].expires.Some?
                              && t.grants[g].expires.value <= now
                           then Grant(a, Expired, t.grants[g].expires, t.grants[g].approvedBy) else t.grants[g])
      && (HasCurrentGrant(u, a, now) <==> exists g | g in t.grants ::
            t.grants[g].app == a && t.grants[g].status == Active
            && (t.grants[g].expires.None? || t.grants[g].expires.value > now))
  {
    var u := Overlay(t, Grants(ExpireGrants(t, a, now)));
    assert u.grants.Keys == t.grants.Keys;
    if g :| g in u.grants && u.grants[g].app == a && GrantCurrent(u.grants[g], now) {
      assert t.grants[g].app == a && t.grants[g].status == Active;
    }
    forall g | g in t.grants && t.grants[g].app == a && GrantCurrent(t.grants[g], now)
      ensures g in u.grants && u.grants[g].app == a && GrantCurrent(u.grants[g], now)
    {
    }
  }

  /** The request joined, and the rows written when a request without a grant starts waiting. */
  ghost function ApprovalFor(t: Tables, a: AppId, op: Op): string
    requires op.AccessOp?
  {
    if PendingOf(t, a) == {} then op.ids.request else Pick(PendingOf(t, a))
  }

  ghost function HandleFor(t: Tables, a: AppId, op: Op): string
    requires op.AccessOp?
  {
    var same := InstancesWith(t, ApprovalFor(t, a, op), KeyOf(op));
    if same == {} then op.ids.instance else Pick(same)
  }

  ghost function JoinWrites(t: Tables, a: AppId, paths: seq<string>, op: Op): Tables
    requires op.AccessOp?
  {
    var opens := PendingOf(t, a) == {};
    var joins := InstancesWith(t, ApprovalFor(t, a, op), KeyOf(op)) == {};
    Tables(map[], map[],
      if opens then map[op.ids.request := Request(a, Pending, None)] else map[],
      if joins then map[op.ids.instance := Instance(ApprovalFor(t, a, op), KeyOf(op), paths)] else map[],
      map[],
      if opens then [Event(AccessRequested, ByApp(a), Some(a), "")] else [])
  }

  ghost function JoinClosed(t: Tables, a: AppId, paths: seq<string>, op: Op): Outcome
    requires op.AccessOp?
  {
    var approval, handle := ApprovalFor(t, a, op), HandleFor(t, a, op);
    if handle in t.instances && InstancesWith(t, approval, KeyOf(op)) != {} && Printed(t.instances[handle].paths) != Printed(paths)
    then Fail(t, Conflict)
    else Outcome(Overlay(t, JoinWrites(t, a, paths, op)), Waiting(handle, approval, RETRY_AFTER))
  }

  lemma AskedClosed(t: Tables, a: AppId, paths: seq<string>, op: Op)
    requires op.AccessOp? && Fresh(t, op) && Linked(t)
    ensures Asked(t, t, a, paths, op) == JoinClosed(t, a, paths, op)
  {
    var approval, key := ApprovalFor(t, a, op), KeyOf(op);
    var t2 := Announcement(t, a, op);
    assert PendingOf(t, a) != {} ==> approval in PendingOf(t, a) && approval != op.ids.request;
    forall i | i in t.instances && t.instances[i].request == op.ids.request ensures false {
    }
    assert InstancesWith(t2, approval, key) == InstancesWith(t, approval, key);
    JoinedRows(t, a, paths, op);
  }

  /** The tables once the request has been opened, if it had to be. */
  ghost function Announcement(t: Tables, a: AppId, op: Op): Tables
    requires op.AccessOp?
  {
    if PendingOf(t, a) == {}
    then Overlay(Overlay(t, NewRequest(op.ids.request, a)), Logged([Event(AccessRequested, ByApp(a), Some(a), "")]))
    else t
  }

  lemma JoinedRows(t: Tables, a: AppId, paths: seq<string>, op: Op)
    requires op.AccessOp?
    ensures var t2 := Announcement(t, a, op);
      var approval, key := ApprovalFor(t, a, op), KeyOf(op);
      Overlay(t, JoinWrites(t, a, paths, op))
      == if InstancesWith(t, approval, key) == {} then Overlay(t2, NewInstance(op.ids.instance, approval, key, paths)) else t2
  {
    hide PendingOf, InstancesWith, ApprovalFor, Overlay;
    var approval, key := ApprovalFor(t, a, op), KeyOf(op);
    var asked, logged := NewRequest(op.ids.request, a), Logged([Event(AccessRequested, ByApp(a), Some(a), "")]);
    var joined := NewInstance(op.ids.instance, approval, key, paths);
    JoinParts(asked.requests, joined.instances, logged.audit);
    OverlayNothing(t);
    OverlayAssociative(t, asked, logged);
    OverlayAssociative(t, Overlay(asked, logged), joined);
  }

  lemma JoinParts(requests: map<string, Request>, instances: map<string, Instance>, events: seq<Event>)
    ensures Overlay(Requests(requests), Logged(events)) == Tables(map[], map[], requests, map[], map[], events)
    ensures Overlay(Overlay(Requests(requests), Logged(events)), Instances(instances)) == Tables(map[], map[], requests, instances, map[], events)
  {
    assert requests + map[] == requests;
    assert map[] + instances == instances;
  }

  /** A request past the gate is served, or waits, or learns that its approval is gone. */
  ghost function GrantedClosed(t: Tables, a: AppId, paths: seq<string>, op: Op, then_: Then, obs: Obs): Outcome
    requires Fits(op, then_)
  {
    if ActiveOf(t, a) != {} then
      if AllReadable(obs, paths) then Outcome(Overlay(t, Logged(ReadEvents(a, paths))), Delivered(Bundle(obs, paths)))
      else Delivering(t, t, a, paths, 0, map[], obs)
    else if then_.NewAccess? then JoinClosed(t, a, paths, op)
    else Outcome(t, Closed(Revoked, op.handle, then_.approval))
  }

  lemma DeliversAll(t: Tables, a: AppId, paths: seq<string>, obs: Obs)
    ensures var o := Delivering(t, t, a, paths, 0, map[], obs);
      if AllReadable(obs, paths) then o == Outcome(Overlay(t, Logged(ReadEvents(a, paths))), Delivered(Bundle(obs, paths)))
      else o.tables == t && o.answer.Failed?
  {
    hide Delivering, Overlay;
    DeliveringClosed(t, t, a, paths, 0, map[], obs);
    assert paths[0..] == paths;
    if AllReadable(obs, paths) { assert map[] + Bundle(obs, paths) == Bundle(obs, paths); }
  }

  lemma GrantedIsClosed(t: Tables, a: AppId, paths: seq<string>, op: Op, then_: Then, obs: Obs)
    requires Fits(op, then_) && Indefinite(t) && Linked(t) && Fresh(t, op)
    ensures Granted(t, a, paths, op, then_, obs) == GrantedClosed(t, a, paths, op, then_, obs)
    ensures ActiveOf(t, a) != {} && !AllReadable(obs, paths) ==>
              Granted(t, a, paths, op, then_, obs).answer.Failed? && Granted(t, a, paths, op, then_, obs).tables == t
  {
    hide ExpireGrants, HasCurrentGrant, ActiveOf, Indefinite, Linked, Asked, JoinClosed, Delivering, AllReadable, Bundle,
      Overlay;
    NothingExpires(t, a, op.now);
    if ActiveOf(t, a) != {} {
      DeliversAll(t, a, paths, obs);
    } else if then_.NewAccess? {
      AskedClosed(t, a, paths, op);
    }
  }

  // ---- Resolve and ChangeApplication ----

  ghost function ResolveWrites(t: Tables, a: AppId, op: Op): Tables
    requires op.ResolveOp?
  {
    Tables(map[], map[], Decide(t, op), map[],
           if op.approve then map[op.grant := Grant(a, Active, None, op.admin)] else map[],
           [DecisionEvent(a, op)])
  }

  lemma SameGrantRows(t: Tables, u: Tables, a: AppId)
    requires t.grants == u.grants
    ensures (Indefinite(t) <==> Indefinite(u)) && ActiveOf(t, a) == ActiveOf(u, a)
  {
  }

  lemma DecisionRows(t: Tables, a: AppId, op: Op)
    requires op.ResolveOp?
    ensures var t1 := Overlay(t, Requests(Decide(t, op)));
      var t2 := if op.approve then Overlay(t1, NewGrant(a, op)) else t1;
      t1.grants == t.grants && Overlay(t2, Logged([DecisionEvent(a, op)])) == Overlay(t, ResolveWrites(t, a, op))
  {
    hide Decide;
    Unwritten(t);
    Unwritten(Overlay(t, Requests(Decide(t, op))));
  }

  lemma ResolvingClosed(t: Tables, op: Op, obs: Obs)
    requires op.ResolveOp? && Indefinite(t)
    ensures var o := Atomic(t, op, obs);
      if op.request in t.requests && t.requests[op.request].app in t.apps && t.apps[t.requests[op.request].app].enabled
         && t.requests[op.request].status == Pending && (op.approve ==> ActiveOf(t, t.requests[op.request].app) == {})
      then o == Outcome(Overlay(t, ResolveWrites(t, t.requests[op.request].app, op)), Resolved)
      else o.answer.Failed? && o.tables == t
  {
    hide HasActiveGrant, ActiveOf, Indefinite, Overlay, ResolveWrites;
    if op.request in t.requests {
      var a := t.requests[op.request].app;
      var t1 := Overlay(t, Requests(Decide(t, op)));
      DecisionRows(t, a, op);
      SameGrantRows(t, t1, a);
      NothingExpires(t1, a, 0);
      assert t.requests[op.request].status == Pending ==> op.request in Decide(t, op);
    }
  }

  predicate Changes(op: Op)
    requires op.ChangeOp?
  {
    !op.action.Unknown? && (op.action.SetPaths? ==> ValidApplication("x", "x", op.action.patterns))
  }

  function Edits(action: Action): bool {
    action.Disable? || action.Enable? || action.SetPaths?
  }

  function ChangeWrites(t: Tables, a: AppId, op: Op): Tables
    requires op.ChangeOp? && a in t.apps
  {
    Tables(if Edits(op.action) then map[a := Edited(t.apps[a], op.action)] else map[],
           if op.action.Rotate? then RevokeTokens(t, a)[Sha256(op.newToken) := Token(a, true)] else map[],
           if op.action.Enable? then map[] else RevokeRequests(t, a),
           map[],
           if op.action.Enable? then map[] else RevokeGrants(t, a),
           [Event(ChangeKind(op.action), ByAdmin(op.admin), Some(a), "")])
  }

  lemma ChangingClosed(t: Tables, op: Op, obs: Obs)
    requires op.ChangeOp?
    ensures var o := Atomic(t, op, obs);
      if op.app in t.apps && Changes(op)
      then o == Outcome(Overlay(t, ChangeWrites(t, op.app, op)), Changed(if op.action.Rotate? then op.newToken else ""))
      else o.answer.Failed? && o.tables == t
  {
    hide Withdrawing, RevokeTokens, RevokeGrants, RevokeRequests, Overlay;
    if op.app in t.apps && Changes(op) {
      var a := op.app;
      ChangedRows(t, a, op);
      var t1 := if op.action.Rotate? then Overlay(Overlay(t, Tokens(RevokeTokens(t, a))), NewToken(a, op.newToken))
                else if Edits(op.action) then Overlay(t, Apps(map[a := Edited(t.apps[a], op.action)])) else t;
      EditKeepsRest(t, a, op);
      if !op.action.Enable? {
        WithdrawingClosed(t, t1, a, op);
      }
    }
  }

  lemma ChangedRows(t: Tables, a: AppId, op: Op)
    requires op.ChangeOp? && a in t.apps
    ensures var t1 := if op.action.Rotate? then Overlay(Overlay(t, Tokens(RevokeTokens(t, a))), NewToken(a, op.newToken))
                else if Edits(op.action) then Overlay(t, Apps(map[a := Edited(t.apps[a], op.action)])) else t;
      && t1.requests == t.requests && t1.grants == t.grants && t1.instances == t.instances && t1.audit == t.audit
      && t1.apps == t.apps + ChangeWrites(t, a, op).apps
      && t1.tokens == t.tokens + ChangeWrites(t, a, op).tokens
  {
    hide RevokeTokens, RevokeGrants, RevokeRequests;
    var tokens := RevokeTokens(t, a);
    assert t.tokens + tokens + map[Sha256(if op.action.Rotate? then op.newToken else "") := Token(a, true)]
        == t.tokens + tokens[Sha256(if op.action.Rotate? then op.newToken else "") := Token(a, true)];
    OverlayNothing(t);
  }

  lemma EditKeepsRest(t: Tables, a: AppId, op: Op)
    requires op.ChangeOp? && a in t.apps
    ensures var e := Logged([Event(ChangeKind(op.action), ByAdmin(op.admin), Some(a), "")]);
      op.action.Enable? ==>
        Overlay(Overlay(t, Apps(map[a := Edited(t.apps[a], op.action)])), e) == Overlay(t, ChangeWrites(t, a, op))
  {
    hide Edited, RevokeTokens, RevokeGrants, RevokeRequests;
    Unwritten(t);
    Unwritten(Overlay(t, Apps(map[a := Edited(t.apps[a], op.action)])));
  }

  lemma SameRevocations(t: Tables, u: Tables, a: AppId)
    ensures t.requests == u.requests ==> RevokeRequests(t, a) == RevokeRequests(u, a)
    ensures t.grants == u.grants ==> RevokeGrants(t, a) == RevokeGrants(u, a)
  {
  }

  lemma WithdrawingClosed(t: Tables, t1: Tables, a: AppId, op: Op)
    requires op.ChangeOp? && !op.action.Enable? && a in t.apps
    requires t1.requests == t.requests && t1.grants == t.grants && t1.instances == t.instances && t1.audit == t.audit
    requires t1.apps == t.apps + ChangeWrites(t, a, op).apps
    requires t1.tokens == t.tokens + ChangeWrites(t, a, op).tokens
    ensures Withdrawing(t1, a, op)
         == Outcome(Overlay(t, ChangeWrites(t, a, op)), Changed(if op.action.Rotate? then op.newToken else ""))
  {
    hide RevokeTokens, RevokeGrants, RevokeRequests;
    var w := ChangeWrites(t, a, op);
    SameRevocations(t1, t, a);
    var t2 := Overlay(t1, Grants(RevokeGrants(t1, a)));
    Unwritten(t1);
    assert t2.requests == t.requests;
    SameRevocations(t2, t, a);
    Unwritten(t2);
    Unwritten(t);
  }

  lemma Unwritten(t: Tables)
    ensures t.apps + map[] == t.apps && t.tokens + map[] == t.tokens && t.requests + map[] == t.requests
    ensures t.instances + map[] == t.instances && t.grants + map[] == t.grants
  {
  }
}
