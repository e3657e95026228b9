/**
 * The approval protocol as atomic transactions: Access, Poll, Resolve and ChangeApplication as
 * functions from the tables to the tables and an answer (access.go, store.go). What a transaction
 * learns of the secret tables is a parameter, because other transactions may change those tables
 * between two of its statements.
 */
module Protocol {
  import opened Results
  import opened Envelopes
  import opened Vault
  import opened Database
  import opened Text
  import opened Paths

  const RETRY_AFTER := 3
  const MAX_KEY := 128

  /** The identifiers drawn at random by one access request. */
  datatype Ids = Ids(request: string, instance: string, key: string)

  datatype Action = Rotate | Disable | Enable | SetPaths(patterns: seq<string>) | Revoke | Unknown

  /** A call of one of the four transactions that lock an application row. */
  datatype Op =
    | AccessOp(token: string, paths: seq<string>, instance: string, now: int, ids: Ids)
    | PollOp(token: string, handle: string, now: int)
    | ResolveOp(request: string, admin: int, approve: bool, grant: GrantId)
    | ChangeOp(app: AppId, admin: int, action: Action, newToken: string)

  datatype Answer =
    | Waiting(handle: string, approval: string, retryAfter: nat)
    | Delivered(secrets: map<string, Values>)
    | Closed(status: Status, handle: string, approval: string)
    | Resolved
    | Changed(token: string)
    | Created(app: AppId, token: string)
    | Saved(version: nat)
    | Restored
    | Archived
    | Shown(values: Values)
    | Failed(error: Error)

  datatype Outcome = Outcome(tables: Tables, answer: Answer)

  /** What one transaction reads of the secret tables: the listing, each existence probe, each read. */
  datatype Obs = Obs(listed: Option<set<string>>, present: map<string, bool>, plain: map<string, Result<Values>>)

  const UNSEEN := Obs(None, map[], map[])

  /** The observations of a transaction during which the secret tables do not change. */
  ghost function ObsOf(k: Provider, s: Secrets): Obs {
    Obs(Some(LivePaths(s)), map p | p in s :: LivePath(s, p), map p | p in s :: ReadVersion(k, s, p, 0))
  }

  /** How a checked request goes on: a new access, or the report on an earlier one. */
  datatype Then = NewAccess | Report(approval: string, status: Status)

  predicate Fits(op: Op, then_: Then) {
    (op.AccessOp? && then_.NewAccess?) || (op.PollOp? && then_.Report?)
  }

  ghost function Pick<T>(s: set<T>): T
    requires s != {}
  {
    var x :| x in s; x
  }

  function Fail(t0: Tables, e: Error): Outcome {
    Outcome(t0, Failed(e))
  }

  // ---- before the lock ----

  /** The input checks made before the transaction begins; no paths means the configured ones. */
  function Prepare(op: Op): Result<seq<string>> {
    if op.AccessOp? then
      var wanted := if op.paths == [] then Ok([]) else Normalize(op.paths);
      if wanted.Err? then wanted else if |op.instance| > MAX_KEY then Err(Invalid) else wanted
    else Ok([])
  }

  /** Which application row the transaction locks. */
  function Locate(t: Tables, op: Op): Result<AppId> {
    match op
    case AccessOp(token, _, _, _, _) => LocateToken(t, token)
    case PollOp(token, _, _) => LocateToken(t, token)
    case ResolveOp(request, _, _, _) => if request in t.requests then Ok(t.requests[request].app) else Err(NotFound)
    case ChangeOp(app, _, _, _) => if app in t.apps then Ok(app) else Err(NotFound)
  }

  function LocateToken(t: Tables, token: string): Result<AppId> {
    if !WellFormedToken(token) then Err(Unauthorized)
    else if Sha256(token) in t.tokens && t.tokens[Sha256(token)].app in t.apps then Ok(t.tokens[Sha256(token)].app)
    else Err(Unauthorized)
  }

  // ---- holding the lock ----

  ghost function Atomic(t: Tables, op: Op, obs: Obs): Outcome {
    var wanted := Prepare(op);
    if wanted.Err? then Fail(t, wanted.error)
    else
      var a := Locate(t, op);
      if a.Err? then Fail(t, a.error) else Locked(t, a.value, op, obs)
  }

  ghost function Locked(t: Tables, a: AppId, op: Op, obs: Obs): Outcome {
    if a !in t.apps then Fail(t, Internal)
    else if op.AccessOp? || op.PollOp? then Authenticated(t, a, t.apps[a], op, obs)
    else if op.ResolveOp? then Resolving(t, a, t.apps[a], op)
    else Changing(t, a, t.apps[a], op)
  }

  ghost function Authenticated(t: Tables, a: AppId, row: Application, op: Op, obs: Obs): Outcome
    requires op.AccessOp? || op.PollOp?
  {
    if !TokenLive(t, a, Sha256(op.token)) || !row.enabled then Fail(t, Unauthorized)
    else if op.PollOp? then Found(t, a, row, op, obs)
    else if op.paths == [] then Configured(t, a, row, op, obs)
    else
      var wanted := Prepare(op);
      if wanted.Err? then Fail(t, wanted.error) else Checked(t, a, row, wanted.value, op, NewAccess, obs)
  }

  /** The assigned paths: those listed that a pattern allows, in order. */
  function Assigned(patterns: seq<string>, listed: seq<string>): seq<string> {
    if listed == [] then []
    else (if Allowed(patterns, listed[0]) then [listed[0]] else []) + Assigned(patterns, listed[1..])
  }

  /** The listing is filtered, not reordered. */
  lemma {:induction false} AssignedSorted(patterns: seq<string>, listed: seq<string>)
    requires StrictlySorted(listed)
    ensures StrictlySorted(Assigned(patterns, listed))
    ensures forall p :: p in Assigned(patterns, listed) <==> p in listed && Allowed(patterns, p)
  {
    if listed != [] {
      var tail := Assigned(patterns, listed[1..]);
      AssignedSorted(patterns, listed[1..]);
      forall p | p in tail ensures Less(listed[0], p) {
        assert p in listed[1..];
      }
      assert listed == [listed[0]] + listed[1..];
      var all := Assigned(patterns, listed);
      forall i, j | 0 <= i < j < |all| ensures Less(all[i], all[j]) {
        if Allowed(patterns, listed[0]) && i == 0 { assert all[j] == tail[j - 1]; }
      }
    }
  }

  ghost function Configured(t: Tables, a: AppId, row: Application, op: Op, obs: Obs): Outcome
    requires op.AccessOp?
  {
    var paths := Assigned(row.allowed, Ordered(if obs.listed.Some? then obs.listed.value else {}));
    if paths == [] then Fail(t, NotFound) else Checked(t, a, row, paths, op, NewAccess, obs)
  }

  ghost function Found(t: Tables, a: AppId, row: Application, op: Op, obs: Obs): Outcome
    requires op.PollOp?
  {
    if !HandleOf(t, a, op.handle) then Fail(t, NotFound)
    else
      var i := t.instances[op.handle];
      Checked(t, a, row, i.paths, op, Report(i.request, t.requests[i.request].status), obs)
  }

  predicate AllAllowed(patterns: seq<string>, paths: seq<string>) {
    forall i | 0 <= i < |paths| :: Allowed(patterns, paths[i])
  }

  predicate Present(obs: Obs, p: string) {
    p in obs.present && obs.present[p]
  }

  ghost predicate AllPresent(obs: Obs, paths: seq<string>, from: nat) {
    forall i | from <= i < |paths| :: Present(obs, paths[i])
  }

  ghost function Checked(t: Tables, a: AppId, row: Application, paths: seq<string>, op: Op, then_: Then,
      obs: Obs): Outcome
    requires Fits(op, then_)
  {
    if !AllAllowed(row.allowed, paths) then Fail(t, Forbidden)
    else Probed(t, a, paths, 0, op, then_, obs)
  }

  ghost function Probed(t: Tables, a: AppId, paths: seq<string>, from: nat, op: Op, then_: Then, obs: Obs): Outcome
    requires Fits(op, then_)
  {
    if !AllPresent(obs, paths, from) then Fail(t, NotFound)
    else if then_.NewAccess? || then_.status == Approved then Granted(t, a, paths, op, then_, obs)
    else if then_.status == Pending then Outcome(t, Waiting(op.handle, then_.approval, RETRY_AFTER))
    else Outcome(t, Closed(then_.status, op.handle, then_.approval))
  }

  ghost function Granted(t: Tables, a: AppId, paths: seq<string>, op: Op, then_: Then, obs: Obs): Outcome
    requires Fits(op, then_)
  {
    Searched(t, Overlay(t, Grants(ExpireGrants(t, a, op.now))), a, paths, op, then_, obs)
  }

  /** `t0` are the tables the transaction started from, restored when it fails; `t` is what it sees now. */
  ghost function Searched(t0: Tables, t: Tables, a: AppId, paths: seq<string>, op: Op, then_: Then, obs: Obs): Outcome
    requires Fits(op, then_)
  {
    if HasCurrentGrant(t, a, op.now) then Delivering(t0, t, a, paths, 0, map[], obs)
    else if then_.NewAccess? then Asked(t0, t, a, paths, op)
    else Outcome(t, Closed(Revoked, op.handle, then_.approval))
  }

  function ReadEvent(a: AppId, p: string): Event {
    Event(SecretRead, ByApp(a), Some(a), p)
  }

  function ReadOf(obs: Obs, p: string): Result<Values> {
    if p in obs.plain then obs.plain[p] else Err(NotFound)
  }

  ghost function Delivering(t0: Tables, t: Tables, a: AppId, paths: seq<string>, i: nat, out: map<string, Values>,
      obs: Obs): Outcome
    decreases |paths| - i
  {
    if i >= |paths| then Outcome(t, Delivered(out))
    else
      var v := ReadOf(obs, paths[i]);
      if v.Err? then Fail(t0, v.error)
      else Delivering(t0, Overlay(t, Logged([ReadEvent(a, paths[i])])), a, paths, i + 1, out[paths[i] := v.value], obs)
  }

  ghost function Asked(t0: Tables, t: Tables, a: AppId, paths: seq<string>, op: Op): Outcome
    requires op.AccessOp?
  {
    if PendingOf(t, a) == {}
    then Announced(t0, Overlay(t, NewRequest(op.ids.request, a)), a, paths, op.ids.request, op)
    else Announced(t0, t, a, paths, Pick(PendingOf(t, a)), op)
  }

  function NewRequest(id: string, a: AppId): Tables {
    Requests(map[id := Request(a, Pending, None)])
  }

  ghost function Announced(t0: Tables, t: Tables, a: AppId, paths: seq<string>, approval: string, op: Op): Outcome
    requires op.AccessOp?
  {
    if approval == op.ids.request
    then Joined(t0, Overlay(t, Logged([Event(AccessRequested, ByApp(a), Some(a), "")])), paths, approval, op)
    else Joined(t0, t, paths, approval, op)
  }

  /** The idempotency key: the caller's, or a random one. */
  function KeyOf(op: Op): string
    requires op.AccessOp?
  {
    if op.instance == "" then op.ids.key else op.instance
  }

  ghost function Joined(t0: Tables, t: Tables, paths: seq<string>, approval: string, op: Op): Outcome
    requires op.AccessOp?
  {
    var same := InstancesWith(t, approval, KeyOf(op));
    if same == {}
    then Compared(t0, Overlay(t, NewInstance(op.ids.instance, approval, KeyOf(op), paths)), paths, approval, op.ids.instance)
    else Compared(t0, t, paths, approval, Pick(same))
  }

  function NewInstance(id: string, request: string, key: string, paths: seq<string>): Tables {
    Instances(map[id := Instance(request, key, paths)])
  }

  function Compared(t0: Tables, t: Tables, paths: seq<string>, approval: string, handle: string): Outcome {
    if handle !in t.instances then Fail(t0, Internal)
    else if Printed(t.instances[handle].paths) != Printed(paths) then Fail(t0, Conflict)
    else Outcome(t, Waiting(handle, approval, RETRY_AFTER))
  }

  // ---- Resolve ----

  function Decision(approve: bool): Status {
    if approve then Approved else Denied
  }

  function DecisionEvent(a: AppId, op: Op): Event
    requires op.ResolveOp?
  {
    Event(if op.approve then AccessApproved else AccessDenied, ByAdmin(op.admin), Some(a), "")
  }

  function Decide(t: Tables, op: Op): map<string, Request>
    requires op.ResolveOp?
  {
    if op.request in t.requests && t.requests[op.request].status == Pending
    then map[op.request := t.requests[op.request].(status := Decision(op.approve), resolvedBy := Some(op.admin))]
    else map[]
  }

  function NewGrant(a: AppId, op: Op): Tables
    requires op.ResolveOp?
  {
    Grants(map[op.grant := Grant(a, Active, None, op.admin)])
  }

  ghost function Resolving(t: Tables, a: AppId, row: Application, op: Op): Outcome
    requires op.ResolveOp?
  {
    if !row.enabled then Fail(t, Conflict)
    else if Decide(t, op) == map[] then Fail(t, Conflict)
    else
      var t1 := Overlay(t, Requests(Decide(t, op)));
      if op.approve && HasActiveGrant(t1, a) then Fail(t, Internal)
      else
        var t2 := if op.approve then Overlay(t1, NewGrant(a, op)) else t1;
        Outcome(Overlay(t2, Logged([DecisionEvent(a, op)])), Resolved)
  }

  // ---- ChangeApplication ----

  function ChangeKind(action: Action): Kind {
    match action
    case Rotate => TokenRotated
    case Disable => AppDisabled
    case Enable => AppEnabled
    case SetPaths(_) => PathsUpdated
    case _ => AccessRevoked
  }

  function Edited(row: Application, action: Action): Application {
    match action
    case Disable => row.(enabled := false)
    case Enable => row.(enabled := true)
    case SetPaths(patterns) => row.(allowed := patterns)
    case _ => row
  }

  function NewToken(a: AppId, token: string): Tables {
    Tokens(map[Sha256(token) := Token(a, true)])
  }

  ghost function Changing(t: Tables, a: AppId, row: Application, op: Op): Outcome
    requires op.ChangeOp?
  {
    match op.action
    case Unknown => Fail(t, Invalid)
    case Rotate => Withdrawing(Overlay(Overlay(t, Tokens(RevokeTokens(t, a))), NewToken(a, op.newToken)), a, op)
    case SetPaths(patterns) =>
      if !ValidApplication("x", "x", patterns) then Fail(t, Invalid)
      else Withdrawing(Overlay(t, Apps(map[a := Edited(row, op.action)])), a, op)
    case Disable => Withdrawing(Overlay(t, Apps(map[a := Edited(row, op.action)])), a, op)
    case Enable => Recorded(Overlay(t, Apps(map[a := Edited(row, op.action)])), a, op)
    case Revoke => Withdrawing(t, a, op)
  }

  /** `revoke`: every change but enabling withdraws the grant and the open requests. */
  ghost function Withdrawing(t: Tables, a: AppId, op: Op): Outcome
    requires op.ChangeOp?
  {
    var t1 := Overlay(t, Grants(RevokeGrants(t, a)));
    Recorded(Overlay(t1, Requests(RevokeRequests(t1, a))), a, op)
  }

  function Recorded(t: Tables, a: AppId, op: Op): Outcome
    requires op.ChangeOp?
  {
    Outcome(Overlay(t, Logged([Event(ChangeKind(op.action), ByAdmin(op.admin), Some(a), "")])),
            Changed(if op.action.Rotate? then op.newToken else ""))
  }

  // ---- freshness of random identifiers ----

  /** The identifiers a call draws at random are not in use. */
  ghost predicate Fresh(t: Tables, op: Op) {
    match op
    case AccessOp(_, _, _, _, ids) => ids.request !in t.requests && ids.instance !in t.instances
    case PollOp(_, _, _) => true
    case ResolveOp(_, _, _, grant) => grant !in t.grants
    case ChangeOp(_, _, action, token) => action.Rotate? ==> WellFormedToken(token) && Sha256(token) !in t.tokens
  }
}
