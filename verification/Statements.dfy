/**
 * The same transactions one SQL statement at a time. `Exec` is one statement: it sees the
 * committed tables overlaid with the transaction's own writes, and yields more writes.
 */
module Statements {
  import opened Results
  import opened Envelopes
  import opened Vault
  import opened Database
  import opened Protocol
  import opened Text
  import opened Paths

  /** The next statement of a transaction, with the local variables it needs. */
  datatype Pc =
    | Start
    | Queued(app: AppId)
    | Rechecking(app: AppId, row: Application)
    | Listing(app: AppId, row: Application)
    | Finding(app: AppId, row: Application)
    | Probing(app: AppId, paths: seq<string>, i: nat, then_: Then)
    | Expiring(app: AppId, paths: seq<string>, then_: Then)
    | Searching(app: AppId, paths: seq<string>, then_: Then)
    | Reading(app: AppId, paths: seq<string>, i: nat, out: map<string, Values>)
    | Noting(app: AppId, paths: seq<string>, i: nat, out: map<string, Values>)
    | Asking(app: AppId, paths: seq<string>)
    | Announcing(app: AppId, paths: seq<string>, approval: string)
    | Joining(app: AppId, paths: seq<string>, approval: string)
    | Comparing(app: AppId, paths: seq<string>, approval: string, handle: string)
    | Deciding(app: AppId)
    | Granting(app: AppId)
    | Recording(app: AppId)
    | Retiring(app: AppId)
    | Issuing(app: AppId)
    | Editing(app: AppId)
    | WithdrawingGrants(app: AppId)
    | CancellingRequests(app: AppId)
    | Logging(app: AppId)
    | Done(answer: Answer)

  /** Which operations reach a position. */
  predicate Suits(op: Op, pc: Pc) {
    match pc
    case Start => true
    case Queued(_) => true
    case Done(_) => true
    case Deciding(_) => op.ResolveOp?
    case Granting(_) => op.ResolveOp?
    case Recording(_) => op.ResolveOp?
    case Retiring(_) => op.ChangeOp? && op.action.Rotate?
    case Issuing(_) => op.ChangeOp? && op.action.Rotate?
    case Editing(_) => op.ChangeOp?
    case WithdrawingGrants(_) => op.ChangeOp?
    case CancellingRequests(_) => op.ChangeOp?
    case Logging(_) => op.ChangeOp?
    case Finding(_, _) => op.PollOp?
    case Listing(_, _) => op.AccessOp?
    case Asking(_, _) => op.AccessOp?
    case Announcing(_, _, _) => op.AccessOp?
    case Joining(_, _, _) => op.AccessOp?
    case Comparing(_, _, _, _) => op.AccessOp?
    case _ => op.AccessOp? || op.PollOp?
  }

  datatype Step = Step(pc: Pc, writes: Tables, obs: Obs)

  /** A transaction's position, its uncommitted writes and what it has read of the secrets. */
  datatype Local = Local(pc: Pc, delta: Tables, obs: Obs)

  const BEGUN := Local(Start, EMPTY, UNSEEN)

  function Finish(answer: Answer, obs: Obs): Step {
    Step(Done(answer), EMPTY, obs)
  }

  function Go(pc: Pc, obs: Obs): Step {
    Step(pc, EMPTY, obs)
  }

  ghost function Exec(k: Provider, op: Op, pc: Pc, view: Tables, s: Secrets, obs: Obs): Step {
    match pc
    case Start => Lookup(op, view, obs)
    case Queued(a) => Acquired(op, a, view, obs)
    case Deciding(a) => ExecDeciding(op, a, view, obs)
    case Granting(a) => ExecGranting(op, a, view, obs)
    case Recording(a) => if op.ResolveOp? then Step(Done(Resolved), Logged([DecisionEvent(a, op)]), obs) else Go(pc, obs)
    case Retiring(a) => Step(Issuing(a), Tokens(RevokeTokens(view, a)), obs)
    case Issuing(a) => if op.ChangeOp? then Step(WithdrawingGrants(a), NewToken(a, op.newToken), obs) else Go(pc, obs)
    case Editing(a) => ExecEditing(op, a, view, obs)
    case WithdrawingGrants(a) => Step(CancellingRequests(a), Grants(RevokeGrants(view, a)), obs)
    case CancellingRequests(a) => Step(Logging(a), Requests(RevokeRequests(view, a)), obs)
    case Logging(a) => ExecLogging(op, a, obs)
    case Done(_) => Go(pc, obs)
    case _ => if op.AccessOp? || op.PollOp? then ExecAccess(k, op, pc, view, s, obs) else Go(pc, obs)
  }

  function Lookup(op: Op, view: Tables, obs: Obs): Step {
    var wanted := Prepare(op);
    if wanted.Err? then Finish(Failed(wanted.error), obs)
    else
      var a := Locate(view, op);
      if a.Err? then Finish(Failed(a.error), obs) else Go(Queued(a.value), obs)
  }

  /** The row lock has been granted; the locked row is read in its latest version. */
  function Acquired(op: Op, a: AppId, view: Tables, obs: Obs): Step {
    if a !in view.apps then Finish(Failed(Internal), obs)
    else
      match op
      case AccessOp(_, _, _, _, _) => Go(Rechecking(a, view.apps[a]), obs)
      case PollOp(_, _, _) => Go(Rechecking(a, view.apps[a]), obs)
      case ResolveOp(_, _, _, _) => if view.apps[a].enabled then Go(Deciding(a), obs) else Finish(Failed(Conflict), obs)
      case ChangeOp(_, _, action, _) =>
        match action
        case Unknown => Finish(Failed(Invalid), obs)
        case Rotate => Go(Retiring(a), obs)
        case SetPaths(patterns) =>
          if ValidApplication("x", "x", patterns) then Go(Editing(a), obs) else Finish(Failed(Invalid), obs)
        case Disable => Go(Editing(a), obs)
        case Enable => Go(Editing(a), obs)
        case Revoke => Go(WithdrawingGrants(a), obs)
  }

  ghost function ExecAccess(k: Provider, op: Op, pc: Pc, view: Tables, s: Secrets, obs: Obs): Step
    requires op.AccessOp? || op.PollOp?
  {
    match pc
    case Rechecking(a, row) => ExecRechecking(op, a, row, view, obs)
    case Listing(a, row) => ExecListing(op, a, row, s, obs)
    case Finding(a, row) => ExecFinding(op, a, row, view, obs)
    case Probing(a, paths, i, then_) => if i < |paths| && Fits(op, then_) then ExecProbing(op, a, paths, i, then_, s, obs) else Go(pc, obs)
    case Expiring(a, paths, then_) => Step(Searching(a, paths, then_), Grants(ExpireGrants(view, a, op.now)), obs)
    case Searching(a, paths, then_) => if Fits(op, then_) then ExecSearching(op, a, paths, then_, view, obs) else Go(pc, obs)
    case Reading(a, paths, i, out) => if i < |paths| then ExecReading(k, a, paths, i, out, s, obs) else Go(pc, obs)
    case Noting(a, paths, i, out) => if i < |paths| then ExecNoting(a, paths, i, out, obs) else Go(pc, obs)
    case Asking(a, paths) => if op.AccessOp? then ExecAsking(op, a, paths, view, obs) else Go(pc, obs)
    case Announcing(a, paths, approval) =>
      Step(Joining(a, paths, approval), Logged([Event(AccessRequested, ByApp(a), Some(a), "")]), obs)
    case Joining(a, paths, approval) => if op.AccessOp? then ExecJoining(op, a, paths, approval, view, obs) else Go(pc, obs)
    case Comparing(a, paths, approval, handle) => ExecComparing(paths, approval, handle, view, obs)
    case _ => Go(pc, obs)
  }

  function ExecRechecking(op: Op, a: AppId, row: Application, view: Tables, obs: Obs): Step
    requires op.AccessOp? || op.PollOp?
  {
    if !TokenLive(view, a, Sha256(op.token)) || !row.enabled then Finish(Failed(Unauthorized), obs)
    else if op.PollOp? then Go(Finding(a, row), obs)
    else if op.paths == [] then Go(Listing(a, row), obs)
    else
      var wanted := Prepare(op);
      if wanted.Err? then Finish(Failed(wanted.error), obs)
      else StartProbing(op, a, row, wanted.value, NewAccess, obs)
  }

  function StartProbing(op: Op, a: AppId, row: Application, paths: seq<string>, then_: Then, obs: Obs): Step
    requires Fits(op, then_)
  {
    if AllAllowed(row.allowed, paths) then Go(NextProbe(op, a, paths, 0, then_), obs) else Finish(Failed(Forbidden), obs)
  }

  function NextProbe(op: Op, a: AppId, paths: seq<string>, i: nat, then_: Then): Pc
    requires Fits(op, then_)
  {
    if i < |paths| then Probing(a, paths, i, then_)
    else if then_.NewAccess? || then_.status == Approved then Expiring(a, paths, then_)
    else if then_.status == Pending then Done(Waiting(op.handle, then_.approval, RETRY_AFTER))
    else Done(Closed(then_.status, op.handle, then_.approval))
  }

  ghost function ExecListing(op: Op, a: AppId, row: Application, s: Secrets, obs: Obs): Step {
    var seen := obs.(listed := Some(LivePaths(s)));
    var paths := Assigned(row.allowed, Ordered(LivePaths(s)));
    if paths == [] || !op.AccessOp? then Finish(Failed(NotFound), seen)
    else StartProbing(op, a, row, paths, NewAccess, seen)
  }

  function ExecFinding(op: Op, a: AppId, row: Application, view: Tables, obs: Obs): Step {
    if !op.PollOp? || !HandleOf(view, a, op.handle) then Finish(Failed(NotFound), obs)
    else
      var i := view.instances[op.handle];
      StartProbing(op, a, row, i.paths, Report(i.request, view.requests[i.request].status), obs)
  }

  function ExecProbing(op: Op, a: AppId, paths: seq<string>, i: nat, then_: Then, s: Secrets, obs: Obs): Step
    requires i < |paths| && Fits(op, then_)
  {
    var seen := obs.(present := obs.present[paths[i] := LivePath(s, paths[i])]);
    if LivePath(s, paths[i]) then Go(NextProbe(op, a, paths, i + 1, then_), seen) else Finish(Failed(NotFound), seen)
  }

  function ExecSearching(op: Op, a: AppId, paths: seq<string>, then_: Then, view: Tables, obs: Obs): Step
    requires Fits(op, then_)
  {
    if HasCurrentGrant(view, a, op.now) then Go(NextRead(a, paths, 0, map[]), obs)
    else if then_.NewAccess? then Go(Asking(a, paths), obs)
    else Finish(Closed(Revoked, op.handle, then_.approval), obs)
  }

  function NextRead(a: AppId, paths: seq<string>, i: nat, out: map<string, Values>): Pc {
    if i < |paths| then Reading(a, paths, i, out) else Done(Delivered(out))
  }

  ghost function ExecReading(k: Provider, a: AppId, paths: seq<string>, i: nat, out: map<string, Values>,
      s: Secrets, obs: Obs): Step
    requires i < |paths|
  {
    var v := ReadVersion(k, s, paths[i], 0);
    var seen := obs.(plain := obs.plain[paths[i] := v]);
    if v.Err? then Finish(Failed(v.error), seen) else Go(Noting(a, paths, i, out[paths[i] := v.value]), seen)
  }

  function ExecNoting(a: AppId, paths: seq<string>, i: nat, out: map<string, Values>, obs: Obs): Step
    requires i < |paths|
  {
    Step(NextRead(a, paths, i + 1, out), Logged([ReadEvent(a, paths[i])]), obs)
  }

  ghost function ExecAsking(op: Op, a: AppId, paths: seq<string>, view: Tables, obs: Obs): Step
    requires op.AccessOp?
  {
    if PendingOf(view, a) == {}
    then Step(NextAnnounce(op, a, paths, op.ids.request), NewRequest(op.ids.request, a), obs)
    else Go(NextAnnounce(op, a, paths, Pick(PendingOf(view, a))), obs)
  }

  function NextAnnounce(op: Op, a: AppId, paths: seq<string>, approval: string): Pc
    requires op.AccessOp?
  {
    if approval == op.ids.request then Announcing(a, paths, approval) else Joining(a, paths, approval)
  }

  ghost function ExecJoining(op: Op, a: AppId, paths: seq<string>, approval: string, view: Tables, obs: Obs): Step
    requires op.AccessOp?
  {
    var same := InstancesWith(view, approval, KeyOf(op));
    if same == {}
    then Step(Comparing(a, paths, approval, op.ids.instance), NewInstance(op.ids.instance, approval, KeyOf(op), paths), obs)
    else Go(Comparing(a, paths, approval, Pick(same)), obs)
  }

  function ExecComparing(paths: seq<string>, approval: string, handle: string, view: Tables, obs: Obs): Step {
    if handle !in view.instances then Finish(Failed(Internal), obs)
    else if Printed(view.instances[handle].paths) != Printed(paths) then Finish(Failed(Conflict), obs)
    else Finish(Waiting(handle, approval, RETRY_AFTER), obs)
  }

  function ExecDeciding(op: Op, a: AppId, view: Tables, obs: Obs): Step {
    if !op.ResolveOp? || Decide(view, op) == map[] then Finish(Failed(Conflict), obs)
    else Step(if op.approve then Granting(a) else Recording(a), Requests(Decide(view, op)), obs)
  }

  function ExecGranting(op: Op, a: AppId, view: Tables, obs: Obs): Step {
    if !op.ResolveOp? || HasActiveGrant(view, a) then Finish(Failed(Internal), obs)
    else Step(Recording(a), NewGrant(a, op), obs)
  }

  function ExecEditing(op: Op, a: AppId, view: Tables, obs: Obs): Step {
    if !op.ChangeOp? || a !in view.apps then Finish(Failed(Internal), obs)
    else Step(if op.action.Enable? then Logging(a) else WithdrawingGrants(a), Apps(map[a := Edited(view.apps[a], op.action)]), obs)
  }

  function ExecLogging(op: Op, a: AppId, obs: Obs): Step {
    if !op.ChangeOp? then Finish(Failed(Internal), obs)
    else
      Step(Done(Changed(if op.action.Rotate? then op.newToken else "")),
           Logged([Event(ChangeKind(op.action), ByAdmin(op.admin), Some(a), "")]), obs)
  }

  /** One more statement, over the committed tables `c` and the secret tables of that moment. */
  ghost function Advance(k: Provider, op: Op, c: Tables, s: Secrets, l: Local): Local {
    var st := Exec(k, op, l.pc, Overlay(c, l.delta), s, l.obs);
    Local(st.pc, Overlay(l.delta, st.writes), st.obs)
  }

  /** The statements of one transaction alone over tables `c`; `trace` holds the secret tables each one met. */
  ghost function Replay(k: Provider, op: Op, c: Tables, trace: seq<Secrets>): Local {
    if trace == [] then BEGUN
    else Advance(k, op, c, trace[|trace| - 1], Replay(k, op, c, trace[..|trace| - 1]))
  }
}
