/** What a call did, as one of a few deeds with the exact rows each leaves behind. */
module Deeds {
  import opened Results
  import opened Envelopes
  import opened Database
  import opened Protocol
  import opened Locality
  import opened Effects
  import opened Invariants
  import opened History
  import opened Runs

  datatype Deed =
    | Nothing
    | Served(app: AppId, paths: seq<string>, then_: Then)
    | Joined(app: AppId, paths: seq<string>)
    | Decided(app: AppId)
    | Altered(app: AppId)
    | Registered(app: AppId)
    | Noted(events: seq<Event>)

  /** The call is a request of `app` past the checks. */
  ghost predicate PastGate(w: World, c: Call, app: AppId, paths: seq<string>, then_: Then) {
    && c.Lock? && Gate(w.tables, c.op, c.obs, app, paths, then_)
    && Requestable(paths)
  }

  ghost predicate Does(k: Provider, w: World, c: Call, d: Deed) {
    var t := w.tables;
    var u, answer := Apply(k, w, c).world.tables, Apply(k, w, c).answer;
    match d
    case Nothing => u == t && !answer.Delivered? && !answer.Changed? && !answer.Resolved? && !answer.Created? && IdleAnswer(w, c, answer)
    case Served(a, paths, then_) =>
      && PastGate(w, c, a, paths, then_) && ActiveOf(t, a) != {} && AllReadable(c.obs, paths)
      && u == Overlay(t, Logged(ReadEvents(a, paths))) && answer == Delivered(Bundle(c.obs, paths))
      && (then_.NewAccess? || then_.status == Approved)
    case Joined(a, paths) =>
      && PastGate(w, c, a, paths, NewAccess) && ActiveOf(t, a) == {} && c.op.AccessOp?
      && !JoinClosed(t, a, paths, c.op).answer.Failed?
      && u == Overlay(t, JoinWrites(t, a, paths, c.op))
      && answer == Waiting(HandleFor(t, a, c.op), ApprovalFor(t, a, c.op), RETRY_AFTER)
    case Decided(a) =>
      && c.Lock? && c.op.ResolveOp? && Decidable(t, c.op) && t.requests[c.op.request].app == a
      && u == Overlay(t, ResolveWrites(t, a, c.op)) && answer == Resolved
    case Altered(a) =>
      && c.Lock? && c.op.ChangeOp? && c.op.app == a && a in t.apps && Changes(c.op)
      && u == Overlay(t, ChangeWrites(t, a, c.op)) && answer.Changed?
    case Registered(a) => c.Create? && c.app == a && u == Overlay(t, Registration(c)) && answer == Created(a, c.token)
    case Noted(events) =>
      && !c.Lock? && !c.Create? && u == Overlay(t, Logged(events))
      && (answer.Saved? || answer.Restored? || answer.Archived? || answer.Shown?)
      && forall e | e in events :: OfSecrets(e)
  }

  /** A protocol call that changed nothing failed, or was a poll reporting an undelivered request. */
  ghost predicate IdleAnswer(w: World, c: Call, answer: Answer) {
    answer.Failed? ||
    (c.Lock? && c.op.PollOp? && Prepare(c.op).Ok?
      && Locate(w.tables, c.op).Ok? && HandleOf(w.tables, Locate(w.tables, c.op).value, c.op.handle)
      && var r := w.tables.instances[c.op.handle].request;
         IdleReport(r, w.tables.requests[r].status, c.op.handle, answer))
  }

  ghost predicate IdleReport(approval: string, status: Status, handle: string, answer: Answer) {
    match status
    case Pending => answer == Waiting(handle, approval, RETRY_AFTER)
    case Approved => answer == Closed(Revoked, handle, approval)
    case _ => answer == Closed(status, handle, approval)
  }

  lemma AccessDeed(k: Provider, w: World, c: Call) returns (d: Deed)
    requires Valid(w.tables) && FreshCall(w, c) && c.Lock? && (c.op.AccessOp? || c.op.PollOp?)
    ensures Does(k, w, c, d)
    ensures d.Nothing? || d.Served? || d.Joined?
  {
    hide Atomic, Valid, Gate, Granted, Fresh;
    var t := w.tables;
    var passed, a, paths, then_ := GateOrFail(t, c.op, c.obs);
    d := Nothing;
    if passed {
      SoundParts(t);
      GatedRequestable(t, c.op, c.obs, a, paths, then_);
      d := GatedDeed(k, w, c, a, paths, then_);
    }
  }

  lemma GatedDeed(k: Provider, w: World, c: Call, a: AppId, paths: seq<string>, then_: Then) returns (d: Deed)
    requires Sound(w.tables) && FreshCall(w, c) && PastGate(w, c, a, paths, then_)
    requires Atomic(w.tables, c.op, c.obs) == AfterGate(w.tables, c.op, c.obs, a, paths, then_)
    ensures Does(k, w, c, d)
    ensures d.Nothing? || d.Served? || d.Joined?
  {
    hide Atomic, Granted, Bundle, JoinWrites, Overlay, Requestable, AllPresent, AllAllowed;
    var t := w.tables;
    GrantedIsClosed(t, a, paths, c.op, then_, c.obs);
    d := Nothing;
    if then_.NewAccess? || then_.status == Approved {
      if ActiveOf(t, a) != {} {
        if AllReadable(c.obs, paths) { d := Served(a, paths, then_); }
      } else if then_.NewAccess? && !JoinClosed(t, a, paths, c.op).answer.Failed? {
        d := Joined(a, paths);
      }
    }
  }

  lemma WhatHappened(k: Provider, w: World, c: Call) returns (d: Deed)
    requires Valid(w.tables) && FreshCall(w, c)
    ensures Does(k, w, c, d)
  {
    hide Atomic, Valid, Fresh, Saving, Restoring, Viewing, Overlay, ResolveWrites, ChangeWrites;
    var t := w.tables;
    d := Nothing;
    if c.Lock? {
      if c.op.ResolveOp? {
        SoundParts(t);
        ResolvingClosed(t, c.op, c.obs);
        if Decidable(t, c.op) {
          PendingMeansNoGrant(t, c.op);
          d := Decided(t.requests[c.op.request].app);
        }
      } else if c.op.ChangeOp? {
        ChangingClosed(t, c.op, c.obs);
        if c.op.app in t.apps && Changes(c.op) { d := Altered(c.op.app); }
      } else {
        d := AccessDeed(k, w, c);
      }
    } else if c.Create? {
      if !Creating(w, c).answer.Failed? { d := Registered(c.app); }
    } else {
      var events := SecretCallsLog(k, w, c);
      SecretAnswers(k, w, c);
      if !Apply(k, w, c).answer.Failed? { d := Noted(events); }
    }
  }

  lemma SecretAnswers(k: Provider, w: World, c: Call)
    requires !c.Lock? && !c.Create?
    ensures var answer := Apply(k, w, c).answer;
      answer.Failed? || answer.Saved? || answer.Restored? || answer.Archived? || answer.Shown?
  {
  }

  // ---- what a deed does to an application's standing ----

  ghost predicate Opens(k: Provider, w: World, c: Call, a: AppId, r: string) {
    && c.Lock? && c.op.AccessOp? && c.op.ids.request == r && Locate(w.tables, c.op) == Ok(a)
    && r !in w.tables.requests
    && Apply(k, w, c).answer.Waiting? && Apply(k, w, c).answer.approval == r
  }

  ghost predicate Decides(k: Provider, w: World, c: Call, a: AppId, r: string, approve: bool) {
    && c.Lock? && c.op.ResolveOp? && c.op.request == r && c.op.approve == approve
    && r in w.tables.requests && w.tables.requests[r].app == a
    && Apply(k, w, c).answer == Resolved
  }

  ghost predicate Alters(k: Provider, w: World, c: Call, a: AppId) {
    c.Lock? && c.op.ChangeOp? && c.op.app == a && Apply(k, w, c).answer.Changed?
  }

  /** Every way in which an application's requests and grant can move in one call. */
  ghost predicate StandingMoves(k: Provider, w: World, c: Call, a: AppId, s: Standing, n: Standing) {
    || n == s
    || (exists r :: Opens(k, w, c, a, r) && s.pending == {} && s.active == {} && s.enabled && n == s.(pending := {r}))
    || (exists r :: Decides(k, w, c, a, r, true) && s.pending == {r} && s.active == {}
          && n.pending == {} && n.approved == {r} && n.active != {} && n.enabled == s.enabled)
    || (exists r :: Decides(k, w, c, a, r, false) && s.pending == {r} && s.active == {} && n == s.(pending := {}))
    || (Alters(k, w, c, a) && c.op.action.Enable? && n == s.(enabled := true))
    || (Alters(k, w, c, a) && !c.op.action.Enable? && n.pending == {} && n.approved == {} && n.active == {}
        && n.enabled == EnabledAfter(s.enabled, c.op.action))
  }

  lemma StandingStep(k: Provider, w: World, c: Call, a: AppId)
    requires Valid(w.tables) && FreshCall(w, c) && a in w.tables.apps
    ensures var u := Apply(k, w, c).world.tables;
      a in u.apps && StandingMoves(k, w, c, a, StandingOf(w.tables, a), StandingOf(u, a))
  {
    hide Valid, Apply, Overlay, JoinWrites, ResolveWrites, ChangeWrites, Gate, Requestable, Bundle, AllReadable,
      Private, Registration;
    var t := w.tables;
    var d := WhatHappened(k, w, c);
    SoundParts(t);
    match d
    case Nothing =>
    case Served(b, paths, _) => LoggedStanding(t, ReadEvents(b, paths), b);
    case Joined(b, paths) => JoinedStep(k, w, c, a, b, paths);
    case Decided(b) => DecidedStep(k, w, c, a, b);
    case Altered(b) => AlteredStep(k, w, c, a, b);
    case Registered(b) =>
      CreatePrivate(t, c);
      StandingElsewhere(t, Registration(c), b, a);
    case Noted(events) => LoggedStanding(t, events, a);
  }

  lemma JoinedStep(k: Provider, w: World, c: Call, a: AppId, b: AppId, paths: seq<string>)
    requires Valid(w.tables) && FreshCall(w, c) && a in w.tables.apps && Does(k, w, c, Joined(b, paths))
    ensures var u := Apply(k, w, c).world.tables;
      a in u.apps && StandingMoves(k, w, c, a, StandingOf(w.tables, a), StandingOf(u, a))
  {
    hide Apply, Overlay, JoinWrites, Requestable, Private, AllAllowed, AllPresent, Asks;
    var t := w.tables;
    JoinPrivate(t, b, paths, c.op);
    JoinStanding(t, b, paths, c.op);
    if a != b {
      StandingElsewhere(t, JoinWrites(t, b, paths, c.op), b, a);
    } else if PendingOf(t, a) == {} {
      assert Opens(k, w, c, a, c.op.ids.request);
    }
  }

  lemma DecidedStep(k: Provider, w: World, c: Call, a: AppId, b: AppId)
    requires Valid(w.tables) && FreshCall(w, c) && a in w.tables.apps && Does(k, w, c, Decided(b))
    ensures var u := Apply(k, w, c).world.tables;
      a in u.apps && StandingMoves(k, w, c, a, StandingOf(w.tables, a), StandingOf(u, a))
  {
    hide Apply, Overlay, ResolveWrites, Private;
    var t := w.tables;
    ResolvePrivate(t, c.op);
    ResolveStanding(t, c.op);
    PendingMeansNoGrant(t, c.op);
    if a != b {
      StandingElsewhere(t, ResolveWrites(t, b, c.op), b, a);
    } else {
      assert Decides(k, w, c, a, c.op.request, c.op.approve);
      assert c.op.approve ==> c.op.grant in {c.op.grant};
    }
  }

  lemma AlteredStep(k: Provider, w: World, c: Call, a: AppId, b: AppId)
    requires Valid(w.tables) && FreshCall(w, c) && a in w.tables.apps && Does(k, w, c, Altered(b))
    ensures var u := Apply(k, w, c).world.tables;
      a in u.apps && StandingMoves(k, w, c, a, StandingOf(w.tables, a), StandingOf(u, a))
  {
    hide Apply, Overlay, ChangeWrites, Private;
    var t := w.tables;
    ChangePrivate(t, c.op);
    ChangeStanding(t, c.op);
    if a != b {
      StandingElsewhere(t, ChangeWrites(t, b, c.op), b, a);
    } else {
      assert Alters(k, w, c, a);
    }
  }
}
