/**
 * What each call does, written out on the rows: which answer it gives in which case, and every
 * table afterwards (access.go, store.go).
 */
module Contracts {
  import opened Results
  import opened Envelopes
  import opened Vault
  import opened Database
  import opened Protocol
  import opened Effects
  import opened History
  import opened Runs
  import opened Paths

  // ---- Resolve ----

  /** A decision is refused without a trace unless the request is pending and its application enabled. */
  lemma ResolutionRefused(t: Tables, op: Op, obs: Obs)
    requires op.ResolveOp?
    ensures var o := Atomic(t, op, obs);
      && (op.request !in t.requests ==> o == Outcome(t, Failed(NotFound)))
      && (op.request in t.requests && t.requests[op.request].app in t.apps
            && (!t.apps[t.requests[op.request].app].enabled || t.requests[op.request].status != Pending)
          ==> o == Outcome(t, Failed(Conflict)))
  {
    hide Overlay, HasActiveGrant;
  }

  /** Otherwise it stores approved or denied with the administrator's number, and a grant exactly if it approves. */
  lemma Resolution(t: Tables, op: Op, obs: Obs)
    requires op.ResolveOp? && op.request in t.requests && t.requests[op.request].status == Pending
    requires t.requests[op.request].app in t.apps && t.apps[t.requests[op.request].app].enabled
    ensures var o := Atomic(t, op, obs);
      var a := t.requests[op.request].app;
      if op.approve && exists g | g in t.grants :: t.grants[g].app == a && t.grants[g].status == Active
      then o == Outcome(t, Failed(Internal))
      else
        && o.answer == Resolved
        && o.tables == t.(
             requests := t.requests[op.request := Request(a, if op.approve then Approved else Denied, Some(op.admin))],
             grants := if op.approve then t.grants[op.grant := Grant(a, Active, None, op.admin)] else t.grants,
             audit := t.audit + [Event(if op.approve then AccessApproved else AccessDenied, ByAdmin(op.admin), Some(a), "")])
  {
    hide Overlay, Decide, HasActiveGrant, DecisionEvent, NewGrant;
    var a := t.requests[op.request].app;
    var t1 := Overlay(t, Requests(Decide(t, op)));
    var t2 := if op.approve then Overlay(t1, NewGrant(a, op)) else t1;
    ResolvedRows(t, op, a);
    LoggedRow(t2, DecisionEvent(a, op));
    ActiveRow(t1, a);
  }

  lemma ActiveRow(t: Tables, a: AppId)
    ensures HasActiveGrant(t, a) <==> exists g | g in t.grants :: t.grants[g].app == a && t.grants[g].status == Active
  {
  }

  lemma LoggedRow(t: Tables, e: Event)
    ensures Overlay(t, Logged([e])) == t.(audit := t.audit + [e])
  {
    Unwritten(t);
  }

  lemma ResolvedRows(t: Tables, op: Op, a: AppId)
    requires op.ResolveOp? && op.request in t.requests && t.requests[op.request].status == Pending && t.requests[op.request].app == a
    ensures op.request in Decide(t, op)
    ensures var t1 := Overlay(t, Requests(Decide(t, op)));
      && t1.grants == t.grants
      && t1 == t.(requests := t.requests[op.request := Request(a, if op.approve then Approved else Denied, Some(op.admin))])
      && Overlay(t1, NewGrant(a, op)) == t1.(grants := t.grants[op.grant := Grant(a, Active, None, op.admin)])
    ensures DecisionEvent(a, op) == Event(if op.approve then AccessApproved else AccessDenied, ByAdmin(op.admin), Some(a), "")
  {
    Unwritten(t);
    Unwritten(Overlay(t, Requests(Decide(t, op))));
  }

  // ---- ChangeApplication ----

  lemma AlterationRefused(t: Tables, op: Op, obs: Obs)
    requires op.ChangeOp?
    ensures var o := Atomic(t, op, obs);
      && (op.app !in t.apps ==> o == Outcome(t, Failed(NotFound)))
      && (op.app in t.apps
            && (op.action.Unknown?
                || (op.action.SetPaths?
                    && !(1 <= |op.action.patterns| <= 100 && forall p | p in op.action.patterns :: ValidPattern(p))))
          ==> o == Outcome(t, Failed(Invalid)))
  {
    hide Overlay, Withdrawing, ValidPattern;
    if op.action.SetPaths? { PatternsChecked(op.action.patterns); }
  }

  lemma PatternsChecked(patterns: seq<string>)
    ensures ValidApplication("x", "x", patterns) <==> 1 <= |patterns| <= 100 && forall p | p in patterns :: ValidPattern(p)
  {
    hide ValidPattern;
  }

  /**
   * A change leaves name and environment alone; only disabling and enabling touch the flag and only
   * a path change the patterns, which become the given ones.
   */
  lemma AlteredRow(t: Tables, op: Op, obs: Obs)
    requires op.ChangeOp? && op.app in t.apps && !op.action.Unknown?
    requires op.action.SetPaths? ==> 1 <= |op.action.patterns| <= 100 && forall p | p in op.action.patterns :: ValidPattern(p)
    ensures var o := Atomic(t, op, obs);
      var row := t.apps[op.app];
      && o.answer == Changed(if op.action.Rotate? then op.newToken else "")
      && o.tables.apps == t.apps[op.app := Application(
           row.name, row.environment,
           if op.action.Disable? then false else if op.action.Enable? then true else row.enabled,
           if op.action.SetPaths? then op.action.patterns else row.allowed)]
      && o.tables.instances == t.instances
      && o.tables.audit == t.audit + [Event(
           match op.action
           case Rotate => TokenRotated
           case Disable => AppDisabled
           case Enable => AppEnabled
           case SetPaths(_) => PathsUpdated
           case _ => AccessRevoked, ByAdmin(op.admin), Some(op.app), "")]
  {
    hide Atomic, ValidPattern, RevokeTokens, RevokeGrants, RevokeRequests;
    ChangingClosed(t, op, obs);
    if op.action.SetPaths? { PatternsChecked(op.action.patterns); }
    Unwritten(t);
  }

  /** Only a rotation touches tokens: the application's old ones die and the new one lives. */
  lemma AlteredTokens(t: Tables, op: Op, obs: Obs)
    requires op.ChangeOp? && Atomic(t, op, obs).answer.Changed?
    ensures var u := Atomic(t, op, obs).tables;
      && (!op.action.Rotate? ==> u.tokens == t.tokens)
      && (op.action.Rotate? ==>
            && u.tokens.Keys == t.tokens.Keys + {Sha256(op.newToken)}
            && forall d | d in u.tokens ::
                 u.tokens[d] == if d == Sha256(op.newToken) then Token(op.app, true)
                                else if t.tokens[d].app == op.app then Token(op.app, false) else t.tokens[d])
  {
    hide Atomic, RevokeGrants, RevokeRequests;
    ChangingClosed(t, op, obs);
    Unwritten(t);
  }

  /** Every change but enabling revokes the application's open and approved requests and its active grants. */
  lemma AlteredApprovals(t: Tables, op: Op, obs: Obs)
    requires op.ChangeOp? && Atomic(t, op, obs).answer.Changed?
    ensures var u := Atomic(t, op, obs).tables;
      && u.requests.Keys == t.requests.Keys && u.grants.Keys == t.grants.Keys
      && (forall r | r in t.requests ::
            u.requests[r] == if !op.action.Enable? && t.requests[r].app == op.app && t.requests[r].status in {Pending, Approved}
                             then Request(op.app, Revoked, t.requests[r].resolvedBy) else t.requests[r])
      && (forall g | g in t.grants ::
            u.grants[g] == if !op.action.Enable? && t.grants[g].app == op.app && t.grants[g].status == Active
                           then Grant(op.app, Withdrawn, t.grants[g].expires, t.grants[g].approvedBy) else t.grants[g])
  {
    hide Atomic, RevokeTokens;
    ChangingClosed(t, op, obs);
    Unwritten(t);
  }

  // ---- CreateApplication ----

  /** Names and patterns are checked, a taken name is refused, and a new application starts enabled with one token. */
  lemma CreatedApplication(k: Provider, w: World, c: Call)
    requires c.Create?
    ensures var r := Apply(k, w, c);
      if !(1 <= |c.name| <= 100 && 1 <= |c.environment| <= 100 && 1 <= |c.patterns| <= 100
           && forall p | p in c.patterns :: ValidPattern(p))
      then r == Reply(w, Failed(Invalid))
      else if exists a | a in w.tables.apps ::
                w.tables.apps[a].name == c.name && w.tables.apps[a].environment == c.environment
      then r == Reply(w, Failed(Internal))
      else
        r == Reply(World(w.tables.(
               apps := w.tables.apps[c.app := Application(c.name, c.environment, true, c.patterns)],
               tokens := w.tables.tokens[Sha256(c.token) := Token(c.app, true)],
               audit := w.tables.audit + [Event(AppCreated, ByAdmin(c.admin), Some(c.app), "")]), w.secrets),
             Created(c.app, c.token))
  {
    hide ValidPattern;
    Unwritten(w.tables);
  }

  // ---- the secret operations ----

  /** A save checks its sizes, appends one value, revives the path and logs created for the first version only. */
  lemma SavedSecret(k: Provider, w: World, m: Plain, c: Call)
    requires ValidProvider(k) && Represents(k, w.secrets, m) && FreshCall(w, c) && c.Save?
    ensures var r := Apply(k, w, c);
      var history := if c.path in m then m[c.path].history else [];
      if !(ValidPath(c.path) && 1 <= |c.values| <= 500 && c.jsonSize <= 1048576
           && forall name | name in c.values :: 1 <= |name| <= 256 && |c.values[name]| <= 65536)
      then r == Reply(w, Failed(Invalid))
      else
        && r.answer == Saved(|history| + 1)
        && Represents(k, r.world.secrets, m[c.path := PlainRow(false, history + [c.values])])
        && r.world.tables == w.tables.(audit := w.tables.audit
             + [Event(if history == [] then SecretCreated else SecretUpdated, ByAdmin(c.admin), None, c.path)])
  {
    hide ValidPath, Represents, WriteVersion;
    if ValidPath(c.path) {
      WriteRefines(k, w.secrets, m, c.path, c.values, c.coins);
      Unwritten(w.tables);
    }
  }

  /** A restore appends the named version once more, archived or not, and logs the write and the restore. */
  lemma RestoredSecret(k: Provider, w: World, m: Plain, c: Call)
    requires ValidProvider(k) && Represents(k, w.secrets, m) && FreshCall(w, c) && c.Restore?
    ensures var r := Apply(k, w, c);
      if c.version < 1 then r == Reply(w, Failed(Invalid))
      else if c.path !in m || c.version > |m[c.path].history| then r == Reply(w, Failed(NotFound))
      else
        var history := m[c.path].history;
        && r.answer == Answer.Restored
        && Represents(k, r.world.secrets, m[c.path := PlainRow(false, history + [history[c.version - 1]])])
        && r.world.tables == w.tables.(audit := w.tables.audit
             + [Event(SecretUpdated, ByAdmin(c.admin), None, c.path), Event(SecretRestored, ByAdmin(c.admin), None, c.path)])
  {
    hide ValidPath, Represents, WriteVersion, ReadVersion;
    RepresentsKeys(k, w.secrets, m, c.path);
    if c.version >= 1 {
      ReadRefines(k, w.secrets, m, c.path, c.version);
      if c.path in m && c.version <= |m[c.path].history| {
        WriteRefines(k, w.secrets, m, c.path, m[c.path].history[c.version - 1], c.coins);
        Unwritten(w.tables);
      }
    }
  }

  /** An archive sets the tombstone of a live path and keeps its history; a second one finds nothing. */
  lemma ArchivedSecret(k: Provider, w: World, m: Plain, c: Call)
    requires Represents(k, w.secrets, m) && c.Archive?
    ensures var r := Apply(k, w, c);
      if c.path !in m || m[c.path].archived then r == Reply(w, Failed(NotFound))
      else
        && r.answer == Archived
        && Represents(k, r.world.secrets, m[c.path := PlainRow(true, m[c.path].history)])
        && r.world.tables == w.tables.(audit := w.tables.audit + [Event(SecretArchived, ByAdmin(c.admin), None, c.path)])
  {
    hide Represents;
    RepresentsKeys(k, w.secrets, m, c.path);
    if c.path in m {
      ArchiveRefines(k, w.secrets, m, c.path);
      Unwritten(w.tables);
    }
  }

  /** An administrator sees the newest value, of an archived path too, and is logged. */
  lemma ViewedSecret(k: Provider, w: World, m: Plain, c: Call)
    requires Represents(k, w.secrets, m) && c.View?
    ensures var r := Apply(k, w, c);
      if c.path !in m then r == Reply(w, Failed(NotFound))
      else
        && m[c.path].history != []
        && r.answer == Shown(m[c.path].history[|m[c.path].history| - 1])
        && r.world.secrets == w.secrets
        && r.world.tables == w.tables.(audit := w.tables.audit + [Event(SecretRead, ByAdmin(c.admin), None, c.path)])
  {
    hide ReadVersion;
    ReadRefines(k, w.secrets, m, c.path, 0);
    Unwritten(w.tables);
    if c.path in m { assert RowRepresents(k, c.path, w.secrets[c.path], m[c.path]); }
  }
}
