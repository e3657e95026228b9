/**
 * The tables of the approval protocol, and its SQL statements as functions from the tables a
 * transaction sees to the rows it writes (migrations/001_initial.sql, access.go, store.go).
 */
module Database {
  import opened Results
  import opened Vault
  import Text

  /** Serial numbers handed out by the database. */
  datatype AppId = AppId(serial: int)
  datatype GrantId = GrantId(serial: int)

  /** SHA-256 as an injection: a digest is told apart by the text it was made from. */
  datatype Digest = Sha256(text: string)

  datatype Application = Application(name: string, environment: string, enabled: bool, allowed: seq<string>)
  datatype Token = Token(app: AppId, live: bool)
  datatype Status = Pending | Approved | Denied | Revoked
  datatype Request = Request(app: AppId, status: Status, resolvedBy: Option<int>)
  datatype Instance = Instance(request: string, key: string, paths: seq<string>)
  datatype GrantStatus = Active | Withdrawn | Expired
  datatype Grant = Grant(app: AppId, status: GrantStatus, expires: Option<int>, approvedBy: int)

  datatype Kind =
    | AppCreated | TokenRotated | AppDisabled | AppEnabled | PathsUpdated | AccessRevoked
    | AccessRequested | AccessApproved | AccessDenied
    | SecretRead | SecretCreated | SecretUpdated | SecretRestored | SecretArchived
  datatype Actor = ByAdmin(admin: int) | ByApp(application: AppId)
  datatype Event = Event(kind: Kind, actor: Actor, app: Option<AppId>, path: string)

  datatype Tables = Tables(
    apps: map<AppId, Application>,
    tokens: map<Digest, Token>,
    requests: map<string, Request>,
    instances: map<string, Instance>,
    grants: map<GrantId, Grant>,
    audit: seq<Event>)

  const EMPTY := Tables(map[], map[], map[], map[], map[], [])

  /** The tables after the rows in `w` have been written. No statement deletes a row. */
  function Overlay(t: Tables, w: Tables): Tables {
    Tables(t.apps + w.apps, t.tokens + w.tokens, t.requests + w.requests,
           t.instances + w.instances, t.grants + w.grants, t.audit + w.audit)
  }

  lemma MapAssociative<K, V>(a: map<K, V>, b: map<K, V>, c: map<K, V>)
    ensures a + b + c == a + (b + c)
  {
  }

  lemma OverlayAssociative(t: Tables, u: Tables, w: Tables)
    ensures Overlay(Overlay(t, u), w) == Overlay(t, Overlay(u, w))
  {
    MapAssociative(t.apps, u.apps, w.apps);
    MapAssociative(t.tokens, u.tokens, w.tokens);
    MapAssociative(t.requests, u.requests, w.requests);
    MapAssociative(t.instances, u.instances, w.instances);
    MapAssociative(t.grants, u.grants, w.grants);
    assert t.audit + u.audit + w.audit == t.audit + (u.audit + w.audit);
  }

  lemma OverlayNothing(t: Tables)
    ensures Overlay(t, EMPTY) == t && Overlay(EMPTY, t) == t
  {
    assert t.apps + map[] == t.apps == map[] + t.apps;
    assert t.tokens + map[] == t.tokens == map[] + t.tokens;
    assert t.requests + map[] == t.requests == map[] + t.requests;
    assert t.instances + map[] == t.instances == map[] + t.instances;
    assert t.grants + map[] == t.grants == map[] + t.grants;
  }

  // ---- statements that read ----

  predicate WellFormedToken(token: string) {
    Text.HasPrefix(token, "lg_app_") && |token| <= 128
  }

  predicate TokenLive(t: Tables, a: AppId, d: Digest) {
    d in t.tokens && t.tokens[d].app == a && t.tokens[d].live
  }

  predicate GrantCurrent(g: Grant, now: int) {
    g.status == Active && (g.expires.None? || g.expires.value > now)
  }

  predicate HasCurrentGrant(t: Tables, a: AppId, now: int) {
    exists g | g in t.grants :: t.grants[g].app == a && GrantCurrent(t.grants[g], now)
  }

  /** A row the partial unique index one_active_grant would clash with. */
  predicate HasActiveGrant(t: Tables, a: AppId) {
    exists g | g in t.grants :: t.grants[g].app == a && t.grants[g].status == Active
  }

  function PendingOf(t: Tables, a: AppId): set<string> {
    set r | r in t.requests && t.requests[r].app == a && t.requests[r].status == Pending
  }

  function InstancesOf(t: Tables, request: string): set<string> {
    set i | i in t.instances && t.instances[i].request == request
  }

  function InstancesWith(t: Tables, request: string, key: string): set<string> {
    set i | i in t.instances && t.instances[i].request == request && t.instances[i].key == key
  }

  /** The handle joins to a request of this application. */
  predicate HandleOf(t: Tables, a: AppId, handle: string) {
    && handle in t.instances && t.instances[handle].request in t.requests
    && t.requests[t.instances[handle].request].app == a
  }

  predicate LivePath(s: Secrets, p: string) {
    p in s && !s[p].archived
  }

  function LivePaths(s: Secrets): set<string> {
    set p | p in s && !s[p].archived
  }

  // ---- statements that write ----

  function ExpireGrants(t: Tables, a: AppId, now: int): map<GrantId, Grant> {
    map g | g in t.grants && t.grants[g].app == a && t.grants[g].status == Active
              && t.grants[g].expires.Some? && t.grants[g].expires.value <= now
      :: t.grants[g].(status := Expired)
  }

  function RevokeGrants(t: Tables, a: AppId): map<GrantId, Grant> {
    map g | g in t.grants && t.grants[g].app == a && t.grants[g].status == Active
      :: t.grants[g].(status := Withdrawn)
  }

  function RevokeRequests(t: Tables, a: AppId): map<string, Request> {
    map r | r in t.requests && t.requests[r].app == a && t.requests[r].status in {Approved, Pending}
      :: t.requests[r].(status := Revoked)
  }

  function RevokeTokens(t: Tables, a: AppId): map<Digest, Token> {
    map d | d in t.tokens && t.tokens[d].app == a && t.tokens[d].live
      :: t.tokens[d].(live := false)
  }

  function Grants(rows: map<GrantId, Grant>): Tables { EMPTY.(grants := rows) }
  function Requests(rows: map<string, Request>): Tables { EMPTY.(requests := rows) }
  function Instances(rows: map<string, Instance>): Tables { EMPTY.(instances := rows) }
  function Tokens(rows: map<Digest, Token>): Tables { EMPTY.(tokens := rows) }
  function Apps(rows: map<AppId, Application>): Tables { EMPTY.(apps := rows) }
  function Logged(events: seq<Event>): Tables { EMPTY.(audit := events) }
}
