/**
 * The client's bound is met by this server: an administrator who keeps revoking what the client
 * asks for makes it send as many requests as any stream of replies can.
 */
module Tightness {
  import opened Results
  import opened Envelopes
  import opened Vault
  import opened Database
  import opened Protocol
  import opened Locality
  import opened Effects
  import opened Invariants
  import opened History
  import opened Runs
  import opened Paths
  import Client
  import opened Composition

  const APP := AppId(1)
  const TOKEN := "lg_app_t"
  const KEY := "k"
  const VALUES: Values := map["name" := "value"]

  function Zeros(n: nat): (b: Bytes)
    ensures |b| == n
  {
    seq(n, i => 0)
  }

  function SomeCoins(): (r: Coins)
    ensures ValidCoins(r)
  {
    Coins(Zeros(KEY_BYTES), Zeros(NONCE_BYTES), Zeros(NONCE_BYTES))
  }

  /** The identifier drawn in a round, longer than every earlier one. */
  function Name(j: nat): (s: string)
    ensures |s| == j + 1 && forall c | c in s :: c == 'x'
  {
    seq(j + 1, i => 'x')
  }

  function Sealed(k: Provider, p: string): Envelope
    requires ValidProvider(k)
  {
    SealWith(k.current, k.keys[k.current], Json(VALUES), p, 1, SomeCoins())
  }

  function Stored(k: Provider, p: string): Secrets
    requires ValidProvider(k)
  {
    map[p := SecretRow(false, map[1 := Sealed(k, p)])]
  }

  ghost function Seen(k: Provider, p: string): Obs
    requires ValidProvider(k)
  {
    ObsOf(k, Stored(k, p))
  }

  ghost function Asking(k: Provider, p: string, j: nat): Call
    requires ValidProvider(k)
  {
    Lock(AccessOp(TOKEN, [p], KEY, 0, Ids(Name(j), Name(j), "")), Seen(k, p))
  }

  function Revoking(): Call {
    Lock(ChangeOp(APP, 1, Revoke, ""), UNSEEN)
  }

  ghost function Polling(k: Provider, p: string, j: nat): Call
    requires ValidProvider(k)
  {
    Lock(PollOp(TOKEN, Name(j), 0), Seen(k, p))
  }

  // ---- one round: ask, revoke, poll ----

  /** The application may ask for `p`, holds nothing, and every identifier so far is short. */
  ghost predicate Free(t: Tables, p: string) {
    && Valid(t) && APP in t.apps && t.apps[APP].enabled && t.apps[APP].allowed == [p]
    && TokenLive(t, APP, Sha256(TOKEN))
  }

  ghost predicate Short(t: Tables, j: nat) {
    (forall r | r in t.requests :: |r| <= j) && (forall i | i in t.instances :: |i| <= j)
  }

  ghost predicate Idle(t: Tables, p: string, j: nat) {
    Free(t, p) && Short(t, j) && PendingOf(t, APP) == {} && ActiveOf(t, APP) == {}
  }

  lemma TokenWellFormed()
    ensures WellFormedToken(TOKEN)
  {
    assert TOKEN[..7] == "lg_app_";
  }

  lemma OnePath(p: string)
    requires ValidPath(p)
    ensures Normalize([p]) == Ok([p]) && Allowed([p], p)
  {
    hide ValidPath;
    assert [p][..0] == [] && Sort([p][..0]) == [];
    assert Sort([p]) == [p];
    assert PatternAllows([p][0], p);
  }

  lemma SeesPath(k: Provider, p: string)
    requires ValidProvider(k)
    ensures AllPresent(Seen(k, p), [p], 0)
  {
    assert Present(Seen(k, p), p);
  }

  lemma AskGate(k: Provider, p: string, t: Tables, j: nat)
    requires ValidProvider(k) && ValidPath(p) && Free(t, p)
    ensures Gate(t, Asking(k, p, j).op, Seen(k, p), APP, [p], NewAccess)
  {
    hide ValidPath, Valid, Seen, ValidProvider;
    TokenWellFormed();
    OnePath(p);
    SeesPath(k, p);
  }

  lemma PollGate(k: Provider, p: string, t: Tables, j: nat, status: Status)
    requires ValidProvider(k) && ValidPath(p) && Free(t, p)
    requires Name(j) in t.instances && t.instances[Name(j)] == Instance(Name(j), KEY, [p])
    requires Name(j) in t.requests && t.requests[Name(j)].app == APP && t.requests[Name(j)].status == status
    ensures Gate(t, Polling(k, p, j).op, Seen(k, p), APP, [p], Report(Name(j), status))
  {
    hide ValidPath, Valid, Seen, ValidProvider;
    TokenWellFormed();
    OnePath(p);
    SeesPath(k, p);
  }

  /** The request and the instance of round j are there. */
  ghost predicate HasAsked(t: Tables, p: string, j: nat, status: Status) {
    && Name(j) in t.instances && t.instances[Name(j)] == Instance(Name(j), KEY, [p])
    && Name(j) in t.requests && t.requests[Name(j)].app == APP && t.requests[Name(j)].status == status
  }

  lemma NothingJoined(t: Tables, j: nat)
    requires Linked(t) && Short(t, j)
    ensures Name(j) !in t.requests && Name(j) !in t.instances && InstancesWith(t, Name(j), KEY) == {}
  {
  }

  lemma AskWrites(k: Provider, p: string, t: Tables, j: nat)
    requires ValidProvider(k) && Linked(t) && Idle(t, p, j)
    ensures var op := Asking(k, p, j).op;
      var u := Overlay(t, JoinWrites(t, APP, [p], op));
      && Fresh(t, op) && HandleFor(t, APP, op) == Name(j) && ApprovalFor(t, APP, op) == Name(j)
      && JoinClosed(t, APP, [p], op) == Outcome(u, Waiting(Name(j), Name(j), RETRY_AFTER))
      && HasAsked(u, p, j, Pending) && Short(u, j + 1)
      && u.apps == t.apps && u.tokens == t.tokens
  {
    hide Valid, ValidProvider, Seen, PendingOf, ActiveOf, InstancesWith;
    NothingJoined(t, j);
    Unwritten(t);
  }

  lemma Ask(k: Provider, p: string, w: World, j: nat)
    requires ValidProvider(k) && ValidPath(p) && Idle(w.tables, p, j)
    ensures var r := Apply(k, w, Asking(k, p, j));
      && FreshCall(w, Asking(k, p, j)) && r.answer == Waiting(Name(j), Name(j), RETRY_AFTER) && r.world.secrets == w.secrets
      && Free(r.world.tables, p) && HasAsked(r.world.tables, p, j, Pending) && Short(r.world.tables, j + 1)
  {
    hide ValidPath, Valid, ValidProvider, Gate, Granted, JoinClosed, JoinWrites, Overlay, HasAsked, Short, Atomic,
      Fresh, Seen;
    var t, c := w.tables, Asking(k, p, j);
    SoundParts(t);
    AskGate(k, p, t, j);
    AskWrites(k, p, t, j);
    var passed, b, ps, th := GateOrFail(t, c.op, c.obs);
    if passed { GateUnique(t, c.op, c.obs, APP, [p], NewAccess, b, ps, th); }
    GrantedIsClosed(t, APP, [p], c.op, NewAccess, c.obs);
    AtomicValid(t, c.op, c.obs);
  }

  lemma RevokeWrites(t: Tables, p: string, j: nat)
    requires APP in t.apps && HasAsked(t, p, j, Pending) && Short(t, j + 1)
    ensures var u := Overlay(t, ChangeWrites(t, APP, Revoking().op));
      && HasAsked(u, p, j, Revoked) && Short(u, j + 1) && u.apps == t.apps && u.tokens == t.tokens
  {
    Unwritten(t);
  }

  lemma RevokeRound(k: Provider, p: string, w: World, j: nat)
    requires Free(w.tables, p) && HasAsked(w.tables, p, j, Pending) && Short(w.tables, j + 1)
    ensures var r := Apply(k, w, Revoking());
      && FreshCall(w, Revoking()) && r.world.secrets == w.secrets
      && Idle(r.world.tables, p, j + 1) && HasAsked(r.world.tables, p, j, Revoked)
  {
    hide Valid, Overlay, ChangeWrites, HasAsked, Short, Atomic, PendingOf, ActiveOf, ApprovedOf, LiveOf;
    var t := w.tables;
    ChangingClosed(t, Revoking().op, UNSEEN);
    ChangeStanding(t, Revoking().op);
    RevokeWrites(t, p, j);
    AtomicValid(t, Revoking().op, UNSEEN);
  }

  lemma PollRound(k: Provider, p: string, w: World, j: nat)
    requires ValidProvider(k) && ValidPath(p) && Free(w.tables, p) && HasAsked(w.tables, p, j, Revoked)
    ensures FreshCall(w, Polling(k, p, j))
    ensures Apply(k, w, Polling(k, p, j)) == Reply(w, Closed(Revoked, Name(j), Name(j)))
  {
    hide ValidPath, Valid, ValidProvider, Gate, Atomic, Seen;
    var t, c := w.tables, Polling(k, p, j);
    PollGate(k, p, t, j, Revoked);
    var passed, b, ps, th := GateOrFail(t, c.op, c.obs);
    if passed { GateUnique(t, c.op, c.obs, APP, [p], Report(Name(j), Revoked), b, ps, th); }
  }

  // ---- the run ----

  function Setup(p: string): seq<Call> {
    [Create("app", "prod", [p], 1, APP, TOKEN), Save(p, VALUES, 10, 1, SomeCoins())]
  }

  /** The first n rounds. */
  ghost function Story(k: Provider, p: string, n: nat): (h: seq<Call>)
    requires ValidProvider(k)
    ensures |h| == 2 + 3 * n
  {
    if n == 0 then Setup(p) else Story(k, p, n - 1) + [Asking(k, p, n - 1)] + [Revoking()] + [Polling(k, p, n - 1)]
  }

  lemma {:induction false} StoryPrefix(k: Provider, p: string, j: nat, n: nat)
    requires ValidProvider(k) && j <= n
    ensures Story(k, p, n)[..2 + 3 * j] == Story(k, p, j)
    decreases n
  {
    if j < n {
      StoryPrefix(k, p, j, n - 1);
      assert Story(k, p, n)[..2 + 3 * (n - 1)] == Story(k, p, n - 1);
      assert Story(k, p, n)[..2 + 3 * j] == Story(k, p, n)[..2 + 3 * (n - 1)][..2 + 3 * j];
    }
  }

  // ---- setting up ----

  lemma Created(k: Provider, p: string)
    requires ValidPath(p)
    ensures var c := Setup(p)[0];
      var r := Apply(k, INITIAL, c);
      FreshCall(INITIAL, c) && r.world.secrets == map[] && Idle(r.world.tables, p, 0)
  {
    hide ValidPath, Valid, PendingOf, ActiveOf;
    var c := Setup(p)[0];
    TokenWellFormed();
    assert ValidApplication("app", "prod", [p]);
    NothingValid();
    CreateValid(EMPTY, c);
    Unwritten(EMPTY);
  }

  lemma NothingValid()
    ensures Valid(EMPTY)
  {
  }

  lemma IdleLogged(t: Tables, p: string, j: nat, e: seq<Event>)
    requires Idle(t, p, j)
    ensures Idle(Overlay(t, Logged(e)), p, j)
  {
    hide Valid, PendingOf, ActiveOf, ApprovedOf, LiveOf, Overlay;
    LoggedStanding(t, e, APP);
    LoggedTables(t, e);
    SameSets(t, Overlay(t, Logged(e)), APP);
  }

  lemma SaveReply(k: Provider, p: string, w: World)
    requires ValidProvider(k) && ValidPath(p) && w.secrets == map[]
    ensures Apply(k, w, Setup(p)[1]).world == World(Log(w.tables, WriteEvents(p, 1, 1)), Stored(k, p))
  {
    hide ValidPath, WriteVersion, ValidProvider, Log, WriteEvents;
    FirstVersion(k, p);
    assert ValidValues(VALUES, 10) by { assert VALUES.Keys == {"name"}; }
    assert w.secrets[p := SecretRow(false, map[1 := Sealed(k, p)])] == Stored(k, p);
  }

  lemma Saved(k: Provider, p: string, w: World)
    requires ValidProvider(k) && ValidPath(p) && w.secrets == map[] && Idle(w.tables, p, 0)
    ensures var c := Setup(p)[1];
      var r := Apply(k, w, c);
      FreshCall(w, c) && r.world.secrets == Stored(k, p) && Idle(r.world.tables, p, 0)
  {
    hide ValidPath, Idle, Apply, ValidProvider, WriteEvents;
    SaveReply(k, p, w);
    IdleLogged(w.tables, p, 0, WriteEvents(p, 1, 1));
  }

  lemma FirstVersion(k: Provider, p: string)
    requires ValidProvider(k)
    ensures WriteVersion(k, map[], p, VALUES, SomeCoins()) == Ok(Written(SecretRow(false, map[1 := Sealed(k, p)]), 1))
  {
    var none: map<nat, Envelope> := map[];
    assert none.Keys == {} && MaxOf(none.Keys) == 0;
    assert none[1 := Sealed(k, p)] == map[1 := Sealed(k, p)];
  }

  /** After n rounds everything is as before the first, but for the identifiers used up. */
  lemma {:induction false} StoryIdle(k: Provider, p: string, n: nat)
    requires ValidProvider(k) && ValidPath(p)
    ensures FreshRun(k, Story(k, p, n)) && Idle(Run(k, Story(k, p, n)).tables, p, n)
    ensures Run(k, Story(k, p, n)).secrets == Stored(k, p)
  {
    hide Idle, FreshRun, FreshCall, Apply, Run, ValidPath, ValidProvider;
    if n == 0 {
      SetupIdle(k, p);
    } else {
      StoryIdle(k, p, n - 1);
      RoundIdle(k, p, Story(k, p, n - 1), n - 1);
    }
  }

  lemma SetupIdle(k: Provider, p: string)
    requires ValidProvider(k) && ValidPath(p)
    ensures FreshRun(k, Setup(p)) && Idle(Run(k, Setup(p)).tables, p, 0) && Run(k, Setup(p)).secrets == Stored(k, p)
  {
    hide Idle, FreshCall, Apply, ValidPath, ValidProvider;
    Created(k, p);
    var w := Apply(k, INITIAL, Setup(p)[0]).world;
    FreshSnoc(k, [], Setup(p)[0]);
    Saved(k, p, w);
    FreshSnoc(k, [] + [Setup(p)[0]], Setup(p)[1]);
    assert [] + [Setup(p)[0]] + [Setup(p)[1]] == Setup(p);
  }

  lemma RoundIdle(k: Provider, p: string, h: seq<Call>, j: nat)
    requires ValidProvider(k) && ValidPath(p)
    requires FreshRun(k, h) && Idle(Run(k, h).tables, p, j) && Run(k, h).secrets == Stored(k, p)
    ensures var asked := h + [Asking(k, p, j)];
      var revoked := asked + [Revoking()];
      var polled := revoked + [Polling(k, p, j)];
      && Apply(k, Run(k, h), Asking(k, p, j)).answer == Waiting(Name(j), Name(j), RETRY_AFTER)
      && Apply(k, Run(k, revoked), Polling(k, p, j)).answer == Closed(Revoked, Name(j), Name(j))
      && FreshRun(k, asked) && FreshRun(k, polled)
      && Idle(Run(k, polled).tables, p, j + 1) && Run(k, polled).secrets == Stored(k, p)
  {
    hide FreshRun, FreshCall, Apply, Run, ValidPath, ValidProvider, HasAsked, Short, Valid, PendingOf, ActiveOf,
      TokenLive;
    var asked := h + [Asking(k, p, j)];
    var revoked := asked + [Revoking()];
    Ask(k, p, Run(k, h), j);
    FreshSnoc(k, h, Asking(k, p, j));
    RevokeRound(k, p, Run(k, asked), j);
    FreshSnoc(k, asked, Revoking());
    PollRound(k, p, Run(k, revoked), j);
    FreshSnoc(k, revoked, Polling(k, p, j));
  }

  // ---- the client's side ----

  function Wish(p: string): Client.Want {
    Client.Want([p], false, Client.MIN_INTERVAL)
  }

  function Waits(j: nat): Client.Exchange {
    Client.Exchange(Wire(Waiting(Name(j), Name(j), RETRY_AFTER)), 0, true)
  }

  function Withdrawn(j: nat): Client.Exchange {
    Client.Exchange(Wire(Closed(Revoked, Name(j), Name(j))), 0, true)
  }

  /** What the client gets from round j on: told to wait, then that the approval is gone. */
  function Replies(j: nat, n: nat): (xs: seq<Client.Exchange>)
    requires j <= n
    ensures |xs| == 1 + 2 * (n - j)
    decreases n - j
  {
    if j == n then [Waits(j)] else [Waits(j), Withdrawn(j)] + Replies(j + 1, n)
  }

  function Sent(j: nat, n: nat, now: nat): (sent: seq<(Client.Request, nat)>)
    requires j <= n
    ensures |sent| == 1 + 2 * (n - j)
    decreases n - j
  {
    if j == n then [(Client.Post, now)]
    else
      var at := now + Client.MIN_INTERVAL;
      [(Client.Post, now), (Client.Fetch(Name(j)), at)] + Sent(j + 1, n, at)
  }

  lemma {:induction false} ClientSends(p: string, deadline: nat, now: nat, j: nat, n: nat)
    requires now <= deadline && j <= n && n - j == (deadline - now) / Client.MIN_INTERVAL
    ensures Client.Waiting(Wish(p), deadline, Replies(j, n), Client.Post, now).requests == Sent(j, n, now)
    decreases n - j
  {
    hide Client.TurnAfter, Client.Waiting;
    var xs := Replies(j, n);
    WaitsTurn(p, deadline, now, j);
    Client.WaitingFrom(Wish(p), deadline, xs, 0, Client.Post, now);
    assert xs[0..] == xs;
    if j < n {
      var at := now + Client.MIN_INTERVAL;
      WithdrawnTurn(p, deadline, at, j);
      Client.WaitingFrom(Wish(p), deadline, xs, 1, Client.Fetch(Name(j)), at);
      assert xs[2..] == Replies(j + 1, n);
      ClientSends(p, deadline, at, j + 1, n);
    }
  }

  lemma WaitsTurn(p: string, deadline: nat, now: nat, j: nat)
    ensures Client.TurnAfter(Wish(p), deadline, Waits(j), now)
         == if now + Client.MIN_INTERVAL <= deadline then Client.Goes(Client.Fetch(Name(j)), now + Client.MIN_INTERVAL)
            else Client.Over(Client.Cancelled)
  {
    assert Client.UsableHandle(Name(j));
  }

  lemma WithdrawnTurn(p: string, deadline: nat, at: nat, j: nat)
    requires at <= deadline
    ensures Client.TurnAfter(Wish(p), deadline, Withdrawn(j), at) == Client.Goes(Client.Post, at)
  {
  }

  /** The call of the run that carries out each request. */
  function CallOf(q: nat): nat {
    2 + 3 * (q / 2) + if q % 2 == 0 then 0 else 2
  }

  lemma {:induction false} Exchanged(j: nat, n: nat, now: nat, q: nat)
    requires j <= n && q < 1 + 2 * (n - j)
    ensures var round := j + q / 2;
      if q % 2 == 0
      then Replies(j, n)[q] == Waits(round) && Sent(j, n, now)[q].0 == Client.Post
      else Replies(j, n)[q] == Withdrawn(round) && Sent(j, n, now)[q].0 == Client.Fetch(Name(round))
    decreases n - j
  {
    if q >= 2 {
      var at := now + Client.MIN_INTERVAL;
      Exchanged(j + 1, n, at, q - 2);
      assert Replies(j, n)[q] == Replies(j + 1, n)[q - 2];
      assert Sent(j, n, now)[q] == Sent(j + 1, n, at)[q - 2];
    }
  }

  /** The run in which the client asks n + 1 times. */
  ghost function Ending(k: Provider, p: string, n: nat): seq<Call>
    requires ValidProvider(k)
  {
    Story(k, p, n) + [Asking(k, p, n)]
  }

  lemma RoundCalls(k: Provider, p: string, n: nat, j: nat)
    requires ValidProvider(k) && ValidPath(p) && j <= n
    ensures var h := Ending(k, p, n);
      && h[2 + 3 * j] == Asking(k, p, j) && AnswerAt(k, h, 2 + 3 * j) == Waiting(Name(j), Name(j), RETRY_AFTER)
      && (j < n ==> h[4 + 3 * j] == Polling(k, p, j) && AnswerAt(k, h, 4 + 3 * j) == Closed(Revoked, Name(j), Name(j)))
  {
    hide Idle, FreshRun, Apply, Run, ValidPath, ValidProvider;
    var h := Ending(k, p, n);
    StoryPrefix(k, p, j, n);
    StoryIdle(k, p, j);
    RoundIdle(k, p, Story(k, p, j), j);
    assert h[..2 + 3 * j] == Story(k, p, n)[..2 + 3 * j];
    if j < n {
      StoryPrefix(k, p, j + 1, n);
      var next := Story(k, p, j + 1);
      assert Story(k, p, n)[..2 + 3 * (j + 1)] == next;
      assert h[2 + 3 * j] == next[2 + 3 * j] && h[4 + 3 * j] == next[4 + 3 * j];
      assert h[..4 + 3 * j] == next[..4 + 3 * j] == Story(k, p, j) + [Asking(k, p, j)] + [Revoking()];
    }
  }

  lemma EndingServes(k: Provider, p: string, n: nat, now: nat)
    requires ValidProvider(k) && ValidPath(p)
    ensures Serves(k, Ending(k, p, n), TOKEN, KEY, [p], Replies(0, n), Sent(0, n, now), seq(1 + 2 * n, q requires 0 <= q => CallOf(q)))
  {
    hide AnswerAt, ValidPath, ValidProvider, Story, Replies, Sent;
    var calls := seq(1 + 2 * n, q requires 0 <= q => CallOf(q));
    forall q | 0 <= q < |calls|
      ensures Answers(k, Ending(k, p, n), TOKEN, KEY, [p], Replies(0, n)[q], Sent(0, n, now)[q].0, calls[q])
    {
      Exchanged(0, n, now, q);
      RoundCalls(k, p, n, q / 2);
    }
  }

  /**
   * For every deadline there is a run of this server, and a client that talks to it, that sends
   * exactly 1 + 2*floor(T/3s) requests.
   */
  lemma BoundIsMetByServer(k: Provider, p: string, deadline: nat)
    requires ValidProvider(k) && ValidPath(p)
    ensures exists h, xs, calls :: var sent := Client.Session(Wish(p), deadline, xs).requests;
      && FreshRun(k, h) && Serves(k, h, TOKEN, KEY, Wish(p).paths, xs, sent, calls)
      && |sent| == 1 + 2 * (deadline / 3_000_000_000)
  {
    hide Serves, FreshRun, Idle, ValidPath, ValidProvider, Apply;
    var n := deadline / Client.MIN_INTERVAL;
    ClientSends(p, deadline, 0, 0, n);
    EndingServes(k, p, n, 0);
    StoryIdle(k, p, n);
    RoundIdle(k, p, Story(k, p, n), n);
    var h, xs, calls := Ending(k, p, n), Replies(0, n), seq(1 + 2 * n, q requires 0 <= q => CallOf(q));
    var sent := Client.Session(Wish(p), deadline, xs).requests;
    assert FreshRun(k, h) && Serves(k, h, TOKEN, KEY, Wish(p).paths, xs, sent, calls);
  }
}
