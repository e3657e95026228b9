/**
 * Whole runs: the calls of the protocol together with application creation and the secret
 * operations, each applied atomically, one after the other (store.go, secrets.go).
 */
module History {
  import opened Results
  import opened Envelopes
  import opened Vault
  import opened Database
  import opened Protocol
  import opened Paths

  datatype Call =
    | Lock(op: Op, obs: Obs)
    | Create(name: string, environment: string, patterns: seq<string>, admin: int, app: AppId, token: string)
    | Save(path: string, values: Values, jsonSize: nat, admin: int, coins: Coins)
    | Restore(path: string, version: int, admin: int, coins: Coins)
    | Archive(path: string, admin: int)
    | View(path: string, admin: int)

  datatype World = World(tables: Tables, secrets: Secrets)
  datatype Reply = Reply(world: World, answer: Answer)

  const INITIAL := World(EMPTY, map[])

  function Refuse(w: World, e: Error): Reply {
    Reply(w, Failed(e))
  }

  function NameTaken(t: Tables, name: string, environment: string): bool {
    exists a | a in t.apps :: t.apps[a].name == name && t.apps[a].environment == environment
  }

  function Registration(c: Call): Tables
    requires c.Create?
  {
    Tables(map[c.app := Application(c.name, c.environment, true, c.patterns)],
           map[Sha256(c.token) := Token(c.app, true)], map[], map[], map[],
           [Event(AppCreated, ByAdmin(c.admin), Some(c.app), "")])
  }

  function Creating(w: World, c: Call): Reply
    requires c.Create?
  {
    if !ValidApplication(c.name, c.environment, c.patterns) then Refuse(w, Invalid)
    else if NameTaken(w.tables, c.name, c.environment) then Refuse(w, Internal)
    else Reply(World(Overlay(w.tables, Registration(c)), w.secrets), Created(c.app, c.token))
  }

  function WriteEvents(path: string, version: nat, admin: int): seq<Event> {
    [Event(if version == 1 then SecretCreated else SecretUpdated, ByAdmin(admin), None, path)]
  }

  function Log(t: Tables, events: seq<Event>): Tables {
    Overlay(t, Logged(events))
  }

  ghost function Saving(k: Provider, w: World, c: Call): Reply
    requires c.Save?
  {
    if !ValidPath(c.path) || !ValidValues(c.values, c.jsonSize) then Refuse(w, Invalid)
    else
      var written := WriteVersion(k, w.secrets, c.path, c.values, c.coins);
      if written.Err? then Refuse(w, written.error)
      else
        var v := written.value.version;
        Reply(World(Log(w.tables, WriteEvents(c.path, v, c.admin)), w.secrets[c.path := written.value.row]), Saved(v))
  }

  ghost function Restoring(k: Provider, w: World, c: Call): Reply
    requires c.Restore?
  {
    if c.version < 1 then Refuse(w, Invalid)
    else if c.path !in w.secrets then Refuse(w, NotFound)
    else
      var old_ := ReadVersion(k, w.secrets, c.path, c.version);
      if old_.Err? then Refuse(w, old_.error)
      else
        var written := WriteVersion(k, w.secrets, c.path, old_.value, c.coins);
        if written.Err? then Refuse(w, written.error)
        else
          var events := WriteEvents(c.path, written.value.version, c.admin)
            + [Event(SecretRestored, ByAdmin(c.admin), None, c.path)];
          Reply(World(Log(w.tables, events), w.secrets[c.path := written.value.row]), Answer.Restored)
  }

  function Archiving(w: World, c: Call): Reply
    requires c.Archive?
  {
    if !LivePath(w.secrets, c.path) then Refuse(w, NotFound)
    else
      Reply(World(Log(w.tables, [Event(SecretArchived, ByAdmin(c.admin), None, c.path)]),
                  w.secrets[c.path := w.secrets[c.path].(archived := true)]), Archived)
  }

  ghost function Viewing(k: Provider, w: World, c: Call): Reply
    requires c.View?
  {
    var v := ReadVersion(k, w.secrets, c.path, 0);
    if v.Err? then Refuse(w, v.error)
    else Reply(World(Log(w.tables, [Event(SecretRead, ByAdmin(c.admin), None, c.path)]), w.secrets), Shown(v.value))
  }

  ghost function Apply(k: Provider, w: World, c: Call): Reply {
    match c
    case Lock(op, obs) => var o := Atomic(w.tables, op, obs); Reply(World(o.tables, w.secrets), o.answer)
    case Create(_, _, _, _, _, _) => Creating(w, c)
    case Save(_, _, _, _, _) => Saving(k, w, c)
    case Restore(_, _, _, _) => Restoring(k, w, c)
    case Archive(_, _) => Archiving(w, c)
    case View(_, _) => Viewing(k, w, c)
  }

  /** The world after the first calls of a run, from an empty database. */
  ghost function Run(k: Provider, h: seq<Call>): World {
    if h == [] then INITIAL else Apply(k, Run(k, h[..|h| - 1]), h[|h| - 1]).world
  }

  ghost function WorldAt(k: Provider, h: seq<Call>, i: nat): World
    requires i <= |h|
  {
    Run(k, h[..i])
  }

  ghost function AnswerAt(k: Provider, h: seq<Call>, i: nat): Answer
    requires i < |h|
  {
    Apply(k, WorldAt(k, h, i), h[i]).answer
  }

  lemma NextWorld(k: Provider, h: seq<Call>, i: nat)
    requires i < |h|
    ensures WorldAt(k, h, i + 1) == Apply(k, WorldAt(k, h, i), h[i]).world
  {
    assert h[..i + 1][..i] == h[..i];
  }

  /** The identifiers a call draws at random are not in use. */
  ghost predicate FreshCall(w: World, c: Call) {
    match c
    case Lock(op, _) => Fresh(w.tables, op)
    case Create(_, _, _, _, app, token) => app !in w.tables.apps && WellFormedToken(token) && Sha256(token) !in w.tables.tokens
    case Save(_, _, _, _, coins) => ValidCoins(coins)
    case Restore(_, _, _, coins) => ValidCoins(coins)
    case _ => true
  }

  ghost predicate FreshRun(k: Provider, h: seq<Call>) {
    forall i | 0 <= i < |h| :: FreshCall(WorldAt(k, h, i), h[i])
  }

  lemma FreshPrefix(k: Provider, h: seq<Call>, n: nat)
    requires n <= |h| && FreshRun(k, h)
    ensures FreshRun(k, h[..n])
  {
    forall i | 0 <= i < n ensures FreshCall(WorldAt(k, h[..n], i), h[..n][i]) {
      assert h[..n][..i] == h[..i];
    }
  }

  lemma FreshOf(k: Provider, h: seq<Call>, i: nat)
    requires FreshRun(k, h) && i < |h| && h[i].Lock?
    ensures Fresh(WorldAt(k, h, i).tables, h[i].op)
  {
    hide Fresh, WorldAt;
    assert FreshCall(WorldAt(k, h, i), h[i]);
  }

  lemma FreshSnoc(k: Provider, g: seq<Call>, c: Call)
    requires FreshRun(k, g) && FreshCall(Run(k, g), c)
    ensures FreshRun(k, g + [c]) && Run(k, g + [c]) == Apply(k, Run(k, g), c).world
  {
    hide FreshCall, Apply;
    var longer := g + [c];
    assert longer[..|g|] == g;
    forall i | 0 <= i < |longer| ensures FreshCall(WorldAt(k, longer, i), longer[i]) {
      if i < |g| {
        assert longer[..i] == g[..i];
        assert FreshCall(WorldAt(k, g, i), g[i]);
      }
    }
  }
}
