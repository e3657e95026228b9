/**
 * The archive tombstone in every interleaving: what is delivered or waited for was live while the
 * call ran, and a call fails for a missing path only if one was missing while it ran (access.go).
 */
module Presence {
  import opened Results
  import opened Envelopes
  import opened Vault
  import opened Database
  import opened Protocol
  import opened Effects
  import opened Invariants
  import opened History
  import opened Runs
  import opened Interleaving
  import opened Serialisability
  import opened Handles
  import opened Delivery
  import Answers
  import opened Text
  import opened Paths

  // ---- observations, on the plain store ----

  /** A probe tells whether the path was live in the plain store at some moment of the call. */
  lemma ProbedPlain(k: Provider, h: seq<Call>, obs: Obs, lo: nat, hi: nat, p: string)
    requires ValidProvider(k) && FreshRun(k, h) && Observed(k, h, obs, lo, hi) && p in obs.present
    ensures exists j: nat | lo <= j <= hi && j <= |h| ::
              obs.present[p] <==> p in PlainRun(h[..j]) && !PlainRun(h[..j])[p].archived
  {
    hide FreshRun, Represents, Run, PlainRun, ReadVersion;
    var s :| CommittedDuring(k, h, s, lo, hi) && Probe(p, obs.present[p], s);
    var j: nat :| lo <= j <= hi && j <= |h| && WorldAt(k, h, j).secrets == s;
    FreshPrefix(k, h, j);
    RunRefines(k, h[..j]);
    RepresentsKeys(k, s, PlainRun(h[..j]), p);
  }

  lemma ListedPlain(k: Provider, h: seq<Call>, obs: Obs, lo: nat, hi: nat)
    requires ValidProvider(k) && FreshRun(k, h) && Observed(k, h, obs, lo, hi) && obs.listed.Some?
    ensures exists j: nat | lo <= j <= hi && j <= |h| ::
              obs.listed.value == set p | p in PlainRun(h[..j]) && !PlainRun(h[..j])[p].archived
  {
    hide FreshRun, Represents, Run, PlainRun, ReadVersion, LivePaths;
    var s :| CommittedDuring(k, h, s, lo, hi) && ListedIn(obs.listed.value, s);
    var j: nat :| lo <= j <= hi && j <= |h| && WorldAt(k, h, j).secrets == s;
    FreshPrefix(k, h, j);
    RunRefines(k, h[..j]);
    Answers.LiveNow(k, s, PlainRun(h[..j]));
  }

  // ---- what is answered was live ----

  /** The paths of an answer that is no failure: those delivered, or those of the handle it names. */
  ghost function PathsOf(u: Tables, answer: Answer): set<string> {
    if answer.Delivered? then answer.secrets.Keys
    else if (answer.Waiting? || answer.Closed?) && answer.handle in u.instances then Elements(u.instances[answer.handle].paths)
    else {}
  }

  lemma AnswersGatedPaths(k: Provider, moves: seq<Move>, i: nat)
    returns (a: AppId, paths: seq<string>, then_: Then)
    requires ValidProvider(k) && Legal(k, moves) && i < |After(k, moves).log|
    requires var x := After(k, moves).log[i];
      x.call.Lock? && (x.call.op.AccessOp? || x.call.op.PollOp?) && !x.answer.Failed?
    ensures var m := After(k, moves);
      var h := Calls(m.log);
      && FreshRun(k, h) && Gate(WorldAt(k, h, i).tables, h[i].op, h[i].obs, a, paths, then_)
      && PathsOf(WorldAt(k, h, i + 1).tables, m.log[i].answer) == Elements(paths)
  {
    hide Legal, After, Valid, Gate, Atomic, WorldAt, Observed, RanInOrder, FreshRun, Deferred, ActiveOf, AnswerAt, WaitsAt;
    var m := After(k, moves);
    var h := Calls(m.log);
    Serialisable(k, moves);
    AnswerOf(k, h, i);
    var t, op, obs := WorldAt(k, h, i).tables, h[i].op, h[i].obs;
    var passed: bool;
    passed, a, paths, then_ := GateOrFail(t, op, obs);
    DeliversUnderLoad(k, moves, i, a, paths, then_);
    GateParts(t, op, obs, a, paths, then_);
    DeferredNothing(op, then_, m.log[i].answer);
    if !m.log[i].answer.Delivered? {
      DeferredHandle(op, then_, m.log[i].answer);
      if op.AccessOp? {
        var b, ps := WaitingLeaves(k, h, i);
        GatedAlike(k, h, i, a, paths, then_, b, ps);
      } else {
        PolledInstance(t, op, obs, a, paths, then_);
        InstanceStays(k, h, i, i + 1, op.handle);
      }
    }
  }

  lemma DeferredHandle(op: Op, then_: Then, answer: Answer)
    requires Fits(op, then_) && Deferred(op, then_, answer) && !answer.Failed?
    ensures op.AccessOp? ==> answer.Waiting?
    ensures op.PollOp? ==> (answer.Waiting? || answer.Closed?) && answer.handle == op.handle
  {
  }

  lemma GatedAlike(k: Provider, h: seq<Call>, i: nat, a: AppId, paths: seq<string>, then_: Then, b: AppId, ps: seq<string>)
    requires i < |h| && h[i].Lock? && Gate(WorldAt(k, h, i).tables, h[i].op, h[i].obs, a, paths, then_)
    requires WaitsAt(k, h, i, b, ps)
    ensures ps == paths
  {
    hide Gate, WorldAt, AnswerAt;
    GateUnique(WorldAt(k, h, i).tables, h[i].op, h[i].obs, a, paths, then_, b, ps, NewAccess);
  }

  lemma PolledInstance(t: Tables, op: Op, obs: Obs, a: AppId, paths: seq<string>, then_: Then)
    requires Gate(t, op, obs, a, paths, then_) && op.PollOp?
    ensures op.handle in t.instances && t.instances[op.handle].paths == paths
  {
  }

  /**
   * Whatever runs beside it, an access or poll that is served, waits or learns its fate is about
   * paths each of which was stored and not archived at some moment of the call.
   */
  lemma AnsweredPathsWereLive(k: Provider, moves: seq<Move>, i: nat, p: string)
    requires ValidProvider(k) && Legal(k, moves) && i < |After(k, moves).log|
    requires var m := After(k, moves);
      var answer := m.log[i].answer;
      var u := WorldAt(k, Calls(m.log), i + 1).tables;
      && m.log[i].call.Lock? && (m.log[i].call.op.AccessOp? || m.log[i].call.op.PollOp?)
      && ((answer.Delivered? && p in answer.secrets)
          || ((answer.Waiting? || answer.Closed?) && answer.handle in u.instances && p in u.instances[answer.handle].paths))
    ensures var m := After(k, moves);
      var h := Calls(m.log);
      exists j: nat | m.log[i].since <= j <= i :: p in PlainRun(h[..j]) && !PlainRun(h[..j])[p].archived
  {
    hide Legal, After, Gate, WorldAt, Observed, RanInOrder, FreshRun, PlainRun, AnswerAt;
    var m := After(k, moves);
    var h := Calls(m.log);
    Serialisable(k, moves);
    var a, paths, then_ := AnswersGatedPaths(k, moves, i);
    assert p in Elements(paths);
    GateParts(WorldAt(k, h, i).tables, h[i].op, h[i].obs, a, paths, then_);
    assert Present(h[i].obs, p) by { PresentOf(h[i].obs, paths, p); }
    ProbedPlain(k, h, h[i].obs, m.log[i].since, i, p);
  }

  lemma PresentOf(obs: Obs, paths: seq<string>, p: string)
    requires AllPresent(obs, paths, 0) && p in paths
    ensures Present(obs, p)
  {
    var n :| 0 <= n < |paths| && paths[n] == p;
    assert Present(obs, paths[n]);
  }

  // ---- missing, and live, for the whole call ----

  /** An authenticated request for these paths, all inside its boundary: an access that names them, or a poll on their handle. */
  ghost predicate Within(t: Tables, op: Op, a: AppId, paths: seq<string>) {
    && (op.AccessOp? || op.PollOp?)
    && "lg_app_" <= op.token && |op.token| <= 128
    && Sha256(op.token) in t.tokens && t.tokens[Sha256(op.token)] == Token(a, true) && a in t.apps && t.apps[a].enabled
    && (op.AccessOp? ==> op.paths == paths != [] && |paths| <= 100 && |op.instance| <= 128 && forall p | p in paths :: ValidPath(p))
    && (op.PollOp? ==>
          && op.handle in t.instances && t.instances[op.handle].paths == paths
          && t.instances[op.handle].request in t.requests && t.requests[t.instances[op.handle].request].app == a)
    && forall p | p in paths :: Allowed(t.apps[a].allowed, p)
  }

  function ThenOf(t: Tables, op: Op): Then
    requires op.PollOp? ==> op.handle in t.instances && t.instances[op.handle].request in t.requests
  {
    if op.PollOp? then Report(t.instances[op.handle].request, t.requests[t.instances[op.handle].request].status) else NewAccess
  }

  /** Such a request comes to the checks of exactly these paths. */
  lemma ComesToChecks(t: Tables, op: Op, obs: Obs, a: AppId, paths: seq<string>) returns (sorted: seq<string>)
    requires Within(t, op, a, paths)
    ensures Prepare(op).Ok? && sorted == if op.AccessOp? then Prepare(op).value else paths
    ensures Elements(sorted) == Elements(paths) && Fits(op, ThenOf(t, op))
    ensures Atomic(t, op, obs)
         == if AllPresent(obs, sorted, 0) then AfterGate(t, op, obs, a, sorted, ThenOf(t, op)) else Outcome(t, Failed(NotFound))
    ensures AllPresent(obs, sorted, 0) ==> Gate(t, op, obs, a, sorted, ThenOf(t, op))
  {
    hide ValidPath, Normalize, Allowed, Granted, AllPresent;
    if op.AccessOp? {
      Answers.WellFormedRequest(op);
      sorted := Prepare(op).value;
    } else {
      sorted := paths;
    }
    Answers.Authentic(t, op, obs, a);
    forall i | 0 <= i < |sorted| ensures Allowed(t.apps[a].allowed, sorted[i]) {
      assert sorted[i] in Elements(sorted);
    }
  }

  /** A path that is missing or archived for the whole call makes it fail with NotFound. */
  lemma MissingThroughout(k: Provider, moves: seq<Move>, i: nat, a: AppId, paths: seq<string>, p: string)
    requires ValidProvider(k) && Legal(k, moves) && i < |After(k, moves).log|
    requires var m := After(k, moves);
      var h := Calls(m.log);
      && h[i].Lock? && Within(WorldAt(k, h, i).tables, h[i].op, a, paths) && p in paths
      && forall j: nat | m.log[i].since <= j <= i :: p !in PlainRun(h[..j]) || PlainRun(h[..j])[p].archived
    ensures After(k, moves).log[i].answer == Failed(NotFound)
  {
    hide Legal, After, Within, WorldAt, Atomic, Observed, RanInOrder, FreshRun, PlainRun, AnswerAt, AllPresent;
    var m := After(k, moves);
    var h := Calls(m.log);
    Serialisable(k, moves);
    AnswerOf(k, h, i);
    var obs := h[i].obs;
    var sorted := ComesToChecks(WorldAt(k, h, i).tables, h[i].op, obs, a, paths);
    if AllPresent(obs, sorted, 0) {
      assert p in Elements(sorted);
      PresentOf(obs, sorted, p);
      ProbedPlain(k, h, obs, m.log[i].since, i, p);
    }
  }

  /** The same observations, with every probe not made taken to succeed, and every read. */
  function Filled(obs: Obs, paths: seq<string>): Obs {
    obs.(present := (map p | p in paths :: true) + obs.present, plain := (map p | p in paths :: Ok(map[])) + obs.plain)
  }

  lemma FilledExtends(obs: Obs, paths: seq<string>)
    requires AllRead(obs) && forall p | p in paths && p in obs.present :: obs.present[p]
    ensures Sequential.Extends(Filled(obs, paths), obs)
    ensures AllPresent(Filled(obs, paths), paths, 0) && AllReadable(Filled(obs, paths), paths)
  {
  }

  /**
   * If all its paths are live for the whole call, it is served with exactly them under an active
   * grant (for a poll: of an approved request); and otherwise an access waits or conflicts with its
   * key, and a poll learns its fate. Nothing that happens to other paths makes it fail.
   */
  lemma LiveThroughout(k: Provider, moves: seq<Move>, i: nat, a: AppId, paths: seq<string>)
    requires ValidProvider(k) && Legal(k, moves) && i < |After(k, moves).log|
    requires var m := After(k, moves);
      var h := Calls(m.log);
      && h[i].Lock? && Within(WorldAt(k, h, i).tables, h[i].op, a, paths)
      && forall p, j: nat | p in paths && m.log[i].since <= j <= i :: p in PlainRun(h[..j]) && !PlainRun(h[..j])[p].archived
    ensures var m := After(k, moves);
      var t := WorldAt(k, Calls(m.log), i).tables;
      var op, answer := m.log[i].call.op, m.log[i].answer;
      var r := if op.PollOp? then t.instances[op.handle].request else "";
      var granted := exists g | g in t.grants :: t.grants[g].app == a && t.grants[g].status == Active;
      if op.AccessOp? then
        if granted then answer.Delivered? && answer.secrets.Keys == Elements(paths)
        else (answer.Waiting? && answer.retryAfter == 3) || answer == Failed(Conflict)
      else
        match t.requests[r].status
        case Pending => answer == Waiting(op.handle, r, 3)
        case Approved =>
          if granted then answer.Delivered? && answer.secrets.Keys == Elements(paths) else answer == Closed(Revoked, op.handle, r)
        case status => answer == Closed(status, op.handle, r)
  {
    hide Legal, After, Valid, Fresh, WorldAt, Atomic, Observed, FreshRun, PlainRun, AnswerAt, AllPresent, AllReadable,
      AllDuring, Ran, Gate, Bundle, Filled, AllRead, Allowed, ValidPath;
    var m := After(k, moves);
    var h := Calls(m.log);
    Serialisable(k, moves);
    AlwaysReads(k, moves);
    ValidAt(k, h, i);
    FreshOf(k, h, i);
    var t, op, obs := WorldAt(k, h, i).tables, h[i].op, h[i].obs;
    var sorted := ComesToChecks(t, op, obs, a, paths);
    forall p | p in sorted && p in obs.present ensures obs.present[p] {
      assert p in Elements(paths);
      ProbedPlain(k, h, obs, m.log[i].since, i, p);
    }
    var later := Filled(obs, sorted);
    FilledExtends(obs, sorted);
    var again := ComesToChecks(t, op, later, a, paths);
    var trace :| Ran(k, h, m.log[i], trace, i) && AllDuring(k, h, trace, m.log[i].since, i);
    AnswerIgnoresReads(k, h, m.log[i], trace, i, later);
    Answers.GrantedRow(t, a);
    BundleKeys(later, sorted);
    if ActiveOf(t, a) != {} && (op.AccessOp? || ThenOf(t, op).status == Approved) {
      GatedDelivers(t, op, later, a, sorted, ThenOf(t, op));
    } else {
      GatedDefers(t, op, later, a, sorted, ThenOf(t, op));
    }
  }

  // ---- without named paths ----

  /** An authenticated access that names no paths and so means the live ones of its boundary. */
  ghost predicate Configures(t: Tables, op: Op, a: AppId) {
    && op.AccessOp? && op.paths == [] && |op.instance| <= 128
    && "lg_app_" <= op.token && |op.token| <= 128
    && Sha256(op.token) in t.tokens && t.tokens[Sha256(op.token)] == Token(a, true) && a in t.apps && t.apps[a].enabled
  }

  ghost function Listed(t: Tables, a: AppId, obs: Obs): seq<string>
    requires a in t.apps
  {
    Assigned(t.apps[a].allowed, Ordered(if obs.listed.Some? then obs.listed.value else {}))
  }

  lemma ListedElements(t: Tables, a: AppId, obs: Obs)
    requires a in t.apps
    ensures forall p :: p in Listed(t, a, obs) <==> obs.listed.Some? && p in obs.listed.value && Allowed(t.apps[a].allowed, p)
  {
    hide Allowed, Ordered, Assigned;
    var listed := Ordered(if obs.listed.Some? then obs.listed.value else {});
    AssignedSorted(t.apps[a].allowed, listed);
    forall p ensures p in listed <==> p in Elements(listed) {
    }
  }

  lemma ListingComes(t: Tables, op: Op, obs: Obs, a: AppId)
    requires Configures(t, op, a)
    ensures var sorted := Listed(t, a, obs);
      && (Atomic(t, op, obs) == if sorted != [] && AllPresent(obs, sorted, 0) then AfterGate(t, op, obs, a, sorted, NewAccess)
                                else Outcome(t, Failed(NotFound)))
      && (sorted != [] && AllPresent(obs, sorted, 0) ==> Gate(t, op, obs, a, sorted, NewAccess))
  {
    hide Normalize, Allowed, Granted, AllPresent, Ordered, Assigned;
    ListedElements(t, a, obs);
    Answers.Authentic(t, op, obs, a);
    var sorted := Listed(t, a, obs);
    forall i | 0 <= i < |sorted| ensures Allowed(t.apps[a].allowed, sorted[i]) {
      assert sorted[i] in sorted;
    }
  }

  /** What it is answered holds every path of the boundary that was live for the whole call. */
  lemma ConfiguredComplete(k: Provider, moves: seq<Move>, i: nat, a: AppId, p: string)
    requires ValidProvider(k) && Legal(k, moves) && i < |After(k, moves).log|
    requires var m := After(k, moves);
      var h := Calls(m.log);
      && h[i].Lock? && Configures(WorldAt(k, h, i).tables, h[i].op, a) && Allowed(WorldAt(k, h, i).tables.apps[a].allowed, p)
      && forall j: nat | m.log[i].since <= j <= i :: p in PlainRun(h[..j]) && !PlainRun(h[..j])[p].archived
    ensures var m := After(k, moves);
      var answer, u := m.log[i].answer, WorldAt(k, Calls(m.log), i + 1).tables;
      && (answer.Delivered? ==> p in answer.secrets)
      && (answer.Waiting? ==> answer.handle in u.instances && p in u.instances[answer.handle].paths)
  {
    hide Legal, After, WorldAt, Observed, RanInOrder, FreshRun, PlainRun, AnswerAt, Gate, Allowed, Atomic, Listed, AfterGate,
      AllPresent;
    var m := After(k, moves);
    var h := Calls(m.log);
    Serialisable(k, moves);
    var t, op, obs := WorldAt(k, h, i).tables, h[i].op, h[i].obs;
    if m.log[i].answer.Delivered? || m.log[i].answer.Waiting? {
      var b, paths, then_ := AnswersGatedPaths(k, moves, i);
      ListingComes(t, op, obs, a);
      AnswerOf(k, h, i);
      GateUnique(t, op, obs, a, Listed(t, a, obs), NewAccess, b, paths, then_);
      ListedElements(t, a, obs);
      assert paths != [] && paths[0] in paths;
      ListedPlain(k, h, obs, m.log[i].since, i);
      assert p in Elements(paths);
    }
  }

  /** While the set of live paths stays the same, that is what is observed. */
  lemma SteadyObs(k: Provider, h: seq<Call>, obs: Obs, lo: nat, hi: nat, live: set<string>)
    requires ValidProvider(k) && FreshRun(k, h) && Observed(k, h, obs, lo, hi) && hi <= |h|
    requires forall j: nat | lo <= j <= hi :: live == set p | p in PlainRun(h[..j]) && !PlainRun(h[..j])[p].archived
    ensures obs.listed.Some? ==> obs.listed.value == live
    ensures forall p | p in obs.present :: obs.present[p] <==> p in live
  {
    hide FreshRun, PlainRun, Observed;
    if obs.listed.Some? { ListedPlain(k, h, obs, lo, hi); }
    forall p | p in obs.present ensures obs.present[p] <==> p in live {
      ProbedPlain(k, h, obs, lo, hi, p);
    }
  }

  /** What the call is answered, had it observed all the live paths. */
  lemma SteadyAnswer(t: Tables, op: Op, obs: Obs, a: AppId, live: set<string>) returns (later: Obs)
    requires Valid(t) && Fresh(t, op) && Configures(t, op, a) && AllRead(obs)
    requires obs.listed.Some? ==> obs.listed.value == live
    requires forall p | p in obs.present :: obs.present[p] <==> p in live
    ensures Sequential.Extends(later, obs)
    ensures var wanted := set p | p in live && Allowed(t.apps[a].allowed, p);
      var answer := Atomic(t, op, later).answer;
      if wanted == {} then answer == Failed(NotFound)
      else if exists g | g in t.grants :: t.grants[g].app == a && t.grants[g].status == Active
      then answer.Delivered? && answer.secrets.Keys == wanted
      else (answer.Waiting? && answer.retryAfter == 3) || answer == Failed(Conflict)
  {
    hide Valid, Fresh, Atomic, AllPresent, AllReadable, Gate, Bundle, Filled, AllRead, Allowed, Listed;
    var listed := obs.(listed := Some(live));
    var sorted := Listed(t, a, listed);
    ListedElements(t, a, listed);
    later := Filled(listed, sorted);
    FilledListing(obs, live, sorted);
    SameListing(t, a, later, listed);
    ListingComes(t, op, later, a);
    var wanted := set p | p in live && Allowed(t.apps[a].allowed, p);
    assert Elements(sorted) == wanted;
    if sorted == [] {
      assert Elements(sorted) == {};
    } else {
      assert sorted[0] in Elements(sorted);
      Answers.GrantedRow(t, a);
      BundleKeys(later, sorted);
      if ActiveOf(t, a) != {} {
        GatedDelivers(t, op, later, a, sorted, NewAccess);
      } else {
        GatedDefers(t, op, later, a, sorted, NewAccess);
      }
    }
  }

  /**
   * If the set of live paths is the same for the whole call, it is served with exactly the live
   * paths of its boundary, or waits for them, or conflicts with its key; NotFound means there are none.
   */
  lemma ConfiguredThroughout(k: Provider, moves: seq<Move>, i: nat, a: AppId, live: set<string>)
    requires ValidProvider(k) && Legal(k, moves) && i < |After(k, moves).log|
    requires var m := After(k, moves);
      var h := Calls(m.log);
      && h[i].Lock? && Configures(WorldAt(k, h, i).tables, h[i].op, a)
      && forall j: nat | m.log[i].since <= j <= i :: live == set p | p in PlainRun(h[..j]) && !PlainRun(h[..j])[p].archived
    ensures var m := After(k, moves);
      var t, answer := WorldAt(k, Calls(m.log), i).tables, m.log[i].answer;
      var wanted := set p | p in live && Allowed(t.apps[a].allowed, p);
      if wanted == {} then answer == Failed(NotFound)
      else if exists g | g in t.grants :: t.grants[g].app == a && t.grants[g].status == Active
      then answer.Delivered? && answer.secrets.Keys == wanted
      else (answer.Waiting? && answer.retryAfter == 3) || answer == Failed(Conflict)
  {
    hide Legal, After, Valid, Fresh, WorldAt, Atomic, Observed, FreshRun, PlainRun, AnswerAt, AllDuring, Ran, AllRead,
      Allowed, Configures;
    var m := After(k, moves);
    var h := Calls(m.log);
    Serialisable(k, moves);
    AlwaysReads(k, moves);
    ValidAt(k, h, i);
    FreshOf(k, h, i);
    SteadyObs(k, h, h[i].obs, m.log[i].since, i, live);
    var later := SteadyAnswer(WorldAt(k, h, i).tables, h[i].op, h[i].obs, a, live);
    var trace :| Ran(k, h, m.log[i], trace, i) && AllDuring(k, h, trace, m.log[i].since, i);
    AnswerIgnoresReads(k, h, m.log[i], trace, i, later);
  }

  lemma SameListing(t: Tables, a: AppId, x: Obs, y: Obs)
    requires a in t.apps && x.listed == y.listed
    ensures Listed(t, a, x) == Listed(t, a, y)
  {
  }

  lemma FilledListing(obs: Obs, live: set<string>, sorted: seq<string>)
    requires AllRead(obs) && (obs.listed.Some? ==> obs.listed.value == live)
    requires forall p | p in sorted && p in obs.present :: obs.present[p]
    ensures var later := Filled(obs.(listed := Some(live)), sorted);
      && later.listed == Some(live) && Sequential.Extends(later, obs)
      && AllPresent(later, sorted, 0) && AllReadable(later, sorted)
  {
    FilledExtends(obs.(listed := Some(live)), sorted);
  }
}
