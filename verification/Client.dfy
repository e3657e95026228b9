/**
 * The Go client's wait for approval: a loop of requests and timed waits under a deadline, run
 * against whatever replies come (pkg/client/client.go). Times are in nanoseconds.
 */
module Client {
  import opened Envelopes

  const SECOND := 1_000_000_000
  const MIN_INTERVAL := 3 * SECOND

  /** A decoded response, or any failure of the request itself. */
  datatype Reply =
    | Response(status: string, requestId: string, retryAfter: int, secrets: map<string, Values>)
    | Broken

  /** One request's fate: what came back, how long it took, and who wins if the deadline and the timer tie. */
  datatype Exchange = Exchange(reply: Reply, elapsed: nat, timerWins: bool)

  datatype Request = Post | Fetch(handle: string)

  datatype End =
    | NoPaths
    | Got(secrets: map<string, Values>)
    | Refused
    | NoBundle
    | MissingSecrets
    | BadHandle
    | UnexpectedStatus
    | RequestFailed
    | Cancelled
    | Unfinished

  /** What the client does next: give up or succeed, ask again at once, or wait and poll. */
  datatype Move = Stop(end: End) | AskAgain | Wait(handle: string, delay: nat)

  datatype Want = Want(paths: seq<string>, configured: bool, interval: nat)

  /** Requests with the times they were sent at, and how it ended. */
  datatype Trace = Trace(requests: seq<(Request, nat)>, end: End)

  /** `New` raises a short polling interval to three seconds. */
  function Interval(configured: int): (interval: nat)
    ensures interval >= 3_000_000_000 && interval >= configured && (interval == 3_000_000_000 || interval == configured)
  {
    if configured < MIN_INTERVAL then MIN_INTERVAL else configured
  }

  function Delay(interval: nat, retryAfter: int): nat {
    if 0 < retryAfter <= 60 && retryAfter * SECOND > interval then retryAfter * SECOND else interval
  }

  predicate UsableHandle(handle: string) {
    handle != "" && '/' !in handle && '?' !in handle && '#' !in handle
  }

  predicate HasAll(paths: seq<string>, secrets: map<string, Values>) {
    forall i | 0 <= i < |paths| :: paths[i] in secrets
  }

  function Next(want: Want, reply: Reply): Move {
    match reply
    case Broken => Stop(RequestFailed)
    case Response(status, handle, retryAfter, secrets) =>
      if status == "approved" then
        if want.configured && secrets == map[] then Stop(NoBundle)
        else if !HasAll(want.paths, secrets) then Stop(MissingSecrets)
        else Stop(Got(secrets))
      else if status == "denied" then Stop(Refused)
      else if status == "waiting_approval" then
        if UsableHandle(handle) then Wait(handle, Delay(want.interval, retryAfter)) else Stop(BadHandle)
      else if status == "revoked" then AskAgain
      else Stop(UnexpectedStatus)
  }

  /** What follows a request sent at `now`: the end, or the next request and its time. */
  datatype Turn = Over(end: End) | Goes(request: Request, at: nat)

  function TurnAfter(want: Want, deadline: nat, x: Exchange, now: nat): Turn {
    var done := now + x.elapsed;
    if done > deadline then Over(Cancelled)
    else
      match Next(want, x.reply)
      case Stop(end) => Over(end)
      case AskAgain => Goes(Post, done)
      case Wait(handle, delay) =>
        if done + delay < deadline || (done + delay == deadline && x.timerWins) then Goes(Fetch(handle), done + delay)
        else Over(Cancelled)
  }

  function Waiting(want: Want, deadline: nat, xs: seq<Exchange>, request: Request, now: nat): Trace {
    if xs == [] then Trace([], Unfinished)
    else
      match TurnAfter(want, deadline, xs[0], now)
      case Over(end) => Trace([(request, now)], end)
      case Goes(next, at) =>
        var rest := Waiting(want, deadline, xs[1..], next, at);
        Trace([(request, now)] + rest.requests, rest.end)
  }

  /** The whole call: without paths and not configured, nothing is sent. */
  function Session(want: Want, deadline: nat, xs: seq<Exchange>): Trace {
    if want.paths == [] && !want.configured then Trace([], NoPaths) else Waiting(want, deadline, xs, Post, 0)
  }

  // ---- the loop ----

  method HasAllSecrets(paths: seq<string>, secrets: map<string, Values>) returns (ok: bool)
    ensures ok == HasAll(paths, secrets)
  {
    for i := 0 to |paths|
      invariant forall j | 0 <= j < i :: paths[j] in secrets
    {
      if paths[i] !in secrets {
        return false;
      }
    }
    ok := true;
  }

  /** What is left to do, one exchange further. */
  lemma WaitingFrom(want: Want, deadline: nat, xs: seq<Exchange>, i: nat, request: Request, now: nat)
    requires i <= |xs|
    ensures Waiting(want, deadline, xs[i..], request, now)
         == if i == |xs| then Trace([], Unfinished)
            else
              match TurnAfter(want, deadline, xs[i], now)
              case Over(end) => Trace([(request, now)], end)
              case Goes(next, at) =>
                var rest := Waiting(want, deadline, xs[i + 1..], next, at);
                Trace([(request, now)] + rest.requests, rest.end)
  {
    if i < |xs| { assert xs[i..][1..] == xs[i + 1..]; }
  }

  /** `waitForSecrets` against the first |xs| exchanges. */
  method WaitForSecrets(want: Want, deadline: nat, xs: seq<Exchange>) returns (sent: seq<(Request, nat)>, end: End)
    ensures Trace(sent, end) == Session(want, deadline, xs)
  {
    hide Waiting;
    if |want.paths| == 0 && !want.configured {
      return [], NoPaths;
    }
    sent, end := [], Unfinished;
    var request, now: nat, i := Post, 0, 0;
    ghost var goal := Waiting(want, deadline, xs, Post, 0);
    assert xs[0..] == xs;
    while i < |xs|
      invariant 0 <= i <= |xs| && end == Unfinished
      invariant goal.requests == sent + Waiting(want, deadline, xs[i..], request, now).requests
      invariant goal.end == Waiting(want, deadline, xs[i..], request, now).end
    {
      var x := xs[i];
      WaitingFrom(want, deadline, xs, i, request, now);
      sent := sent + [(request, now)];
      now := now + x.elapsed;
      if now > deadline {
        return sent, Cancelled;
      }
      if x.reply.Broken? {
        return sent, RequestFailed;
      }
      var out := x.reply;
      if out.status == "approved" {
        if want.configured && out.secrets == map[] {
          return sent, NoBundle;
        }
        var complete := HasAllSecrets(want.paths, out.secrets);
        if !complete {
          return sent, MissingSecrets;
        }
        return sent, Got(out.secrets);
      } else if out.status == "denied" {
        return sent, Refused;
      } else if out.status == "waiting_approval" {
        if !UsableHandle(out.requestId) {
          return sent, BadHandle;
        }
        var delay := want.interval;
        if 0 < out.retryAfter <= 60 && out.retryAfter * SECOND > delay {
          delay := out.retryAfter * SECOND;
        }
        now := now + delay;
        if now > deadline || (now == deadline && !x.timerWins) {
          return sent, Cancelled;
        }
        request := Fetch(out.requestId);
      } else if out.status == "revoked" {
        request := Post;
      } else {
        return sent, UnexpectedStatus;
      }
      i := i + 1;
    }
    WaitingFrom(want, deadline, xs, i, request, now);
  }

  // ---- what follows what, for any replies ----

  /**
   * Each request but the first follows from the reply to the one before: a poll on the handle given
   * there after the wait, or a new request at once after a revocation, never past the deadline.
   */
  lemma {:induction false} RequestFollows(want: Want, deadline: nat, xs: seq<Exchange>, request: Request, now: nat, n: nat)
    requires n + 1 < |Waiting(want, deadline, xs, request, now).requests|
    ensures var sent := Waiting(want, deadline, xs, request, now).requests;
      && sent[0] == (request, now) && n < |xs|
      && var reply, done := xs[n].reply, sent[n].1 + xs[n].elapsed;
         && reply.Response? && sent[n + 1].1 <= deadline
         && if reply.status == "revoked" then sent[n + 1] == (Post, done)
            else
              && reply.status == "waiting_approval"
              && reply.requestId != "" && (forall c | c in reply.requestId :: c !in {'/', '?', '#'})
              && (sent[n + 1].1 < deadline || xs[n].timerWins)
              && sent[n + 1] == (Fetch(reply.requestId),
                   done + if 0 < reply.retryAfter <= 60 && reply.retryAfter * 1_000_000_000 > want.interval
                          then reply.retryAfter * 1_000_000_000 else want.interval)
  {
    var turn := TurnAfter(want, deadline, xs[0], now);
    var rest := Waiting(want, deadline, xs[1..], turn.request, turn.at).requests;
    assert Waiting(want, deadline, xs, request, now).requests == [(request, now)] + rest;
    if n > 0 {
      RequestFollows(want, deadline, xs[1..], turn.request, turn.at, n - 1);
    } else {
      FirstOf(want, deadline, xs[1..], turn.request, turn.at);
    }
  }

  lemma FirstOf(want: Want, deadline: nat, xs: seq<Exchange>, request: Request, now: nat)
    ensures xs != [] ==> Waiting(want, deadline, xs, request, now).requests[..1] == [(request, now)]
    ensures xs == [] ==> Waiting(want, deadline, xs, request, now) == Trace([], Unfinished)
  {
  }

  /** The reply to the last request says how the wait ends. */
  lemma {:induction false} EndFollows(want: Want, deadline: nat, xs: seq<Exchange>, request: Request, now: nat)
    requires xs != []
    ensures var trace := Waiting(want, deadline, xs, request, now);
      && 0 < |trace.requests| <= |xs|
      && var last := |trace.requests| - 1;
         var reply, done := xs[last].reply, trace.requests[last].1 + xs[last].elapsed;
         match trace.end
         case Unfinished => |trace.requests| == |xs|
         case Got(secrets) =>
           && done <= deadline && reply.Response? && reply.status == "approved" && secrets == reply.secrets
           && (forall p | p in want.paths :: p in secrets) && (want.configured ==> secrets != map[])
         case NoBundle => done <= deadline && reply.Response? && reply.status == "approved" && want.configured && reply.secrets == map[]
         case MissingSecrets =>
           done <= deadline && reply.Response? && reply.status == "approved" && exists p | p in want.paths :: p !in reply.secrets
         case Refused => done <= deadline && reply.Response? && reply.status == "denied"
         case BadHandle =>
           && done <= deadline && reply.Response? && reply.status == "waiting_approval"
           && (reply.requestId == "" || exists c | c in reply.requestId :: c in {'/', '?', '#'})
         case UnexpectedStatus =>
           done <= deadline && reply.Response? && reply.status !in {"approved", "denied", "waiting_approval", "revoked"}
         case RequestFailed => done <= deadline && reply == Broken
         case Cancelled =>
           done > deadline
           || (&& reply.Response? && reply.status == "waiting_approval"
               && var delay := if 0 < reply.retryAfter <= 60 && reply.retryAfter * 1_000_000_000 > want.interval
                               then reply.retryAfter * 1_000_000_000 else want.interval;
                  done + delay > deadline || (done + delay == deadline && !xs[last].timerWins))
         case NoPaths => false
  {
    var turn := TurnAfter(want, deadline, xs[0], now);
    if turn.Goes? {
      var rest := Waiting(want, deadline, xs[1..], turn.request, turn.at);
      assert Waiting(want, deadline, xs, request, now).requests == [(request, now)] + rest.requests;
      if xs[1..] != [] {
        EndFollows(want, deadline, xs[1..], turn.request, turn.at);
        assert xs[1..][|rest.requests| - 1] == xs[|rest.requests|];
      }
    }
  }

  // ---- how many requests ----

  /** A stream in which a POST is never answered `revoked`, as this server's streams are. */
  ghost predicate PostsNotRevoked(xs: seq<Exchange>, sent: seq<(Request, nat)>) {
    |sent| <= |xs| && forall n | 0 <= n < |sent| && sent[n].0.Post? :: !(xs[n].reply.Response? && xs[n].reply.status == "revoked")
  }

  function Bound(deadline: nat, now: nat): nat {
    if now > deadline then 0 else 2 * ((deadline - now) / MIN_INTERVAL)
  }

  lemma BoundLater(deadline: nat, now: nat, at: nat)
    requires now + MIN_INTERVAL <= at <= deadline
    ensures Bound(deadline, at) + 2 <= Bound(deadline, now)
  {
    assert (deadline - now) / MIN_INTERVAL >= (deadline - at) / MIN_INTERVAL + 1;
  }

  lemma BoundMonotone(deadline: nat, now: nat, at: nat)
    requires now <= at <= deadline
    ensures Bound(deadline, at) <= Bound(deadline, now)
  {
  }

  lemma {:induction false} AtMost(want: Want, deadline: nat, xs: seq<Exchange>, request: Request, now: nat)
    requires want.interval >= MIN_INTERVAL && now <= deadline
    requires PostsNotRevoked(xs, Waiting(want, deadline, xs, request, now).requests)
    ensures |Waiting(want, deadline, xs, request, now).requests| <= Bound(deadline, now) + if request.Post? then 1 else 2
  {
    if xs != [] {
      var turn := TurnAfter(want, deadline, xs[0], now);
      if turn.Goes? {
        var rest := Waiting(want, deadline, xs[1..], turn.request, turn.at);
        var sent := Waiting(want, deadline, xs, request, now).requests;
        forall n | 0 <= n < |rest.requests| && rest.requests[n].0.Post?
          ensures !(xs[1..][n].reply.Response? && xs[1..][n].reply.status == "revoked")
        {
          assert sent[n + 1] == rest.requests[n];
        }
        AtMost(want, deadline, xs[1..], turn.request, turn.at);
        if turn.request.Post? {
          assert sent[0] == (request, now);
          BoundMonotone(deadline, now, turn.at);
        } else {
          BoundLater(deadline, now, turn.at);
        }
      }
    }
  }

  /** With deadline T the client sends at most 1 + 2*floor(T/3s) requests when no POST is answered `revoked`. */
  lemma RequestsBounded(want: Want, deadline: nat, xs: seq<Exchange>)
    requires want.interval >= 3_000_000_000
    requires PostsNotRevoked(xs, Session(want, deadline, xs).requests)
    ensures |Session(want, deadline, xs).requests| <= 1 + 2 * (deadline / 3_000_000_000)
  {
    if want.paths != [] || want.configured { AtMost(want, deadline, xs, Post, 0); }
  }

  // ---- the bound is met, and it needs its assumption ----

  const HANDLE := "h"

  function WaitReply(): Exchange { Exchange(Response("waiting_approval", HANDLE, 3, map[]), 0, true) }
  function RevokedReply(): Exchange { Exchange(Response("revoked", HANDLE, 0, map[]), 0, true) }

  /** Waiting, revoked, waiting, revoked: every poll finds its approval withdrawn. */
  function Alternating(n: nat): (xs: seq<Exchange>)
    ensures |xs| == 2 * n + 1
  {
    if n == 0 then [WaitReply()] else [WaitReply(), RevokedReply()] + Alternating(n - 1)
  }

  lemma {:induction false} AlternatingSends(want: Want, deadline: nat, now: nat, n: nat)
    requires want.interval == MIN_INTERVAL && now <= deadline && n == (deadline - now) / MIN_INTERVAL
    ensures var sent := Waiting(want, deadline, Alternating(n), Post, now).requests;
      |sent| == 1 + 2 * n && PostsNotRevoked(Alternating(n), sent)
    decreases n
  {
    var xs := Alternating(n);
    if n > 0 {
      var at := now + MIN_INTERVAL;
      assert xs[1..][1..] == Alternating(n - 1);
      AlternatingSends(want, deadline, at, n - 1);
      assert TurnAfter(want, deadline, xs[0], now) == Goes(Fetch(HANDLE), at);
      assert TurnAfter(want, deadline, xs[1..][0], at) == Goes(Post, at);
      var sent := Waiting(want, deadline, xs, Post, now).requests;
      var rest := Waiting(want, deadline, Alternating(n - 1), Post, at).requests;
      assert sent == [(Post, now)] + ([(Fetch(HANDLE), at)] + rest);
      forall m | 0 <= m < |sent| && sent[m].0.Post? ensures !(xs[m].reply.Response? && xs[m].reply.status == "revoked") {
        if m >= 2 { assert sent[m] == rest[m - 2] && xs[m] == Alternating(n - 1)[m - 2]; }
      }
    } else {
      assert TurnAfter(want, deadline, xs[0], now) == Over(Cancelled);
    }
  }

  /** For every deadline some stream without a revoked POST makes the client send exactly that many. */
  lemma BoundIsMet(want: Want, deadline: nat)
    requires want.interval == 3_000_000_000 && (want.paths != [] || want.configured)
    ensures exists xs :: var sent := Session(want, deadline, xs).requests;
      PostsNotRevoked(xs, sent) && |sent| == 1 + 2 * (deadline / 3_000_000_000)
  {
    var n := deadline / MIN_INTERVAL;
    AlternatingSends(want, deadline, 0, n);
    var sent := Session(want, deadline, Alternating(n)).requests;
    assert PostsNotRevoked(Alternating(n), sent);
  }

  /** A server that answers POSTs with `revoked` could make the client send any number at once. */
  lemma {:induction false} RevokedPostsUnbounded(want: Want, deadline: nat, now: nat, n: nat)
    requires now <= deadline
    ensures |Waiting(want, deadline, seq(n, i => RevokedReply()), Post, now).requests| == n
  {
    var xs := seq(n, i => RevokedReply());
    if n > 0 {
      assert xs[1..] == seq(n - 1, i => RevokedReply());
      assert TurnAfter(want, deadline, xs[0], now) == Goes(Post, now);
      RevokedPostsUnbounded(want, deadline, now, n - 1);
    }
  }
}
