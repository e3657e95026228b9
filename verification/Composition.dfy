/** The client talking to this server: what the loop can meet, and how often it asks. */
module Composition {
  import opened Envelopes
  import opened Database
  import opened Protocol
  import opened Effects
  import opened Invariants
  import opened History
  import opened Runs
  import opened Deeds
  import opened Handles
  import opened Delivery
  import opened Text
  import opened Paths
  import Client

  function StatusText(status: Status): string {
    match status
    case Pending => "pending"
    case Approved => "approved"
    case Denied => "denied"
    case Revoked => "revoked"
  }

  /** The response body of an answer; every error becomes a rejected request. */
  function Wire(answer: Answer): Client.Reply {
    match answer
    case Waiting(handle, _, retryAfter) => Client.Response("waiting_approval", handle, retryAfter, map[])
    case Delivered(secrets) => Client.Response("approved", "", 0, secrets)
    case Closed(status, handle, _) => Client.Response(StatusText(status), handle, 0, map[])
    case _ => Client.Broken
  }

  /** A call of the run that carries out this request of the client. */
  ghost predicate Carries(c: Call, request: Client.Request, token: string, paths: seq<string>, key: string) {
    c.Lock? && match request
               case Post => c.op.AccessOp? && c.op.token == token && c.op.paths == paths && c.op.instance == key
               case Fetch(handle) => c.op.PollOp? && c.op.token == token && c.op.handle == handle
  }

  /** The replies come from calls of the run, in order, or the request was lost. */
  ghost predicate Serves(k: Provider, h: seq<Call>, token: string, key: string, paths: seq<string>,
                         xs: seq<Client.Exchange>, sent: seq<(Client.Request, nat)>, calls: seq<nat>)
  {
    && |calls| == |sent| <= |xs|
    && (forall n, m | 0 <= n < m < |calls| :: calls[n] < calls[m])
    && (forall n | 0 <= n < |calls| :: calls[n] < |h| && Answers(k, h, token, key, paths, xs[n], sent[n].0, calls[n]))
  }

  ghost predicate Answers(k: Provider, h: seq<Call>, token: string, key: string, paths: seq<string>,
                          x: Client.Exchange, request: Client.Request, call: nat)
    requires call < |h|
  {
    && Carries(h[call], request, token, paths, key)
    && (x.reply == Client.Broken || x.reply == Wire(AnswerAt(k, h, call)))
  }

  // ---- the bound ----

  /** Against this server the client sends at most 1 + 2*floor(T/3s) requests before its deadline T. */
  lemma RequestsAgainstServer(k: Provider, h: seq<Call>, token: string, key: string, want: Client.Want, deadline: nat,
                              xs: seq<Client.Exchange>, calls: seq<nat>)
    requires FreshRun(k, h) && want.interval >= 3_000_000_000
    requires Serves(k, h, token, key, want.paths, xs, Client.Session(want, deadline, xs).requests, calls)
    ensures |Client.Session(want, deadline, xs).requests| <= 1 + 2 * (deadline / 3_000_000_000)
  {
    hide AnswerAt, FreshRun, Client.Session;
    var sent := Client.Session(want, deadline, xs).requests;
    forall n | 0 <= n < |sent| && sent[n].0.Post?
      ensures !(xs[n].reply.Response? && xs[n].reply.status == "revoked")
    {
      assert Answers(k, h, token, key, want.paths, xs[n], sent[n].0, calls[n]);
      AccessNeverCloses(k, h, calls[n]);
    }
    Client.RequestsBounded(want, deadline, xs);
  }

  // ---- how the wait can end ----

  /** An access served on the spot holds exactly the paths it asked for, and at least one. */
  lemma ServedAsAsked(k: Provider, h: seq<Call>, i: nat)
    requires FreshRun(k, h) && i < |h| && h[i].Lock? && AnswerAt(k, h, i).Delivered?
    ensures AnswerAt(k, h, i).secrets != map[]
    ensures h[i].op.AccessOp? && h[i].op.paths != [] ==> AnswerAt(k, h, i).secrets.Keys == Elements(h[i].op.paths)
  {
    hide Apply, Valid, AllPresent, AllAllowed, JoinClosed, ActiveOf, Overlay, Assigned;
    ValidAt(k, h, i);
    var d := WhatHappened(k, WorldAt(k, h, i), h[i]);
    assert d.Served?;
    assert AnswerAt(k, h, i).secrets.Keys == Elements(d.paths);
    assert d.paths[0] in Elements(d.paths);
    if h[i].op.AccessOp? && h[i].op.paths != [] {
      SortCanonical(h[i].op.paths);
    }
  }

  /** What a poll can be told. */
  lemma PollAnswers(k: Provider, h: seq<Call>, i: nat)
    requires FreshRun(k, h) && i < |h| && h[i].Lock? && h[i].op.PollOp?
    ensures var answer := AnswerAt(k, h, i);
      || answer.Delivered? || answer.Failed?
      || (answer.Waiting? && answer.handle == h[i].op.handle)
      || (answer.Closed? && answer.status in {Denied, Revoked})
  {
    hide Apply, Valid, Gate, AllReadable, Requestable, JoinWrites, Overlay, Bundle, JoinClosed, ActiveOf;
    ValidAt(k, h, i);
    var d := WhatHappened(k, WorldAt(k, h, i), h[i]);
  }

  /** The handle came from an earlier access for these paths. */
  ghost predicate Given(k: Provider, h: seq<Call>, paths: seq<string>, handle: string, before: nat) {
    exists i: nat | i < before && i < |h| ::
      h[i].Lock? && h[i].op.AccessOp? && h[i].op.paths == paths && AnswerAt(k, h, i).Waiting? && AnswerAt(k, h, i).handle == handle
  }

  /** An end that needs no fault of the server: the deadline, a lost request, a refusal, or exactly the wanted paths. */
  ghost predicate Proper(want: Client.Want, end: Client.End) {
    match end
    case Got(secrets) => secrets != map[] && (want.paths != [] ==> secrets.Keys == Elements(want.paths))
    case Refused => true
    case RequestFailed => true
    case Cancelled => true
    case Unfinished => true
    case BadHandle => true
    case _ => false
  }

  lemma FirstReply(k: Provider, h: seq<Call>, token: string, key: string, want: Client.Want,
                   x: Client.Exchange, request: Client.Request, call: nat)
    requires FreshRun(k, h) && (want.configured ==> want.paths == []) && call < |h|
    requires Answers(k, h, token, key, want.paths, x, request, call)
    requires request.Fetch? ==> Given(k, h, want.paths, request.handle, call)
    ensures match Client.Next(want, x.reply)
            case Stop(end) => Proper(want, end)
            case AskAgain => true
            case Wait(handle, _) => Given(k, h, want.paths, handle, call + 1)
  {
    hide AnswerAt, FreshRun;
    if x.reply.Response? {
      var answer := AnswerAt(k, h, call);
      if answer.Delivered? {
        ServedAsAsked(k, h, call);
        if request.Fetch? {
          var i: nat :| i < call && h[i].Lock? && h[i].op.AccessOp? && h[i].op.paths == want.paths
            && AnswerAt(k, h, i).Waiting? && AnswerAt(k, h, i).handle == request.handle;
          if want.paths != [] { PolledAsAsked(k, h, i, call); }
        }
        forall p | p in want.paths ensures p in answer.secrets {
          assert p in Elements(want.paths);
        }
      } else if request.Post? {
        AccessNeverCloses(k, h, call);
      } else {
        PollAnswers(k, h, call);
      }
    }
  }

  lemma {:induction false} EndsProperly(k: Provider, h: seq<Call>, token: string, key: string, want: Client.Want,
      deadline: nat,
                                        xs: seq<Client.Exchange>, request: Client.Request, now: nat, calls: seq<nat>)
    requires FreshRun(k, h) && (want.configured ==> want.paths == [])
    requires Serves(k, h, token, key, want.paths, xs, Client.Waiting(want, deadline, xs, request, now).requests, calls)
    requires request.Fetch? && calls != [] ==> Given(k, h, want.paths, request.handle, calls[0])
    ensures Proper(want, Client.Waiting(want, deadline, xs, request, now).end)
    decreases |xs|
  {
    hide AnswerAt, FreshRun, Answers, Given;
    if xs != [] {
      var sent := Client.Waiting(want, deadline, xs, request, now).requests;
      assert sent[0].0 == request && Answers(k, h, token, key, want.paths, xs[0], request, calls[0]);
      FirstReply(k, h, token, key, want, xs[0], request, calls[0]);
      var turn := Client.TurnAfter(want, deadline, xs[0], now);
      if turn.Goes? {
        var rest := Client.Waiting(want, deadline, xs[1..], turn.request, turn.at).requests;
        assert sent == [(request, now)] + rest;
        forall n | 0 <= n < |rest| ensures Answers(k, h, token, key, want.paths, xs[1..][n], rest[n].0, calls[1..][n]) {
          assert rest[n] == sent[n + 1];
        }
        if turn.request.Fetch? && calls[1..] != [] { GivenLater(k, h, want.paths, turn.request.handle, calls[0] + 1, calls[1]); }
        EndsProperly(k, h, token, key, want, deadline, xs[1..], turn.request, turn.at, calls[1..]);
      }
    }
  }

  lemma GivenLater(k: Provider, h: seq<Call>, paths: seq<string>, handle: string, before: nat, later: nat)
    requires Given(k, h, paths, handle, before) && before <= later
    ensures Given(k, h, paths, handle, later)
  {
    hide AnswerAt;
  }

  /** So the errors about missing secrets, an empty bundle and an unexpected status are never raised against this server. */
  lemma NeverMissingSecrets(k: Provider, h: seq<Call>, token: string, key: string, want: Client.Want, deadline: nat,
                            xs: seq<Client.Exchange>, calls: seq<nat>)
    requires FreshRun(k, h) && (want.configured ==> want.paths == [])
    requires Serves(k, h, token, key, want.paths, xs, Client.Session(want, deadline, xs).requests, calls)
    ensures var end := Client.Session(want, deadline, xs).end;
      && end !in {Client.MissingSecrets, Client.NoBundle, Client.UnexpectedStatus}
      && (end.Got? && want.paths != [] ==> end.secrets.Keys == Elements(want.paths))
      && (end.Got? ==> calls != [] && AnswerAt(k, h, calls[|calls| - 1]) == Delivered(end.secrets))
  {
    hide AnswerAt, FreshRun, Client.Waiting;
    if want.paths != [] || want.configured {
      EndsProperly(k, h, token, key, want, deadline, xs, Client.Post, 0, calls);
      if Client.Session(want, deadline, xs).end.Got? {
        GotIsDelivered(k, h, token, key, want, deadline, xs, calls);
      }
    }
  }

  /** What the client returns is what the last call it made was answered. */
  lemma GotIsDelivered(k: Provider, h: seq<Call>, token: string, key: string, want: Client.Want, deadline: nat,
      xs: seq<Client.Exchange>, calls: seq<nat>)
    requires FreshRun(k, h) && (want.paths != [] || want.configured)
    requires var session := Client.Session(want, deadline, xs);
      Serves(k, h, token, key, want.paths, xs, session.requests, calls) && session.end.Got?
    ensures calls != [] && AnswerAt(k, h, calls[|calls| - 1]) == Delivered(Client.Session(want, deadline, xs).end.secrets)
  {
    hide AnswerAt, FreshRun, Client.Waiting;
    var session := Client.Session(want, deadline, xs);
    if xs == [] { Client.FirstOf(want, deadline, xs, Client.Post, 0); }
    Client.EndFollows(want, deadline, xs, Client.Post, 0);
    var last := |session.requests| - 1;
    assert Answers(k, h, token, key, want.paths, xs[last], session.requests[last].0, calls[last]);
    ApprovedIsDelivered(k, h, calls[last]);
  }

  /** This server says approved only with a delivery. */
  lemma ApprovedIsDelivered(k: Provider, h: seq<Call>, i: nat)
    requires FreshRun(k, h) && i < |h| && h[i].Lock? && (h[i].op.AccessOp? || h[i].op.PollOp?)
    ensures var reply := Wire(AnswerAt(k, h, i));
      reply.Response? && reply.status == "approved" ==> AnswerAt(k, h, i) == Delivered(reply.secrets)
  {
    hide AnswerAt, FreshRun;
    if h[i].op.AccessOp? { AccessNeverCloses(k, h, i); } else { PollAnswers(k, h, i); }
  }

  /**
   * What the client does next, answer by answer: a delivery with the wanted paths ends the wait with
   * it, waiting goes on to a poll, denied ends it with a refusal, revoked asks again, errors end it.
   */
  lemma WhatFollows(want: Client.Want, answer: Answer)
    ensures var move := Client.Next(want, Wire(answer));
      match answer
      case Delivered(secrets) =>
        secrets != map[] && (forall p | p in want.paths :: p in secrets) ==> move == Client.Stop(Client.Got(secrets))
      case Waiting(handle, _, retryAfter) =>
        handle != "" && (forall c | c in handle :: c !in {'/', '?', '#'}) ==>
          move == Client.Wait(handle, if 0 < retryAfter <= 60 && retryAfter * 1_000_000_000 > want.interval
                                      then retryAfter * 1_000_000_000 else want.interval)
      case Closed(status, _, _) =>
        && (status == Denied ==> move == Client.Stop(Client.Refused))
        && (status == Revoked ==> move == Client.AskAgain)
      case Failed(_) => move == Client.Stop(Client.RequestFailed)
      case _ => true
  {
  }
}
