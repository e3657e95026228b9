/**
 * The waiting loops of the Go, JavaScript and Python clients side by side: the configured bundle,
 * before any deadline (client.go, index.js, lockgate_client/__init__.py).
 */
module Dialects {
  import opened Envelopes
  import opened Protocol
  import Client
  import Composition
  import Paths

  /** How a wait ends: with the one bundle, a denial, a failed request, or a response that makes no sense. */
  datatype Ending = Bundle(values: Values) | AccessDenied | RequestFailed | InvalidResponse

  /** What a client does with a reply: end, or go on. */
  datatype Turn = Done(ending: Ending) | PostAgain | PollAfter(handle: string, delay: nat)

  datatype Dialect = Go | JavaScript | Python

  /** Success needs exactly one bundle. */
  ghost function OnlyBundle(secrets: map<string, Values>): Ending {
    if |secrets| == 1 then var p :| p in secrets; Bundle(secrets[p]) else InvalidResponse
  }

  /** Which of GetConfig's errors the end of the loop is; its texts differ where the others share a code. */
  ghost function GoEnding(end: Client.End): Ending {
    match end
    case Got(secrets) => OnlyBundle(secrets)
    case Refused => AccessDenied
    case RequestFailed => RequestFailed
    case _ => InvalidResponse
  }

  /** GetConfig: the loop of waitForSecrets without paths, then the count of bundles. */
  ghost function GoTurn(interval: nat, reply: Client.Reply): Turn {
    match Client.Next(Client.Want([], true, interval), reply)
    case Stop(end) => Done(GoEnding(end))
    case AskAgain => PostAgain
    case Wait(handle, delay) => PollAfter(handle, delay)
  }

  predicate JavaScriptHandle(handle: string) {
    handle != "" && forall c | c in handle :: Paths.IsWord(c)
  }

  ghost function JavaScriptTurn(interval: nat, reply: Client.Reply): Turn {
    if reply.Broken? then Done(RequestFailed)
    else if reply.status == "approved" then Done(OnlyBundle(reply.secrets))
    else if reply.status == "denied" then Done(AccessDenied)
    else if reply.status == "revoked" then PostAgain
    else if reply.status == "waiting_approval" then
      if !JavaScriptHandle(reply.requestId) then Done(InvalidResponse)
      else PollAfter(reply.requestId, Longer(interval, reply.retryAfter))
    else Done(InvalidResponse)
  }

  /** Both scripting clients wait as long as they are advised, if that is longer. */
  function Longer(interval: nat, retryAfter: int): nat {
    if retryAfter * Client.SECOND > interval then retryAfter * Client.SECOND else interval
  }

  function Strip(s: string): string {
    if s == "" then "" else (if s[0] == '-' || s[0] == '_' then "" else [s[0]]) + Strip(s[1..])
  }

  predicate Alphanumeric(c: char) {
    Paths.IsWord(c) && c != '_' && c != '-'
  }

  /** `replace("-", "").replace("_", "").isalnum()`, on ASCII text. */
  predicate PythonHandle(handle: string) {
    Strip(handle) != "" && forall c | c in Strip(handle) :: Alphanumeric(c)
  }

  ghost function PythonTurn(interval: nat, reply: Client.Reply): Turn {
    if reply.Broken? then Done(RequestFailed)
    else if reply.status == "approved" then Done(OnlyBundle(reply.secrets))
    else if reply.status == "denied" then Done(AccessDenied)
    else if reply.status == "revoked" then PostAgain
    else if reply.status != "waiting_approval" then Done(InvalidResponse)
    else if !PythonHandle(reply.requestId) then Done(InvalidResponse)
    else PollAfter(reply.requestId, Longer(interval, reply.retryAfter))
  }

  ghost function TurnOf(d: Dialect, interval: nat, reply: Client.Reply): Turn {
    match d
    case Go => GoTurn(interval, reply)
    case JavaScript => JavaScriptTurn(interval, reply)
    case Python => PythonTurn(interval, reply)
  }

  /** Everything a client does while it is given these replies. */
  ghost function Turns(d: Dialect, interval: nat, replies: seq<Client.Reply>): seq<Turn> {
    if replies == [] then []
    else
      var turn := TurnOf(d, interval, replies[0]);
      if turn.Done? then [turn] else [turn] + Turns(d, interval, replies[1..])
  }

  /** Handles as this server draws them: base64url, with a letter or digit in it. */
  predicate ServerHandle(handle: string) {
    (forall c | c in handle :: Paths.IsWord(c)) && exists c | c in handle :: Alphanumeric(c)
  }

  /** A reply this server can give. */
  ghost predicate ServerReply(reply: Client.Reply) {
    exists answer: Answer :: reply == Composition.Wire(answer)
      && (answer.Waiting? ==> answer.retryAfter == RETRY_AFTER && ServerHandle(answer.handle))
  }

  lemma {:induction false} Stripped(s: string, c: char)
    ensures c in Strip(s) <==> c in s && c != '-' && c != '_'
  {
    if s != "" {
      Stripped(s[1..], c);
      assert s == [s[0]] + s[1..];
    }
  }

  lemma HandlesAccepted(handle: string)
    requires ServerHandle(handle)
    ensures Client.UsableHandle(handle) && JavaScriptHandle(handle) && PythonHandle(handle)
  {
    var a :| a in handle && Alphanumeric(a);
    Stripped(handle, a);
    forall c | c in Strip(handle) ensures Alphanumeric(c) {
      Stripped(handle, c);
    }
  }

  /** Whichever the client, an approved response succeeds exactly with one bundle, and then with its values. */
  lemma OneBundleExactly(d: Dialect, interval: nat, handle: string, retryAfter: int, secrets: map<string, Values>)
    ensures var turn := TurnOf(d, interval, Client.Response("approved", handle, retryAfter, secrets));
      && turn.Done?
      && (|secrets| == 1 ==> turn.ending.Bundle? && forall p | p in secrets :: turn.ending.values == secrets[p])
      && (|secrets| != 1 ==> turn.ending == InvalidResponse)
  {
    if secrets == map[] {
      assert OnlyBundle(secrets) == InvalidResponse;
    }
    if |secrets| == 1 {
      var q :| q in secrets.Keys;
      assert |secrets.Keys - {q}| == 0;
      forall p | p in secrets ensures p == q {
        assert p !in secrets.Keys - {q};
      }
    }
  }

  lemma SameTurn(interval: nat, reply: Client.Reply)
    requires interval >= 3_000_000_000 && ServerReply(reply)
    ensures GoTurn(interval, reply) == JavaScriptTurn(interval, reply) == PythonTurn(interval, reply)
  {
    if reply.Response? && reply.status == "waiting_approval" {
      HandlesAccepted(reply.requestId);
    }
    if reply.Response? && reply.secrets == map[] {
      assert OnlyBundle(reply.secrets) == InvalidResponse;
    }
  }

  /** On every stream this server can produce the three clients do the same. */
  lemma {:induction false} DialectsAgree(d: Dialect, interval: nat, replies: seq<Client.Reply>)
    requires interval >= 3_000_000_000 && forall i | 0 <= i < |replies| :: ServerReply(replies[i])
    ensures Turns(d, interval, replies) == Turns(Go, interval, replies)
  {
    if replies != [] {
      SameTurn(interval, replies[0]);
      DialectsAgree(d, interval, replies[1..]);
    }
  }

  /**
   * Beyond what this server sends, advice of over a minute moves the scripting clients only: they
   * wait alike, and Go as they do exactly when the advice is no longer than a minute or the interval.
   */
  lemma AdviceDiffers(interval: nat, retryAfter: int, handle: string)
    requires ServerHandle(handle)
    ensures var reply := Client.Response("waiting_approval", handle, retryAfter, map[]);
      && JavaScriptTurn(interval, reply) == PythonTurn(interval, reply)
      && (GoTurn(interval, reply) == JavaScriptTurn(interval, reply) <==>
            !(retryAfter > 60 && retryAfter * Client.SECOND > interval))
  {
    HandlesAccepted(handle);
  }
}
