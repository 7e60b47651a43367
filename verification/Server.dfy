/** The server as the source writes it: objects whose fields the critical sections update in
    place. Each method is one labelled step, or a loop of them, of the protocol in Tunnel; the
    ghost state says which. */
module Server {
  import opened Wrappers
  import opened Protocol
  import opened Secret
  import opened Tunnel
  import opened Invariants
  import Streams
  import opened History

  /** The reply channels of the dispatches of s. */
  ghost predicate SlotsOf(s: State, replies: map<RequestId, Slot>) {
    && replies.Keys == s.dispatches.Keys
    && forall rid <- replies :: replies[rid] == s.dispatches[rid].slot
  }

  class OutpunchServer {
    const secret: string
    var nextConnId: ConnId
    var services: map<string, ConnId>      // service name to active connection
    var pending: map<RequestId, ConnId>    // request id to the connection it was sent to
    var replies: map<RequestId, Slot>      // the one-shot reply channel of every dispatch

    /** The locked state and the reply channels are those of s. */
    ghost predicate Mirrors(s: State)
      reads this
    {
      && secret == s.secret && nextConnId == s.nextConnId && services == s.services && pending == s.pending
      && SlotsOf(s, replies)
    }

    constructor (secret: string)
      ensures this.secret == secret && Mirrors(Init(secret))
      ensures nextConnId == 1 && services == map[] && pending == map[] && replies == map[]
    {
      this.secret := secret;
      nextConnId, services, pending, replies := 1, map[], map[], map[];
    }

    method CreateConnection(ghost s: State) returns (connection: Connection)
      requires Mirrors(s) && Enabled(s, Create)
      modifies this`nextConnId
      ensures fresh(connection) && connection.id == old(nextConnId) && nextConnId == old(nextConnId) + 1
      ensures connection.incomingTx && connection.senders == 0
      ensures connection.incoming == [] && connection.outgoing == [] && connection.callbackCalls == []
      ensures Mirrors(Apply(s, Create)) && connection.Mirrors(Apply(s, Create))
    {
      connection := new Connection(nextConnId);
      nextConnId := nextConnId + 1;
    }

    /** The locked part of dispatch: find the connection and enter the request with its reply
        sender, or report that nobody holds the service, which drops the sender. */
    method LookupAndInsert(q: TunnelRequest, ghost s: State) returns (route: Option<ConnId>)
      requires Mirrors(s) && Enabled(s, Admit(q))
      modifies this`pending, this`replies
      ensures Mirrors(Apply(s, Admit(q)))
      ensures var d := Apply(s, Admit(q)).dispatches[q.requestId];
        d.request == q && d.route == route && d.progress == if route.Some? then Sending else Done(Err(NotConnected))
      ensures if q.service in services
              then route == Some(services[q.service])
                   && pending == old(pending)[q.requestId := services[q.service]]
                   && replies == old(replies)[q.requestId := Empty]
              else route == None && pending == old(pending) && replies == old(replies)[q.requestId := Dropped]
    {
      if q.service !in services {
        replies := replies[q.requestId := Dropped];
        return None;
      }
      var connId := services[q.service];
      replies := replies[q.requestId := Empty];
      pending := pending[q.requestId := connId];
      route := Some(connId);
    }

    /** A dispatch that failed forgets its request. Nobody reads its reply channel any more. */
    method RemovePending(rid: RequestId, ghost s: State)
      requires Mirrors(s) && Enabled(s, Fail(rid))
      modifies this`pending
      ensures Mirrors(Apply(s, Fail(rid)))
      ensures pending == old(pending) - {rid}
    {
      pending := pending - {rid};
    }

    /** Somebody holds the service: the last registration for it is still in force. */
    method IsConnected(service: string, ghost s: State, ghost log: Log) returns (connected: bool)
      requires Mirrors(s) && Reaches(secret, log, s)
      ensures connected <==> service in services
      ensures connected <==> exists c :: Holds(log, service, c)
    {
      connected := service in services;
      forall c {
        ServicesTellHistory(secret, log, s, service, c);
      }
      assert connected ==> HeldBy(s, service, services[service]);
    }

    /** A connection is over: its own registration goes, whatever else holds the service stays,
        and every reply sender kept for it is dropped, which wakes the dispatch behind it. */
    method CleanupConnection(service: string, id: ConnId, ghost s: State)
      requires Mirrors(s) && Enabled(s, Cleanup(id, service))
      modifies this`services, this`pending, this`replies
      ensures Mirrors(Apply(s, Cleanup(id, service)))
      ensures services == if service in old(services) && old(services)[service] == id then old(services) - {service}
                          else old(services)
      ensures pending == map rid | rid in old(pending) && old(pending)[rid] != id :: old(pending)[rid]
      ensures replies == map rid | rid in old(replies) ::
                if rid in old(pending) && old(pending)[rid] == id then Dropped else old(replies)[rid]
    {
      CleanupTables(s, id, service, replies);
      if service in services && services[service] == id {
        services := services - {service};
      }
      replies := DropFor(replies, pending, id);
      pending := Others(pending, id);
    }

    /** Register a connection; the handle it displaces is handed back to be closed. */
    method Register(service: string, id: ConnId, ghost s: State) returns (replaced: Option<ConnId>)
      requires Mirrors(s) && Enabled(s, Tunnel.Register(id, service))
      modifies this`services
      ensures Mirrors(Apply(s, Tunnel.Register(id, service)))
      ensures services == old(services)[service := id]
      ensures replaced == if service in old(services) then Some(old(services)[service]) else None
      ensures Apply(s, Tunnel.Register(id, service)).conns[id].phase
           == if replaced.Some? then Replacing(replaced.value) else Relaying
    {
      replaced := if service in services then Some(services[service]) else None;
      services := services[service := id];
    }

    /** The checks of handle_auth: an auth message first, then its token against the secret. */
    method CheckAuth(raw: Text) returns (verdict: Result<string, string>)
      ensures forall service :: verdict == Ok(service) <==> secret != "" && IsAuth(raw, secret, service)
      ensures verdict == Err("expected auth message") <==> !exists token, service :: IsAuth(raw, token, service)
      ensures verdict == Err("invalid token") <==>
        exists token, service :: IsAuth(raw, token, service) && (secret == "" || token != secret)
      ensures verdict.Err? ==> verdict.error == "expected auth message" || verdict.error == "invalid token"
      ensures verdict == AuthVerdict(secret, raw)
    {
      match ParseMessage(raw) {
        case Ok(Auth(m)) =>
          if secret != "" && ConstantTimeEq(m.token, secret) {
            verdict := Ok(m.service);
          } else {
            verdict := Err("invalid token");
          }
        case _ =>
          verdict := Err("expected auth message");
      }
      forall service {
        Streams.AcceptedExactly(secret, raw, service);
      }
      Streams.RefusedExactly(secret, raw);
    }

    /** Hand a response to the dispatch waiting for it, if its request was sent to this
        connection: the entry goes and the reply channel is filled. */
    method Answer(response: TunnelResponse, id: ConnId) returns (ours: bool)
      modifies this`pending, this`replies
      ensures ours <==> response.requestId in old(pending) && old(pending)[response.requestId] == id
      ensures ours ==> pending == old(pending) - {response.requestId}
                       && replies == old(replies)[response.requestId := Full(response)]
      ensures !ours ==> pending == old(pending) && replies == old(replies)
    {
      ours := response.requestId in pending && pending[response.requestId] == id;
      if ours {
        pending := pending - {response.requestId};
        replies := replies[response.requestId := Full(response)];
      }
    }

    /** A relayed text is looked at; only a response to a request of this connection does anything. */
    method RelayText(raw: Text, id: ConnId)
      modifies this`pending, this`replies
      ensures HandedOver(raw, id, old(pending), old(replies), pending, replies)
      ensures match ResponseIn(raw)
              case Some(r) =>
                if r.requestId in old(pending) && old(pending)[r.requestId] == id
                then pending == old(pending) - {r.requestId} && replies == old(replies)[r.requestId := Full(r)]
                else pending == old(pending) && replies == old(replies)
              case None => pending == old(pending) && replies == old(replies)
    {
      ResponseInExactly(raw);
      match ParseMessage(raw) {
        case Ok(Response(response)) =>
          var ours := Answer(response, id);
        case _ =>
      }
    }
  }

  /** What a relayed text does to the tables: a response to a request sent to this connection takes
      its entry away and fills its reply channel; anything else does nothing. */
  ghost predicate HandedOver(raw: Text, id: ConnId, pending: map<RequestId, ConnId>, replies: map<RequestId, Slot>,
                             newPending: map<RequestId, ConnId>, newReplies: map<RequestId, Slot>)
  {
    && (forall r | IsResponse(raw, r) && r.requestId in pending && pending[r.requestId] == id ::
          newPending == pending - {r.requestId} && newReplies == replies[r.requestId := Full(r)])
    && ((forall r | IsResponse(raw, r) :: !(r.requestId in pending && pending[r.requestId] == id)) ==>
          newPending == pending && newReplies == replies)
  }

  /** What waiting for the first message comes to. */
  datatype FirstRead = Arrived | Ended | TimedOut

  /** The step of the protocol that handle_auth then takes. */
  function AuthStep(id: ConnId, read: FirstRead, incoming: seq<Push>): Action
    requires read.Arrived? ==> incoming != []
  {
    match read
    case Arrived => AuthReceive(id, incoming[0])
    case Ended => AuthEnd(id)
    case TimedOut => AuthTimeOut(id)
  }

  /** A first message is accepted for a service and answered by auth_ok, or it is refused and the
      answer says why: its token is not the secret, or it is no auth message. */
  ghost predicate FirstAnswered(secret: string, raw: Text, service: Option<string>, reply: Text) {
    match service
    case Some(accepted) => secret != "" && IsAuth(raw, secret, accepted) && IsAuthOk(reply)
    case None =>
      if exists token, named :: IsAuth(raw, token, named) then
        IsAuthError(reply, "invalid token") && (secret == "" || forall named :: !IsAuth(raw, secret, named))
      else IsAuthError(reply, "expected auth message")
  }

  lemma AuthTextsOnWire(message: string)
    ensures IsAuthOk(AuthOkText()) && IsAuthError(AuthErrorText(message), message)
  {
    WrittenOnWire(AuthOk(AuthOkMessage("auth_ok")));
    WrittenOnWire(AuthError(AuthErrorMessage("auth_error", message)));
  }

  class Connection {
    const id: ConnId
    var incomingTx: bool              // incoming_tx is still in place
    var senders: nat                  // clones of it that pushes hold
    var incoming: seq<Push>
    var outgoing: seq<Text>
    var callbackCalls: seq<Text>

    /** The channels are those of connection id in s. */
    ghost predicate Mirrors(s: State)
      reads this
    {
      && id in s.conns
      && incomingTx == s.conns[id].open && senders == |s.conns[id].calls| && incoming == s.conns[id].incoming
      && outgoing == s.conns[id].outgoing && callbackCalls == s.conns[id].delivered
    }

    constructor (id: ConnId)
      ensures this.id == id && incomingTx && senders == 0 && incoming == [] && outgoing == [] && callbackCalls == []
    {
      this.id := id;
      incomingTx, senders, incoming, outgoing, callbackCalls := true, 0, [], [], [];
    }

    /** push_message, first half: clone the sender, or do nothing once it has been taken. */
    method CloneSender(push: Push, ghost s: State) returns (cloned: bool)
      requires Mirrors(s) && Enabled(s, BeginPush(id, push)) && s.conns[id].calls.Keys <= s.conns[id].used
      modifies this`senders
      ensures Mirrors(Apply(s, BeginPush(id, push)))
      ensures cloned == incomingTx && senders == old(senders) + if cloned then 1 else 0
      ensures cloned <==> push.call in Apply(s, BeginPush(id, push)).conns[id].calls
    {
      cloned := incomingTx;
      if cloned {
        senders := senders + 1;
      }
    }

    /** push_message, second half: the channel has room, and the clone is dropped. */
    method CompleteSend(push: Push, ghost s: State)
      requires Mirrors(s) && Enabled(s, Enqueue(id, push))
      modifies this`incoming, this`senders
      ensures Mirrors(Apply(s, Enqueue(id, push)))
      ensures incoming == old(incoming) + [push] && senders == old(senders) - 1
    {
      CallEnds(s.conns[id], push);
      incoming := incoming + [push];
      senders := senders - 1;
    }

    method Close(ghost s: State)
      requires Mirrors(s)
      modifies this`incomingTx
      ensures Enabled(s, Tunnel.Close(id)) && Mirrors(Apply(s, Tunnel.Close(id)))
      ensures !incomingTx
    {
      incomingTx := false;
    }

    /** The first message is there: it is taken, checked and answered. */
    method AnswerFirst(server: OutpunchServer) returns (service: Option<string>, ghost reply: Text)
      requires incoming != []
      modifies this`incoming, this`outgoing
      ensures incoming == old(incoming)[1..] && outgoing == old(outgoing) + [reply]
      ensures FirstAnswered(server.secret, old(incoming)[0].text, service, reply)
      ensures match AuthVerdict(server.secret, old(incoming)[0].text)
              case Ok(accepted) => service == Some(accepted) && reply == AuthOkText()
              case Err(message) => service == None && reply == AuthErrorText(message)
    {
      var raw := incoming[0].text;
      incoming := incoming[1..];
      var verdict := server.CheckAuth(raw);
      match verdict {
        case Ok(accepted) =>
          AuthTextsOnWire("");
          reply := AuthOkText();
          outgoing := outgoing + [AuthOkText()];
          service := Some(accepted);
        case Err(message) =>
          AuthTextsOnWire(message);
          reply := AuthErrorText(message);
          outgoing := outgoing + [AuthErrorText(message)];
          service := None;
      }
    }

    /** handle_auth: the first message is answered, and accepted or refused; a connection that
        sends none in time is told so, one that ends first is not answered. */
    method HandleAuth(server: OutpunchServer, read: FirstRead, ghost s: State)
      returns (service: Option<string>, ghost reply: seq<Text>)
      requires Mirrors(s) && server.Mirrors(s)
      requires read.Arrived? ==> incoming != []
      requires Enabled(s, AuthStep(id, read, incoming))
      modifies this`incoming, this`outgoing
      ensures Mirrors(Apply(s, AuthStep(id, read, old(incoming))))
      ensures Apply(s, AuthStep(id, read, old(incoming))).conns[id].phase
           == if service.Some? then Authenticated else Leaving
      ensures incoming == (if read.Arrived? then old(incoming)[1..] else old(incoming)) && outgoing == old(outgoing) + reply
      ensures match read
              case Ended => reply == [] && service == None
              case TimedOut => |reply| == 1 && IsAuthError(reply[0], "auth timeout") && service == None
              case Arrived => |reply| == 1 && FirstAnswered(server.secret, old(incoming)[0].text, service, reply[0])
    {
      service, reply := None, [];
      match read {
        case TimedOut =>
          AuthTextsOnWire("auth timeout");
          reply := [AuthErrorText("auth timeout")];
          outgoing := outgoing + [AuthErrorText("auth timeout")];
        case Ended =>
        case Arrived =>
          ghost var text;
          service, text := AnswerFirst(server);
          reply := [text];
      }
    }

    /** One round of the relay loop. A response to a request of this connection ends up in that
        request's reply channel; anything else changes nothing. */
    method RelayOne(server: OutpunchServer, ghost s: State)
      requires Mirrors(s) && server.Mirrors(s) && Inv(s)
      requires incoming != [] && Enabled(s, Relay(id, incoming[0]))
      modifies this`incoming, server`pending, server`replies
      ensures Mirrors(Apply(s, Relay(id, old(incoming)[0]))) && server.Mirrors(Apply(s, Relay(id, old(incoming)[0])))
      ensures incoming == old(incoming)[1..]
      ensures HandedOver(old(incoming)[0].text, id, old(server.pending), old(server.replies), server.pending, server.replies)
    {
      RelayTables(s, id, incoming[0]);
      var raw := incoming[0].text;
      incoming := incoming[1..];
      server.RelayText(raw, id);
    }

    /** The drain task's step: hand the next outgoing message to the callback. */
    method DeliverOne(ghost s: State)
      requires Mirrors(s) && outgoing != [] && Enabled(s, Deliver(id, outgoing[0]))
      modifies this`outgoing, this`callbackCalls
      ensures Mirrors(Apply(s, Deliver(id, old(outgoing)[0])))
      ensures outgoing == old(outgoing)[1..] && callbackCalls == old(callbackCalls) + [old(outgoing)[0]]
    {
      callbackCalls := callbackCalls + [outgoing[0]];
      outgoing := outgoing[1..];
    }

    /** Everybody else may run while the relay loop waits: any steps of the protocol but the
        loop's own. The contract stands for the rest of the program and is all that the loop
        relies on; that nobody does anything is only one way to meet it. */
    method Interference(server: OutpunchServer, ghost s: State) returns (ghost others: Log, ghost t: State)
      requires Mirrors(s) && server.Mirrors(s) && Inv(s) && s.conns[id].phase.Relaying?
      modifies this, server
      ensures Run(s, others) == Some(t) && Inv(t) && Mirrors(t) && server.Mirrors(t)
      ensures t.conns[id].phase.Relaying? && t.conns[id].service == s.conns[id].service
      ensures Rounds(others, id) == []
    {
      others, t := [], s;
    }

    /** What the loop does once it is awake: handle the next message, or clean up when nothing
        can arrive any more, or go back to waiting. */
    method Round(server: OutpunchServer, service: string, ghost s: State) returns (ended: bool, ghost t: State)
      requires Mirrors(s) && server.Mirrors(s) && Inv(s)
      requires s.conns[id].phase.Relaying? && s.conns[id].service == Some(service)
      modifies this`incoming, server`services, server`pending, server`replies
      ensures Run(s, Woken(s, id, service)) == Some(t) && Inv(t) && Mirrors(t) && server.Mirrors(t)
      ensures ended <==> Woken(s, id, service) == [Cleanup(id, service)]
      ensures if ended then Gone(t, id) else t.conns[id].phase.Relaying? && t.conns[id].service == Some(service)
    {
      t, ended := s, false;
      if incoming != [] {
        ghost var step := Relay(id, incoming[0]);
        RelayKeepsPhase(s, id, incoming[0]);
        Preserved(s, step);
        RunStep(s, [], step);
        assert [] + [step] == [step];
        RelayOne(server, s);
        t := Apply(s, step);
      } else if !incomingTx && senders == 0 {
        ghost var step := Cleanup(id, service);
        assert s.conns[id].calls == map[];
        CleanupLeaves(s, id, service);
        Preserved(s, step);
        RunStep(s, [], step);
        assert [] + [step] == [step];
        server.CleanupConnection(service, id, s);
        t, ended := Apply(s, step), true;
      }
    }

    /** The relay loop and the cleanup after it, with everybody else's steps in between: waits[k]
        is what the others did during wait k. The loop is followed for `limit` waits unless it
        ends before; it has ended once cleanup ran, which only happens when nothing can arrive
        any more. */
    method Relaying(server: OutpunchServer, service: string, limit: nat, ghost s: State)
      returns (ended: bool, ghost waits: seq<Log>, ghost t: State)
      requires Mirrors(s) && server.Mirrors(s) && Inv(s)
      requires s.conns[id].phase.Relaying? && s.conns[id].service == Some(service)
      modifies this, server
      ensures Run(s, LoopLog(s, waits, id, service)) == Some(t) && Mirrors(t) && server.Mirrors(t)
      ensures forall others <- waits :: Rounds(others, id) == []
      ensures ended ==> Cleanup(id, service) in LoopLog(s, waits, id, service)
      ensures ended ==> id !in server.services.Values && id !in server.pending.Values
      ensures !ended ==> |waits| == limit && t.conns[id].phase.Relaying?
    {
      waits, t, ended := [], s, false;
      for n := 0 to limit
        invariant |waits| == n && (forall others <- waits :: Rounds(others, id) == [])
        invariant Run(s, LoopLog(s, waits, id, service)) == Some(t) && Inv(t) && Mirrors(t) && server.Mirrors(t)
        invariant !ended && t.conns[id].phase.Relaying? && t.conns[id].service == Some(service)
      {
        ghost var others, u := Interference(server, t);
        ghost var before := t;
        ended, t := Round(server, service, u);
        OneMoreWait(s, waits, before, others, u, t, id, service);
        waits := waits + [others];
        if ended {
          CleanupIsComplete(t, id);
          return;
        }
      }
    }

    /** The drain task has handed over the texts done since s, and is still going. */
    ghost predicate Drained(s: State, done: seq<Text>, t: State)
      reads this
    {
      && Run(s, Deliveries(id, done)) == Some(t) && Mirrors(t)
      && t.conns[id].Running() && t.conns[id].receiving
    }

    method DeliverNext(ghost s: State, ghost done: seq<Text>, ghost t: State) returns (ghost u: State)
      requires Drained(s, done, t) && outgoing != []
      modifies this`outgoing, this`callbackCalls
      ensures Drained(s, done + [old(outgoing)[0]], u)
      ensures outgoing == old(outgoing)[1..] && callbackCalls == old(callbackCalls) + [old(outgoing)[0]]
    {
      DeliveryAppends(s, id, done, t, outgoing[0]);
      u := Apply(t, Deliver(id, outgoing[0]));
      DeliverOne(t);
    }

    /** The drain task over everything queued: the callback gets it all, in order. */
    method DeliverQueued(ghost s: State) returns (ghost t: State)
      requires Mirrors(s) && s.conns[id].Running() && s.conns[id].receiving
      modifies this`outgoing, this`callbackCalls
      ensures Run(s, Deliveries(id, old(outgoing))) == Some(t) && Mirrors(t)
      ensures outgoing == [] && callbackCalls == old(callbackCalls) + old(outgoing)
    {
      t := s;
      ghost var done, calls := [], callbackCalls;
      assert Drained(s, done, t);
      while outgoing != []
        invariant Drained(s, done, t)
        invariant done + outgoing == old(outgoing) && callbackCalls == calls + done
        decreases |outgoing|
      {
        MoveOver(calls, done, outgoing);
        ghost var text := outgoing[0];
        t := DeliverNext(s, done, t);
        done := done + [text];
      }
      assert done == old(outgoing);
    }
  }

  lemma MoveOver(calls: seq<Text>, done: seq<Text>, rest: seq<Text>)
    requires rest != []
    ensures (done + [rest[0]]) + rest[1..] == done + rest
    ensures (calls + done) + [rest[0]] == calls + (done + [rest[0]])
  {
  }

  /** One delivery step per text, in order. */
  function Deliveries(c: ConnId, texts: seq<Text>): Log {
    seq(|texts|, i requires 0 <= i < |texts| => Deliver(c, texts[i]))
  }

  lemma DeliveryAppends(s: State, c: ConnId, done: seq<Text>, t: State, text: Text)
    requires Run(s, Deliveries(c, done)) == Some(t) && c in t.conns && t.conns[c].Running() && t.conns[c].receiving
    requires t.conns[c].outgoing != [] && t.conns[c].outgoing[0] == text
    ensures Enabled(t, Deliver(c, text))
    ensures var u := Apply(t, Deliver(c, text));
      && Run(s, Deliveries(c, done + [text])) == Some(u)
      && c in u.conns && u.conns[c].Running() && u.conns[c].receiving
  {
    RunStep(s, Deliveries(c, done), Deliver(c, text));
    assert Deliveries(c, done + [text]) == Deliveries(c, done) + [Deliver(c, text)];
  }

  /** The loop's own step in a state in which it is awake. */
  ghost function Woken(s: State, c: ConnId, service: string): Log
    requires c in s.conns
  {
    if s.conns[c].incoming != [] then [Relay(c, s.conns[c].incoming[0])]
    else if s.conns[c].IncomingEnded() then [Cleanup(c, service)]
    else []
  }

  /** The steps from s on when the others do waits[k] while the loop waits for the k-th time. */
  ghost function LoopLog(s: State, waits: seq<Log>, c: ConnId, service: string): Log {
    if waits == [] then []
    else
      var n := |waits| - 1;
      var log := LoopLog(s, waits[..n], c, service) + waits[n];
      match Run(s, log)
      case None => log
      case Some(u) => if c in u.conns then log + Woken(u, c, service) else log
  }

  lemma OneMoreWait(s: State, waits: seq<Log>, before: State, others: Log, u: State, t: State, c: ConnId, service: string)
    requires Run(s, LoopLog(s, waits, c, service)) == Some(before)
    requires Run(before, others) == Some(u) && c in u.conns && Run(u, Woken(u, c, service)) == Some(t)
    ensures LoopLog(s, waits + [others], c, service)
         == LoopLog(s, waits, c, service) + others + Woken(u, c, service)
    ensures Run(s, LoopLog(s, waits + [others], c, service)) == Some(t)
  {
    var log := LoopLog(s, waits, c, service);
    RunAppend(s, log, others);
    RunAppend(s, log + others, Woken(u, c, service));
    assert (waits + [others])[..|waits|] == waits;
  }

  /** The loop's own steps in a log: c's relay steps and its cleanup. */
  ghost function Rounds(log: Log, c: ConnId): Log {
    if log == [] then []
    else
      var a := log[|log| - 1];
      Rounds(log[..|log| - 1], c) + if (a.Relay? || a.Cleanup?) && a.c == c then [a] else []
  }

  lemma {:induction false} RunAppend(s: State, log: Log, more: Log)
    requires Run(s, log).Some? && Run(Run(s, log).value, more).Some?
    ensures Run(s, log + more) == Run(Run(s, log).value, more)
    decreases |more|
  {
    if more == [] {
      assert log + more == log;
    } else {
      var n := |more| - 1;
      RunAppend(s, log, more[..n]);
      assert (log + more)[..|log| + n] == log + more[..n];
    }
  }

  lemma RelayKeepsPhase(s: State, c: ConnId, p: Push)
    requires c in s.conns && s.conns[c].phase.Relaying? && s.conns[c].NextIncoming(p)
    ensures Enabled(s, Relay(c, p))
    ensures var t := Apply(s, Relay(c, p));
      c in t.conns && t.conns[c].phase.Relaying? && t.conns[c].service == s.conns[c].service
  {
  }

  /** What a relay step does to the tables, the slots and the connection. */
  lemma RelayTables(s: State, c: ConnId, p: Push)
    requires Inv(s) && Enabled(s, Relay(c, p))
    ensures var t := Apply(s, Relay(c, p));
      && t.secret == s.secret && t.nextConnId == s.nextConnId && t.services == s.services
      && t.conns == s.conns[c := s.conns[c].Consume()]
      && match ResponseIn(p.text)
         case Some(r) =>
           if s.Owns(r.requestId, c)
           then t.pending == s.pending - {r.requestId} && r.requestId in s.dispatches
                && t.dispatches == s.dispatches[r.requestId := s.dispatches[r.requestId].(slot := Full(r))]
           else t.pending == s.pending && t.dispatches == s.dispatches
         case None => t.pending == s.pending && t.dispatches == s.dispatches
  {
    var answer := ResponseIn(p.text);
    assert answer.Some? && s.Owns(answer.value.requestId, c) ==> PendingEntry(s, answer.value.requestId);
  }

  /** The entries of other connections. */
  function Others(pending: map<RequestId, ConnId>, c: ConnId): (others: map<RequestId, ConnId>)
    ensures c !in others.Values && forall rid <- pending | pending[rid] != c :: rid in others && others[rid] == pending[rid]
  {
    map rid | rid in pending && pending[rid] != c :: pending[rid]
  }

  /** The reply channels once the senders kept for c are gone. */
  function DropFor(replies: map<RequestId, Slot>, pending: map<RequestId, ConnId>, c: ConnId): (r: map<RequestId, Slot>)
    ensures r.Keys == replies.Keys
    ensures forall rid <- replies :: r[rid] == if rid in pending && pending[rid] == c then Dropped else replies[rid]
  {
    map rid | rid in replies :: if rid in pending && pending[rid] == c then Dropped else replies[rid]
  }

  lemma CleanupTables(s: State, c: ConnId, service: string, replies: map<RequestId, Slot>)
    requires Enabled(s, Cleanup(c, service)) && SlotsOf(s, replies)
    ensures var t := Apply(s, Cleanup(c, service));
      && t.secret == s.secret && t.nextConnId == s.nextConnId
      && t.services == (if HeldBy(s, service, c) then s.services - {service} else s.services)
      && t.pending == Others(s.pending, c)
      && SlotsOf(t, DropFor(replies, s.pending, c))
  {
  }

  lemma CleanupLeaves(s: State, c: ConnId, service: string)
    requires Enabled(s, Cleanup(c, service))
    ensures Gone(Apply(s, Cleanup(c, service)), c)
  {
  }

  lemma CleanupIsComplete(s: State, c: ConnId)
    requires Inv(s) && Gone(s, c)
    ensures c !in s.services.Values && c !in s.pending.Values
  {
    forall service <- s.services ensures s.services[service] != c {
      assert ServiceEntry(s, service);
    }
    forall rid <- s.pending ensures s.pending[rid] != c {
      assert PendingEntry(s, rid);
    }
  }
}
