/** An answer can still be had: while the route lives and the answer can come, the steps of that one
    connection finish a dispatch with a response. */
module Liveness {
  import opened Wrappers
  import opened Protocol
  import opened Tunnel
  import opened Invariants
  import opened Streams
  import opened History
  import opened Arrivals
  import opened Client
  import opened EndToEnd
  import opened NetHistory
  import opened Pushing

  // ---- A dispatch whose answer can still come ----

  /** The dispatch sends or waits, and its route c lives: registered and not closed. */
  ghost predicate Awaiting(n: Net, rid: RequestId, c: ConnId) {
    && rid in n.server.dispatches && c in n.server.conns && c in n.links
    && var d := n.server.dispatches[rid];
    && (d.progress.Sending? || d.progress.Waiting?) && d.route == Some(c)
    && n.server.conns[c].Registered() && n.server.conns[c].open
  }

  /** An answer to rid is being pushed on c, or has arrived. */
  ghost predicate OnTheWay(n: Net, sl: Log, rid: RequestId, c: ConnId)
    requires c in n.server.conns
  {
    CarryingCalls(n.server.conns[c], rid) != {} || Carriers(TextsOf(Arrived(sl, c)), rid) > 0
  }

  /** An answer to rid can come over c: it is on its way, or the adapter goes on and has not given
      it up, and the client goes on or has written it. */
  ghost predicate CanCome(n: Net, sl: Log, rid: RequestId, c: ConnId)
    requires c in n.server.conns && c in n.links
  {
    var link := n.links[c];
    || OnTheWay(n, sl, rid, c)
    || (!link.stopped && Carriers(link.dropped, rid) == 0 && (link.up || Carriers(link.sink, rid) > 0))
  }

  /** The client has nothing to do, or does nothing any more. */
  ghost predicate ClientQuiet(x: Conn, link: Link) {
    link.up ==> link.read == |x.delivered| && link.session.running == [] && link.session.queue == []
  }

  /** The adapter has nothing to push, or pushes nothing any more. */
  ghost predicate AdapterQuiet(link: Link) {
    !link.stopped ==> link.taken == |link.sink| && link.held == []
  }

  /** Nothing is under way on c any more, in either direction. */
  ghost predicate Quiet(n: Net, c: ConnId)
    requires c in n.server.conns && c in n.links
  {
    var x, link := n.server.conns[c], n.links[c];
    && x.outgoing == [] && x.calls == map[] && x.incoming == []
    && ClientQuiet(x, link) && AdapterQuiet(link)
  }

  lemma QuestionReceived(secret: string, log: NetLog, n: Net, rid: RequestId, c: ConnId)
    requires NetRun(secret, log) == Some(n) && Awaiting(n, rid, c) && n.server.dispatches[rid].progress.Waiting?
    requires n.server.conns[c].outgoing == [] && n.links[c].read == |n.server.conns[c].delivered|
    ensures n.server.dispatches[rid].request in n.links[c].session.received
  {
    NetAlways(secret, log, n);
    NetRunsAreServerRuns(secret, log, n);
    WaitingWasSent(secret, ServerLog(log), n.server, rid);
    AllAccounted(secret, ServerLog(log), n.server, c);
    AlwaysRead(secret, log, n, c);
    assert DispatchEntry(n.server, rid);
    var q, delivered := n.server.dispatches[rid].request, n.server.conns[c].delivered;
    assert delivered + [] == delivered;
    var i :| 0 <= i < |delivered| && delivered[i] == RequestText(q);
    RoundTrip(Request(q));
  }

  lemma AnswerWritten(n: Net, c: ConnId, q: TunnelRequest) returns (k: nat)
    requires NetInv(n) && c in n.links && q in n.links[c].session.received
    requires n.links[c].session.running == [] && n.links[c].session.queue == []
    ensures k < |n.links[c].sink| && Carries(n.links[c].sink[k], q.requestId)
  {
    assert LinkEntry(n, c);
    var link := n.links[c];
    var i := AnsweredIndex(link.session, q);
    var r := link.session.written[i];
    WrittenAnswersReceived(link.session, r);
    RoundTrip(Response(r));
    k := i + 1;
  }

  lemma AnsweredIndex(s: Session, q: TunnelRequest) returns (i: nat)
    requires s.Balanced() && q in s.received && s.running == [] && s.queue == []
    ensures i < |s.written| && s.written[i].requestId == q.requestId
  {
    var j :| 0 <= j < |s.received| && s.received[j] == q;
    assert RequestIds(s.received)[j] == q.requestId;
    assert RequestIds(s.running) == [] && ResponseIds(s.queue) == [];
    assert q.requestId in multiset(RequestIds(s.received));
    assert q.requestId in multiset(ResponseIds(s.written));
    i :| 0 <= i < |s.written| && ResponseIds(s.written)[i] == q.requestId;
  }

  /** A message answering rid that arrived and was taken decided rid. */
  lemma ArrivedAnswerDecides(secret: string, log: NetLog, n: Net, rid: RequestId, c: ConnId, i: nat)
    requires NetRun(secret, log) == Some(n) && Awaiting(n, rid, c) && n.server.conns[c].incoming == []
    requires i < |Arrived(ServerLog(log), c)| && Carries(Arrived(ServerLog(log), c)[i].text, rid)
    ensures !n.server.dispatches[rid].slot.Empty?
  {
    NetRunsAreServerRuns(secret, log, n);
    DispatchNamed(secret, log, n, rid);
    var sl := ServerLog(log);
    FirstInFirstOut(secret, sl, n.server, c);
    assert Dequeued(sl, c) + [] == Dequeued(sl, c);
    var j := DispatchesTellHistory(secret, sl, n.server, rid);
    NoEarlyAnswer(secret, log, n, rid, c, j);
    PrefixAt(sl, c, n.server, secret, j);
    LaterThan(Arrived(sl[..j], c), Arrived(sl, c), rid, i);
    var l := DequeuedFrom(sl, c, j, i);
    assert l > j;
    AuthIsOver(secret, sl, j, l, c);
    assert Decides(sl[l], rid, c);
  }

  lemma LaterThan(early: seq<Push>, arrived: seq<Push>, rid: RequestId, i: nat)
    requires early <= arrived && i < |arrived| && Carries(arrived[i].text, rid)
    requires forall p <- early :: !Carries(p.text, rid)
    ensures |early| <= i
  {
    forall k | 0 <= k < |early| ensures !Carries(arrived[k].text, rid) {
      assert early[k] in early;
    }
  }

  /** Once everything is quiet an answer that can come has arrived. */
  lemma QuietHasArrived(secret: string, log: NetLog, n: Net, rid: RequestId, c: ConnId)
    requires NetRun(secret, log) == Some(n) && Awaiting(n, rid, c) && n.server.dispatches[rid].progress.Waiting?
    requires Quiet(n, c) && CanCome(n, ServerLog(log), rid, c)
    ensures Carriers(TextsOf(Arrived(ServerLog(log), c)), rid) > 0
  {
    var x, link := n.server.conns[c], n.links[c];
    assert CarryingCalls(x, rid) == {};
    assert link.sink[..|link.sink|] == link.sink;
    if !OnTheWay(n, ServerLog(log), rid, c) {
      if link.up {
        NetAlways(secret, log, n);
        QuestionReceived(secret, log, n, rid, c);
        DispatchNamed(secret, log, n, rid);
        var k := AnswerWritten(n, c, n.server.dispatches[rid].request);
        CarrierCounts(link.sink, rid, k);
      }
      AlwaysConserved(secret, log, n, c, rid);
    }
  }

  /** Once everything is quiet the answer is there. */
  lemma QuietIsAnswered(secret: string, log: NetLog, n: Net, rid: RequestId, c: ConnId)
    requires NetRun(secret, log) == Some(n) && Awaiting(n, rid, c) && n.server.dispatches[rid].progress.Waiting?
    requires Quiet(n, c) && CanCome(n, ServerLog(log), rid, c)
    ensures !n.server.dispatches[rid].slot.Empty?
  {
    QuietHasArrived(secret, log, n, rid, c);
    var i := CarrierFound(TextsOf(Arrived(ServerLog(log), c)), rid);
    ArrivedAnswerDecides(secret, log, n, rid, c, i);
  }

  // ---- The steps that bring it ----

  /** The steps of c in both directions, of its client and its adapter, and the dispatch's own send
      and receive. None of them is a timeout, a cancellation, a close of c or an end of its client
      or its adapter, and none cuts a push short or gives it up. */
  ghost predicate Brings(a: NetAction, rid: RequestId, c: ConnId) {
    match a
    case Server(Upgrade(to, _)) => to == c
    case Server(CloseReplaced(to, _)) => to == c
    case Server(Relay(to, _)) => to == c
    case Server(Enqueue(to, _)) => to == c
    case Server(Deliver(to, _)) => to == c
    case Server(Send(id, to, _)) => id == rid && to == c
    case Server(Receive(id)) => id == rid
    case Take(to) => to == c
    case Transmit(to, _, _) => to == c
    case ReadText(to) => to == c
    case FinishForward(to, _, _) => to == c
    case WriteResponse(to) => to == c
    case _ => false
  }

  lemma {:induction false} AboveAll(ids: set<nat>) returns (bound: nat)
    ensures forall id <- ids :: id < bound
    decreases |ids|
  {
    if id :| id in ids {
      var rest := AboveAll(ids - {id});
      assert forall other <- ids :: other == id || other in ids - {id};
      bound := if id < rest then rest else id + 1;
    } else {
      bound := 0;
    }
  }

  /** As long as the server itself has something to do for c, it can. */
  lemma ServerStepFor(n: Net, rid: RequestId, c: ConnId) returns (a: Action)
    requires Inv(n.server) && Awaiting(n, rid, c)
    requires var x, d := n.server.conns[c], n.server.dispatches[rid];
      !x.phase.Relaying? || x.incoming != [] || x.calls != map[] || x.outgoing != []
      || d.progress.Sending? || !d.slot.Empty?
    ensures Possible(n, Server(a)) && Brings(Server(a), rid, c)
  {
    var x, d := n.server.conns[c], n.server.dispatches[rid];
    assert ConnEntry(n.server, c) && DispatchEntry(n.server, rid);
    if x.phase.Replacing? {
      a := Upgrade(c, x.phase.loser);
    } else if x.phase.Closing? {
      a := CloseReplaced(c, x.phase.loser);
    } else if x.incoming != [] {
      a := Relay(c, x.incoming[0]);
    } else if x.calls != map[] {
      var id :| id in x.calls;
      a := Enqueue(c, Push(id, x.calls[id]));
    } else if x.outgoing != [] {
      a := Deliver(c, x.outgoing[0]);
    } else if d.progress.Sending? {
      a := Send(rid, c, RequestText(d.request));
    } else {
      a := Receive(rid);
    }
    assert ServerPart(Server(a)) == [a];
  }

  lemma ClientStepFor(n: Net, rid: RequestId, c: ConnId, service: TunnelRequest -> Outcome) returns (a: NetAction)
    requires Awaiting(n, rid, c) && ReadOf(n.server.conns[c], n.links[c])
    requires !ClientQuiet(n.server.conns[c], n.links[c])
    ensures Possible(n, a) && Brings(a, rid, c)
  {
    var x, link := n.server.conns[c], n.links[c];
    if link.read < |x.delivered| {
      a := ReadText(c);
    } else if link.session.running != [] {
      a := FinishForward(c, 0, service(link.session.running[0]));
    } else {
      a := WriteResponse(c);
    }
  }

  lemma AdapterStepFor(n: Net, rid: RequestId, c: ConnId) returns (a: NetAction)
    requires Awaiting(n, rid, c) && !AdapterQuiet(n.links[c]) && n.links[c].taken <= |n.links[c].sink|
    ensures Possible(n, a) && Brings(a, rid, c)
  {
    var link := n.links[c];
    if link.taken < |link.sink| {
      a := Take(c);
    } else {
      var call := AboveAll(n.server.conns[c].used);
      a := Transmit(c, 0, Push(call, link.held[0]));
      assert ServerPart(a) == [BeginPush(c, a.push)];
    }
  }

  /** Until the answer is received, one of these steps is possible. */
  lemma NextStep(secret: string, log: NetLog, n: Net, rid: RequestId, c: ConnId, service: TunnelRequest -> Outcome)
    returns (a: NetAction)
    requires NetRun(secret, log) == Some(n) && Awaiting(n, rid, c) && CanCome(n, ServerLog(log), rid, c)
    ensures Possible(n, a) && Brings(a, rid, c)
  {
    NetAlways(secret, log, n);
    AlwaysRead(secret, log, n, c);
    var x, link, d := n.server.conns[c], n.links[c], n.server.dispatches[rid];
    if !x.phase.Relaying? || x.incoming != [] || x.calls != map[] || x.outgoing != []
       || d.progress.Sending? || !d.slot.Empty? {
      var action := ServerStepFor(n, rid, c);
      a := Server(action);
    } else if !ClientQuiet(x, link) {
      a := ClientStepFor(n, rid, c, service);
    } else if !AdapterQuiet(link) {
      AlwaysConserved(secret, log, n, c, rid);
      a := AdapterStepFor(n, rid, c);
    } else {
      QuietIsAnswered(secret, log, n, rid, c);
      assert false;
    }
  }

  // ---- They cannot go on for ever ----

  function Rank(phase: Phase): nat {
    match phase
    case Replacing(_) => 2
    case Closing(_) => 1
    case _ => 0
  }

  /** What is under way on c, weighed by how far it still has to go. */
  ghost function UnderWay(x: Conn, link: Link): nat
    requires InBounds(x, link)
  {
    Rank(x.phase)
    + 8 * |x.outgoing| + 7 * (|x.delivered| - link.read)
    + 6 * |link.session.running| + 5 * |link.session.queue|
    + 4 * (|link.sink| - link.taken) + 3 * |link.held| + 2 * |x.calls| + |x.incoming|
  }

  ghost predicate InBounds(x: Conn, link: Link) {
    link.read <= |x.delivered| && link.taken <= |link.sink|
  }

  ghost function Distance(n: Net, rid: RequestId, c: ConnId): nat
    requires Awaiting(n, rid, c) && InBounds(n.server.conns[c], n.links[c])
  {
    (if n.server.dispatches[rid].progress.Sending? then 10 else 1) + UnderWay(n.server.conns[c], n.links[c])
  }

  /** The dispatch has returned a response. */
  ghost predicate Answered(n: Net, rid: RequestId) {
    rid in n.server.dispatches && n.server.dispatches[rid].progress.Done? && n.server.dispatches[rid].progress.result.Ok?
  }

  lemma ConnCloser(s: State, a: Action, c: ConnId, link: Link)
    requires Enabled(s, a) && (a.Upgrade? || a.Relay? || a.Enqueue? || a.Deliver?) && a.c == c
    requires InBounds(s.conns[c], link) && s.conns[c].Registered()
    ensures c in Apply(s, a).conns
    ensures var x, y := s.conns[c], Apply(s, a).conns[c];
      y.Registered() && y.open == x.open && (InBounds(y, link) ==> UnderWay(y, link) < UnderWay(x, link))
  {
    if a.Enqueue? {
      CallEnds(s.conns[c], a.push);
    }
  }

  lemma ReplacerCloser(s: State, c: ConnId, loser: ConnId, link: Link)
    requires Enabled(s, CloseReplaced(c, loser)) && c != loser && InBounds(s.conns[c], link)
    ensures var x, y := s.conns[c], Apply(s, CloseReplaced(c, loser)).conns[c];
      y.Registered() && y.open == x.open && (InBounds(y, link) ==> UnderWay(y, link) < UnderWay(x, link))
  {
  }

  /** Steps of the connection leave the dispatch where it is. */
  lemma ProgressKept(s: State, a: Action, rid: RequestId)
    requires Enabled(s, a) && rid in s.dispatches && !MovesDispatch(a)
    ensures rid in Apply(s, a).dispatches
    ensures Apply(s, a).dispatches[rid].progress == s.dispatches[rid].progress
    ensures Apply(s, a).dispatches[rid].route == s.dispatches[rid].route
  {
    DispatchKept(s, a, rid);
    if a.Relay? || a.Cleanup? {
      OnlySlotsWritten(s, a);
    } else {
      DispatchesUntouched(s, a);
    }
  }

  lemma ConnStepCloser(n: Net, a: Action, rid: RequestId, c: ConnId, m: Net)
    requires Inv(n.server) && Awaiting(n, rid, c) && Enabled(n.server, a) && m.server == Apply(n.server, a) && m.links == n.links
    requires (a.Upgrade? || a.CloseReplaced? || a.Relay? || a.Enqueue? || a.Deliver?) && a.c == c
    requires InBounds(n.server.conns[c], n.links[c]) && c in m.server.conns && InBounds(m.server.conns[c], m.links[c])
    ensures Awaiting(m, rid, c) && Distance(m, rid, c) < Distance(n, rid, c)
  {
    ProgressKept(n.server, a, rid);
    if a.CloseReplaced? {
      assert ConnEntry(n.server, c);
      ReplacerCloser(n.server, c, a.loser, n.links[c]);
    } else {
      ConnCloser(n.server, a, c, n.links[c]);
    }
  }

  lemma SendCloser(n: Net, rid: RequestId, c: ConnId, text: Text, m: Net)
    requires Awaiting(n, rid, c) && Enabled(n.server, Send(rid, c, text))
    requires m.server == Apply(n.server, Send(rid, c, text)) && m.links == n.links
    requires InBounds(n.server.conns[c], n.links[c]) && c in m.server.conns && InBounds(m.server.conns[c], m.links[c])
    ensures Awaiting(m, rid, c) && Distance(m, rid, c) < Distance(n, rid, c)
  {
  }

  lemma ReceiveAnswers(n: Net, rid: RequestId, c: ConnId, m: Net)
    requires Inv(n.server) && Awaiting(n, rid, c) && Enabled(n.server, Receive(rid))
    requires m.server == Apply(n.server, Receive(rid))
    ensures Answered(m, rid)
  {
    assert DispatchEntry(n.server, rid);
  }

  lemma CallsGrow(calls: map<CallId, Text>, call: CallId, text: Text)
    ensures |calls[call := text]| <= |calls| + 1
  {
    assert calls[call := text].Keys == calls.Keys + {call};
    assert |calls.Keys + {call}| <= |calls.Keys| + 1;
  }

  lemma TransmitCloser(n: Net, rid: RequestId, c: ConnId, i: nat, p: Push)
    requires NetInv(n) && Awaiting(n, rid, c) && Possible(n, Transmit(c, i, p)) && InBounds(n.server.conns[c], n.links[c])
    requires var m := Advance(n, Transmit(c, i, p)); c in m.server.conns && c in m.links && InBounds(m.server.conns[c], m.links[c])
    ensures var m := Advance(n, Transmit(c, i, p)); Awaiting(m, rid, c) && Distance(m, rid, c) < Distance(n, rid, c)
  {
    ServerPartEnabled(n, Transmit(c, i, p));
    CallsGrow(n.server.conns[c].calls, p.call, p.text);
  }

  lemma ClientCloser(n: Net, a: NetAction, rid: RequestId, c: ConnId)
    requires Awaiting(n, rid, c) && Possible(n, a) && InBounds(n.server.conns[c], n.links[c])
    requires (a.ReadText? || a.FinishForward? || a.WriteResponse? || a.Take?) && a.c == c
    requires var m := Advance(n, a); c in m.server.conns && c in m.links && InBounds(m.server.conns[c], m.links[c])
    ensures var m := Advance(n, a); Awaiting(m, rid, c) && Distance(m, rid, c) < Distance(n, rid, c)
  {
  }

  /** Each of these steps receives the answer or brings it closer. */
  lemma StepCloser(n: Net, a: NetAction, rid: RequestId, c: ConnId)
    requires Inv(n.server) && NetInv(n) && Awaiting(n, rid, c) && Possible(n, a) && Brings(a, rid, c)
    requires InBounds(n.server.conns[c], n.links[c])
    requires var m := Advance(n, a); c in m.server.conns && c in m.links && InBounds(m.server.conns[c], m.links[c])
    ensures var m := Advance(n, a);
      Answered(m, rid) || (Awaiting(m, rid, c) && Distance(m, rid, c) < Distance(n, rid, c))
  {
    var m := Advance(n, a);
    if a.Transmit? {
      TransmitCloser(n, rid, c, a.i, a.push);
    } else if !a.Server? {
      ClientCloser(n, a, rid, c);
    } else {
      ServerPartEnabled(n, a);
      if a.action.Send? {
        SendCloser(n, rid, c, a.action.text, m);
      } else if a.action.Receive? {
        ReceiveAnswers(n, rid, c, m);
      } else {
        ConnStepCloser(n, a.action, rid, c, m);
      }
    }
  }

  // ---- What can come can still come afterwards ----

  lemma CarryingKept(n: Net, a: NetAction, rid: RequestId, c: ConnId)
    requires Possible(n, a) && Brings(a, rid, c) && c in n.server.conns && ServerPart(a) != []
    requires n.server.conns[c].calls.Keys <= n.server.conns[c].used
    requires CarryingCalls(n.server.conns[c], rid) != {}
    ensures c in Apply(n.server, ServerPart(a)[0]).conns
    ensures CarryingCalls(Apply(n.server, ServerPart(a)[0]).conns[c], rid) != {}
         || (ServerPart(a)[0].Enqueue? && ServerPart(a)[0].c == c && Carries(ServerPart(a)[0].push.text, rid))
  {
    ServerPartEnabled(n, a);
    PushesBalance(n.server, ServerPart(a)[0], c, rid);
  }

  lemma OnTheWayStill(n: Net, a: NetAction, sl: Log, rid: RequestId, c: ConnId)
    requires Possible(n, a) && Brings(a, rid, c) && c in n.server.conns
    requires n.server.conns[c].calls.Keys <= n.server.conns[c].used && OnTheWay(n, sl, rid, c)
    ensures c in Advance(n, a).server.conns && OnTheWay(Advance(n, a), sl + ServerPart(a), rid, c)
  {
    ArrivedExtends(sl, ServerPart(a), c);
    ServerAdvances(n, a);
    if ServerPart(a) == [] {
      assert Arrived(sl, c) + [] == Arrived(sl, c);
    } else {
      ArrivalsBalance(Arrived(sl, c), ServerPart(a)[0], c, rid);
      ServerPartEnabled(n, a);
      PushesBalance(n.server, ServerPart(a)[0], c, rid);
      if CarryingCalls(n.server.conns[c], rid) != {} {
        CarryingKept(n, a, rid, c);
      }
    }
  }

  lemma GoesOn(n: Net, a: NetAction, rid: RequestId, c: ConnId)
    requires Possible(n, a) && Brings(a, rid, c) && c in n.links
    ensures c in Advance(n, a).links
    ensures var link, next := n.links[c], Advance(n, a).links[c];
      && next.stopped == link.stopped && next.dropped == link.dropped && next.up == link.up
      && (next.sink == link.sink || exists text :: next.sink == link.sink + [text])
  {
  }

  lemma CanComeStill(n: Net, a: NetAction, sl: Log, rid: RequestId, c: ConnId)
    requires Possible(n, a) && Brings(a, rid, c) && c in n.server.conns && c in n.links
    requires n.server.conns[c].calls.Keys <= n.server.conns[c].used && CanCome(n, sl, rid, c)
    requires c in Advance(n, a).server.conns
    ensures c in Advance(n, a).links && CanCome(Advance(n, a), sl + ServerPart(a), rid, c)
  {
    GoesOn(n, a, rid, c);
    if OnTheWay(n, sl, rid, c) {
      OnTheWayStill(n, a, sl, rid, c);
    } else if Advance(n, a).links[c].sink != n.links[c].sink {
      var text :| Advance(n, a).links[c].sink == n.links[c].sink + [text];
      CarriersPlus(n.links[c].sink, text, rid);
    }
  }

  lemma AlwaysInBounds(secret: string, log: NetLog, n: Net, c: ConnId)
    requires NetRun(secret, log) == Some(n) && c in n.links
    ensures c in n.server.conns && InBounds(n.server.conns[c], n.links[c])
  {
    NetAlways(secret, log, n);
    AlwaysRead(secret, log, n, c);
    assert LinkEntry(n, c);
  }

  /** The distance is defined in every run. */
  ghost function RunDistance(secret: string, log: NetLog, n: Net, rid: RequestId, c: ConnId): nat
    requires NetRun(secret, log) == Some(n) && Awaiting(n, rid, c)
  {
    AlwaysInBounds(secret, log, n, c);
    Distance(n, rid, c)
  }

  lemma OneStepCloser(secret: string, log: NetLog, n: Net, rid: RequestId, c: ConnId, service: TunnelRequest -> Outcome)
    returns (a: NetAction, m: Net)
    requires NetRun(secret, log) == Some(n) && Awaiting(n, rid, c) && CanCome(n, ServerLog(log), rid, c)
    ensures Brings(a, rid, c) && NetRun(secret, log + [a]) == Some(m)
    ensures Answered(m, rid) ||
      (Awaiting(m, rid, c) && RunDistance(secret, log + [a], m, rid, c) < RunDistance(secret, log, n, rid, c))
    ensures c in m.server.conns && c in m.links && CanCome(m, ServerLog(log + [a]), rid, c)
  {
    NetAlways(secret, log, n);
    AlwaysInBounds(secret, log, n, c);
    a := NextStep(secret, log, n, rid, c, service);
    m := Advance(n, a);
    NetStep(secret, log, n, a);
    LinksKept(n, a, c);
    AlwaysInBounds(secret, log + [a], m, c);
    StepCloser(n, a, rid, c);
    CanComeAfter(secret, log, n, a, rid, c);
  }

  lemma CanComeAfter(secret: string, log: NetLog, n: Net, a: NetAction, rid: RequestId, c: ConnId)
    requires NetRun(secret, log) == Some(n) && Possible(n, a) && Brings(a, rid, c) && c in n.server.conns && c in n.links
    requires CanCome(n, ServerLog(log), rid, c) && c in Advance(n, a).server.conns
    ensures c in Advance(n, a).links && CanCome(Advance(n, a), ServerLog(log + [a]), rid, c)
  {
    NetRunsAreServerRuns(secret, log, n);
    JunkErasure.AlwaysOnceEach(secret, ServerLog(log), n.server, c);
    CanComeStill(n, a, ServerLog(log), rid, c);
    assert (log + [a])[..|log|] == log;
  }

  /** Progress. From every state of every network run in which a dispatch sends or waits, its route
      is registered and not closed, and its answer can come: steps of that connection, its client
      and its adapter alone, no timeout, cancellation or close among them, end with the dispatch
      returning a response, whatever the local service makes of the requests. */
  lemma {:induction false} AnswerReachable(secret: string, log: NetLog, n: Net, rid: RequestId, c: ConnId,
                                           service: TunnelRequest -> Outcome)
    returns (more: NetLog)
    requires NetRun(secret, log) == Some(n) && Awaiting(n, rid, c) && CanCome(n, ServerLog(log), rid, c)
    ensures |more| <= RunDistance(secret, log, n, rid, c) && forall a <- more :: Brings(a, rid, c)
    ensures NetRun(secret, log + more).Some? && Answered(NetRun(secret, log + more).value, rid)
    decreases RunDistance(secret, log, n, rid, c)
  {
    var a, m := OneStepCloser(secret, log, n, rid, c, service);
    if Answered(m, rid) {
      more := [a];
    } else {
      var rest := AnswerReachable(secret, log + [a], m, rid, c, service);
      StepThenRest(log, a, rest, rid, c);
      more := [a] + rest;
    }
  }

  lemma StepThenRest(log: NetLog, a: NetAction, rest: NetLog, rid: RequestId, c: ConnId)
    requires Brings(a, rid, c) && forall b <- rest :: Brings(b, rid, c)
    ensures log + ([a] + rest) == (log + [a]) + rest
    ensures forall b <- [a] + rest :: Brings(b, rid, c)
  {
  }
}
