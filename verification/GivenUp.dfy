/** Exactly when an answer can still be had, and that no question is asked or answered twice. */
module GivenUp {
  import opened Wrappers
  import opened Protocol
  import opened Tunnel
  import opened Invariants
  import opened Streams
  import opened History
  import opened Arrivals
  import opened Client
  import opened EndToEnd
  import opened NetHistory
  import opened Pushing
  import opened Liveness

  // ---- No question is asked twice ----

  function RequestsOf(texts: seq<Text>): seq<TunnelRequest> {
    if texts == [] then []
    else RequestsOf(texts[..|texts| - 1]) + RequestAt(texts[|texts| - 1])
  }

  function RequestAt(text: Text): seq<TunnelRequest> {
    if RequestIn(text).Some? then [RequestIn(text).value] else []
  }

  lemma {:induction false} RequestsOfGrows(texts: seq<Text>, k: nat)
    requires k <= |texts|
    ensures RequestsOf(texts[..k]) <= RequestsOf(texts)
    decreases |texts|
  {
    if k == |texts| {
      assert texts[..k] == texts;
    } else {
      var n := |texts| - 1;
      assert texts[..n][..k] == texts[..k];
      RequestsOfGrows(texts[..n], k);
    }
  }

  lemma RequestsOfAppend(texts: seq<Text>, more: seq<Text>)
    requires |more| <= 1
    ensures RequestsOf(texts + more) == RequestsOf(texts) + if more == [] then [] else RequestAt(more[0])
  {
    if more == [] {
      assert texts + more == texts;
    } else {
      assert (texts + more)[..|texts|] == texts;
    }
  }

  lemma RequestsOfNext(texts: seq<Text>, k: nat)
    requires k < |texts|
    ensures RequestsOf(texts[..k + 1]) == RequestsOf(texts[..k]) + RequestAt(texts[k])
  {
    assert texts[..k + 1][..k] == texts[..k];
  }

  ghost predicate DistinctIds(qs: seq<TunnelRequest>) {
    forall i, j | 0 <= i < j < |qs| :: qs[i].requestId != qs[j].requestId
  }

  /** Every request in the stream was sent by a step of the log. */
  ghost predicate SentBySteps(qs: seq<TunnelRequest>, log: Log) {
    forall q <- qs :: exists i: nat :: i < |log| && log[i].Send? && log[i].rid == q.requestId
  }

  lemma SentByMore(qs: seq<TunnelRequest>, log: Log, a: Action)
    requires SentBySteps(qs, log)
    ensures SentBySteps(qs, log + [a])
  {
    forall q <- qs ensures exists i: nat :: i < |log + [a]| && (log + [a])[i].Send? && (log + [a])[i].rid == q.requestId {
      var i: nat :| i < |log| && log[i].Send? && log[i].rid == q.requestId;
      assert (log + [a])[i] == log[i];
    }
  }

  lemma EmittedRequest(s: State, a: Action, c: ConnId)
    requires Inv(s) && Enabled(s, a)
    ensures |Emitted(s.secret, a, c)| <= 1
    ensures Emitted(s.secret, a, c) != [] && RequestIn(Emitted(s.secret, a, c)[0]).Some? ==>
              a.Send? && RequestIn(Emitted(s.secret, a, c)[0]).value.requestId == a.rid
  {
    if Emitted(s.secret, a, c) != [] {
      EmittedGrammatical(s, a);
      if a.Send? {
        assert DispatchEntry(s, a.rid);
        SendShape(s, a);
        RoundTrip(Request(s.dispatches[a.rid].request));
      } else {
        AuthOkParses();
      }
    }
  }

  lemma DistinctAppend(qs: seq<TunnelRequest>, q: TunnelRequest, log: Log, a: Action)
    requires DistinctIds(qs) && SentBySteps(qs, log) && a.Send? && a.rid == q.requestId
    requires forall i | 0 <= i < |log| && log[i].Send? :: log[i].rid != a.rid
    ensures DistinctIds(qs + [q]) && SentBySteps(qs + [q], log + [a])
  {
    forall other <- qs ensures other.requestId != q.requestId {
    }
    forall i, j | 0 <= i < j < |qs + [q]| ensures (qs + [q])[i].requestId != (qs + [q])[j].requestId {
      assert (qs + [q])[i] == qs[i] && qs[i] in qs;
    }
    SentByMore(qs, log, a);
    assert (log + [a])[|log|] == a;
  }

  ghost predicate SentOnce(sent: seq<Text>, log: Log) {
    DistinctIds(RequestsOf(sent)) && SentBySteps(RequestsOf(sent), log)
  }

  lemma SentDistinctStep(secret: string, log: Log, s: State, a: Action, c: ConnId)
    requires Reaches(secret, log, s) && Enabled(s, a) && SentOnce(Sent(secret, log, c), log)
    ensures SentOnce(Sent(secret, log, c) + Emitted(secret, a, c), log + [a])
  {
    Always(secret, log, s);
    AllAccounted(secret, log, s, c);
    EmittedRequest(s, a, c);
    var sent, emitted := Sent(secret, log, c), Emitted(secret, a, c);
    RequestsOfAppend(sent, emitted);
    if emitted != [] && RequestIn(emitted[0]).Some? {
      NotSentBefore(secret, log, s, a);
      DistinctAppend(RequestsOf(sent), RequestIn(emitted[0]).value, log, a);
    } else {
      SentByMore(RequestsOf(sent), log, a);
      assert RequestsOf(sent + emitted) == RequestsOf(sent);
    }
  }

  lemma NotSentBefore(secret: string, log: Log, s: State, a: Action)
    requires Reaches(secret, log, s) && Enabled(s, a) && a.Send?
    ensures forall i | 0 <= i < |log| && log[i].Send? :: log[i].rid != a.rid
  {
    RunStep(Init(secret), log, a);
    forall i | 0 <= i < |log| && log[i].Send? ensures log[i].rid != a.rid {
      SendsAreUnique(secret, log + [a], i, |log|);
    }
  }

  /** The requests a connection is ever sent have different ids. */
  lemma {:induction false} SentDistinct(secret: string, log: Log, s: State, c: ConnId)
    requires Reaches(secret, log, s)
    ensures SentOnce(Sent(secret, log, c), log)
    decreases |log|
  {
    if log != [] {
      var n := |log| - 1;
      var mid := Run(Init(secret), log[..n]).value;
      SentDistinct(secret, log[..n], mid, c);
      SentDistinctStep(secret, log[..n], mid, log[n], c);
      assert log[..n] + [log[n]] == log;
    }
  }

  // ---- What a client has received is what it has read ----

  /** The requests received are those among the texts read, in order. */
  ghost predicate ReceivedOf(x: Conn, link: Link) {
    && link.read <= |x.delivered|
    && if x.service.Some? then link.session.received == RequestsOf(x.delivered[..link.read])
       else link.session.received == [] && !link.authed
  }

  lemma ReceivedAfterDelivery(x: Conn, y: Conn, link: Link, next: Link)
    requires ReceivedOf(x, link) && x.delivered <= y.delivered && (y.service == x.service || x.delivered == [])
    requires y.service.None? ==> x.service.None?
    requires next.read == link.read && next.authed == link.authed && next.session.received == link.session.received
    ensures ReceivedOf(y, next)
  {
    assert y.delivered[..link.read] == x.delivered[..link.read];
  }

  lemma ReceivedNext(x: Conn, link: Link, next: Link)
    requires ReceivedOf(x, link) && ReadOf(x, link) && link.read < |x.delivered| && next.read == link.read + 1
    requires var text := x.delivered[link.read];
      if link.authed then next.session == link.session.OnText(text) && next.authed
      else next.session == link.session && (next.authed <==> link.read == 0 && Accepts(TextMessage(text)))
    requires x.service.Some? ==> RequestIn(x.delivered[0]).None?
    requires x.service.None? ==> !Accepts(TextMessage(x.delivered[link.read]))
    ensures ReceivedOf(x, next)
  {
    RequestsOfNext(x.delivered, link.read);
  }

  /** A connection without a service is only ever sent a refusal. */
  lemma NotAccepted(s: State, c: ConnId, i: nat)
    requires c in s.conns && Grammatical(s, c) && i < |s.conns[c].delivered| && s.conns[c].service.None?
    ensures !Accepts(TextMessage(s.conns[c].delivered[i]))
  {
    assert s.conns[c].delivered[i] == s.conns[c].Stream()[i];
  }

  lemma ReceivedReadStep(n: Net, c: ConnId)
    requires NetInv(n) && Possible(n, ReadText(c)) && Grammatical(n.server, c)
    requires ReadOf(n.server.conns[c], n.links[c]) && ReceivedOf(n.server.conns[c], n.links[c])
    ensures ReceivedOf(n.server.conns[c], Advance(n, ReadText(c)).links[c])
  {
    if n.server.conns[c].service.Some? {
      FirstIsAuthOk(n.server, c);
    } else {
      NotAccepted(n.server, c, n.links[c].read);
    }
    ReceivedNext(n.server.conns[c], n.links[c], Advance(n, ReadText(c)).links[c]);
  }

  lemma ServiceStays(s: State, a: Action, c: ConnId)
    requires Inv(s) && Enabled(s, a) && c in s.conns
    ensures c in Apply(s, a).conns && (Apply(s, a).conns[c].service.None? ==> s.conns[c].service.None?)
  {
    ServiceKept(s, a, c);
    SecretKept(s, a);
  }

  lemma ReceivedOfStep(n: Net, a: NetAction, c: ConnId)
    requires Inv(n.server) && NetInv(n) && Possible(n, a) && c in n.links && c in n.server.conns && Grammatical(n.server, c)
    requires ReadOf(n.server.conns[c], n.links[c]) && ReceivedOf(n.server.conns[c], n.links[c])
    ensures c in Advance(n, a).links && c in Advance(n, a).server.conns
    ensures ReceivedOf(Advance(n, a).server.conns[c], Advance(n, a).links[c])
  {
    LinksKept(n, a, c);
    ServerAdvances(n, a);
    if a == ReadText(c) {
      ReceivedReadStep(n, c);
    } else {
      if ServerPart(a) != [] {
        ServerPartEnabled(n, a);
        DeliveredGrows(n.server, ServerPart(a)[0], c);
        ServiceStays(n.server, ServerPart(a)[0], c);
      }
      LinkUnread(n, a, c);
      ReceivedAfterDelivery(n.server.conns[c], Advance(n, a).server.conns[c], n.links[c], Advance(n, a).links[c]);
    }
  }

  lemma LinkBegins(n: Net, a: NetAction, c: ConnId)
    requires NetInv(n) && Possible(n, a) && c !in n.links && c in Advance(n, a).links
    ensures c in Advance(n, a).server.conns && ReceivedOf(Advance(n, a).server.conns[c], Advance(n, a).links[c])
  {
    LinksCreated(n, a, c);
    ServerPartEnabled(n, a);
  }

  lemma {:induction false} AlwaysReceived(secret: string, log: NetLog, n: Net, c: ConnId)
    requires NetRun(secret, log) == Some(n) && c in n.links
    ensures c in n.server.conns && ReceivedOf(n.server.conns[c], n.links[c])
    decreases |log|
  {
    var k := |log| - 1;
    var mid := NetRun(secret, log[..k]).value;
    NetAlways(secret, log[..k], mid);
    if c in mid.links {
      AlwaysReceived(secret, log[..k], mid, c);
      AlwaysRead(secret, log[..k], mid, c);
      NetRunsAreServerRuns(secret, log[..k], mid);
      AlwaysGrammatical(secret, ServerLog(log[..k]), mid.server, c);
      ReceivedOfStep(mid, log[k], c);
    } else {
      LinkBegins(mid, log[k], c);
    }
  }

  lemma DistinctPrefix(qs: seq<TunnelRequest>, all: seq<TunnelRequest>)
    requires qs <= all && DistinctIds(all)
    ensures DistinctIds(qs)
  {
    forall i, j | 0 <= i < j < |qs| ensures qs[i].requestId != qs[j].requestId {
      assert qs[i] == all[i] && qs[j] == all[j];
    }
  }

  /** No client receives a request twice. */
  lemma ReceivedDistinct(secret: string, log: NetLog, n: Net, c: ConnId)
    requires NetRun(secret, log) == Some(n) && c in n.links
    ensures DistinctIds(n.links[c].session.received)
  {
    AlwaysReceived(secret, log, n, c);
    NetRunsAreServerRuns(secret, log, n);
    var sl, x, link := ServerLog(log), n.server.conns[c], n.links[c];
    if x.service.Some? {
      AllAccounted(secret, sl, n.server, c);
      SentDistinct(secret, sl, n.server, c);
      var sent := Sent(secret, sl, c);
      assert sent[..link.read] == x.delivered[..link.read];
      RequestsOfGrows(sent, link.read);
      DistinctPrefix(link.session.received, RequestsOf(sent));
    }
  }

  // ---- No question is answered twice ----

  lemma CountsTwice(ids: seq<string>, i: nat, j: nat)
    requires i < j < |ids| && ids[i] == ids[j]
    ensures multiset(ids)[ids[i]] >= 2
  {
    assert ids == ids[..j] + [ids[j]] + ids[j + 1..];
    assert ids[..j][i] == ids[i];
    assert ids[i] in multiset(ids[..j]);
  }

  lemma CountsOnce(ids: seq<string>, id: string)
    requires forall i, j | 0 <= i < j < |ids| :: ids[i] != ids[j]
    ensures multiset(ids)[id] <= 1
  {
    if id in multiset(ids) {
      var i :| 0 <= i < |ids| && ids[i] == id;
      assert ids == ids[..i] + [id] + ids[i + 1..];
      assert id !in multiset(ids[..i]) && id !in multiset(ids[i + 1..]);
    }
  }

  lemma CarriedResponse(n: Net, c: ConnId, k: nat, rid: RequestId)
    requires NetInv(n) && c in n.links && k < |n.links[c].sink| && Carries(n.links[c].sink[k], rid)
    ensures 0 < k <= |n.links[c].session.written| && n.links[c].session.written[k - 1].requestId == rid
  {
    assert LinkEntry(n, c);
    var link := n.links[c];
    if k == 0 {
      RoundTrip(Auth(AuthMessage("auth", link.config.secret, link.config.service)));
    } else {
      var r := link.session.written[k - 1];
      assert link.sink[(k - 1) + 1] == Serialize(Response(r));
      assert r in link.session.written;
      WrittenAnswersReceived(link.session, r);
      RoundTrip(Response(r));
    }
  }

  /** A client writes at most one answer to a request. */
  lemma AnsweredOnce(secret: string, log: NetLog, n: Net, c: ConnId, rid: RequestId, k: nat, l: nat)
    requires NetRun(secret, log) == Some(n) && c in n.links && k < l < |n.links[c].sink|
    requires Carries(n.links[c].sink[k], rid)
    ensures !Carries(n.links[c].sink[l], rid)
  {
    NetAlways(secret, log, n);
    ReceivedDistinct(secret, log, n, c);
    WrittenOnce(n, c, rid, k, l);
  }

  lemma WrittenOnce(n: Net, c: ConnId, rid: RequestId, k: nat, l: nat)
    requires NetInv(n) && c in n.links && DistinctIds(n.links[c].session.received)
    requires k < l < |n.links[c].sink| && Carries(n.links[c].sink[k], rid)
    ensures !Carries(n.links[c].sink[l], rid)
  {
    if Carries(n.links[c].sink[l], rid) {
      CarriedResponse(n, c, k, rid);
      CarriedResponse(n, c, l, rid);
      SessionConserved(n, c);
      NoTwoAnswers(n.links[c].session, k - 1, l - 1);
    }
  }

  lemma SessionConserved(n: Net, c: ConnId)
    requires NetInv(n) && c in n.links
    ensures n.links[c].session.Conserved()
  {
    assert LinkEntry(n, c);
  }

  lemma NoTwoAnswers(s: Session, i: nat, j: nat)
    requires s.Conserved() && DistinctIds(s.received) && i < j < |s.written|
    ensures s.written[i].requestId != s.written[j].requestId
  {
    WrittenAnswersReceived(s, s.written[i]);
    var asked, answered := RequestIds(s.received), ResponseIds(s.written);
    CountsOnce(asked, s.written[i].requestId);
    if s.written[i].requestId == s.written[j].requestId {
      CountsTwice(answered, i, j);
    }
  }

  lemma SinkUnique(secret: string, log: NetLog, n: Net, c: ConnId, rid: RequestId)
    requires NetRun(secret, log) == Some(n) && c in n.links
    ensures Carriers(n.links[c].sink, rid) <= 1
  {
    var sink := n.links[c].sink;
    forall k, l | 0 <= k < l < |sink| && Carries(sink[k], rid) ensures !Carries(sink[l], rid) {
      AnsweredOnce(secret, log, n, c, rid, k, l);
    }
    CarriersUnique(sink, rid);
  }

  /** However often pushes are cut short and made again, an answer is in one place at most: held,
      being pushed, arrived or given up. So it arrives at most once. */
  lemma OnePlace(secret: string, log: NetLog, n: Net, c: ConnId, rid: RequestId)
    requires NetRun(secret, log) == Some(n) && c in n.links
    ensures c in n.server.conns
    ensures Somewhere(n.server.conns[c], n.links[c], Arrived(ServerLog(log), c), rid) <= Carriers(n.links[c].sink, rid) <= 1
  {
    AlwaysConserved(secret, log, n, c, rid);
    SinkUnique(secret, log, n, c, rid);
    CarriersPrefix(n.links[c].sink, n.links[c].taken, rid);
  }

  // ---- What cannot come never does ----

  lemma AdapterEnds(n: Net, a: NetAction, c: ConnId)
    requires NetInv(n) && Possible(n, a) && c in n.links
    ensures c in Advance(n, a).links
    ensures var link, next := n.links[c], Advance(n, a).links[c];
      && (link.stopped ==> next.stopped) && link.dropped <= next.dropped
      && (!link.up ==> !next.up && next.sink == link.sink)
  {
    if a.Connect? {
      ServerPartEnabled(n, a);
    }
  }

  lemma NoPushBegins(n: Net, a: NetAction, c: ConnId, rid: RequestId)
    requires Possible(n, a) && ServerPart(a) != [] && c in n.links && n.links[c].stopped
    ensures Begun(n.server, ServerPart(a)[0], c, rid) == 0
  {
  }

  lemma {:induction false} DroppedStays(texts: seq<Text>, more: seq<Text>, rid: RequestId)
    requires texts <= more
    ensures Carriers(texts, rid) <= Carriers(more, rid)
  {
    assert more[..|texts|] == texts;
    CarriersPrefix(more, |texts|, rid);
  }

  /** Once the adapter has stopped with no answer on its way, none gets on its way. */
  lemma StoppedStays(n: Net, a: NetAction, sl: Log, rid: RequestId, c: ConnId)
    requires NetInv(n) && Possible(n, a) && c in n.links && c in n.server.conns
    requires n.server.conns[c].calls.Keys <= n.server.conns[c].used
    requires n.links[c].stopped && !OnTheWay(n, sl, rid, c)
    ensures c in Advance(n, a).server.conns && !OnTheWay(Advance(n, a), sl + ServerPart(a), rid, c)
  {
    ArrivedExtends(sl, ServerPart(a), c);
    ServerAdvances(n, a);
    if ServerPart(a) == [] {
      assert Arrived(sl, c) + [] == Arrived(sl, c);
    } else {
      ServerPartEnabled(n, a);
      NoPushBegins(n, a, c, rid);
      PushesBalance(n.server, ServerPart(a)[0], c, rid);
      ArrivalsBalance(Arrived(sl, c), ServerPart(a)[0], c, rid);
    }
  }

  /** When an answer was given up, or its client ended without writing it, it is not on its way. */
  lemma NotOnTheWay(secret: string, log: NetLog, n: Net, c: ConnId, rid: RequestId)
    requires NetRun(secret, log) == Some(n) && c in n.links && c in n.server.conns
    requires Carriers(n.links[c].dropped, rid) > 0 || Carriers(n.links[c].sink, rid) == 0
    ensures !OnTheWay(n, ServerLog(log), rid, c)
  {
    OnePlace(secret, log, n, c, rid);
  }

  lemma CannotComeStep(secret: string, log: NetLog, n: Net, a: NetAction, rid: RequestId, c: ConnId)
    requires NetRun(secret, log) == Some(n) && Possible(n, a) && c in n.links && c in n.server.conns
    requires !CanCome(n, ServerLog(log), rid, c)
    ensures c in Advance(n, a).links && c in Advance(n, a).server.conns
    ensures !CanCome(Advance(n, a), ServerLog(log + [a]), rid, c)
  {
    NetAlways(secret, log, n);
    NetStep(secret, log, n, a);
    AdapterEnds(n, a, c);
    AlwaysConserved(secret, log + [a], Advance(n, a), c, rid);
    DroppedStays(n.links[c].dropped, Advance(n, a).links[c].dropped, rid);
    if n.links[c].stopped {
      NetRunsAreServerRuns(secret, log, n);
      JunkErasure.AlwaysOnceEach(secret, ServerLog(log), n.server, c);
      StoppedStays(n, a, ServerLog(log), rid, c);
      assert (log + [a])[..|log|] == log;
    } else {
      NotOnTheWay(secret, log + [a], Advance(n, a), c, rid);
    }
  }

  /** After this run no answer to rid can come over c. */
  ghost predicate Hopeless(secret: string, log: NetLog, rid: RequestId, c: ConnId) {
    && NetRun(secret, log).Some?
    && var n := NetRun(secret, log).value;
    c in n.links && c in n.server.conns && !CanCome(n, ServerLog(log), rid, c)
  }

  lemma HopelessStep(secret: string, log: NetLog, a: NetAction, rid: RequestId, c: ConnId)
    requires Hopeless(secret, log, rid, c) && NetRun(secret, log + [a]).Some?
    ensures Hopeless(secret, log + [a], rid, c)
  {
    assert (log + [a])[..|log|] == log;
    CannotComeStep(secret, log, NetRun(secret, log).value, a, rid, c);
  }

  /** An answer that cannot come never comes, whatever happens afterwards. */
  lemma {:induction false} CannotComeNeverDoes(secret: string, log: NetLog, more: NetLog, rid: RequestId, c: ConnId)
    requires Hopeless(secret, log, rid, c) && NetRun(secret, log + more).Some?
    ensures Hopeless(secret, log + more, rid, c)
    decreases |more|
  {
    if more == [] {
      assert log + more == log;
    } else {
      var k := |more| - 1;
      assert log + more == (log + more[..k]) + [more[k]];
      assert (log + more)[..|log| + k] == log + more[..k];
      NetPrefix(secret, log + more, |log| + k);
      CannotComeNeverDoes(secret, log, more[..k], rid, c);
      HopelessStep(secret, log + more[..k], more[k], rid, c);
    }
  }

  lemma {:induction false} ServerLogGrows(log: NetLog, k: nat)
    requires k <= |log|
    ensures ServerLog(log[..k]) <= ServerLog(log)
    decreases |log|
  {
    if k == |log| {
      assert log[..k] == log;
    } else {
      var last := |log| - 1;
      assert log[..last][..k] == log[..k];
      ServerLogGrows(log[..last], k);
    }
  }

  lemma AnswerArrived(secret: string, log: NetLog, n: Net, rid: RequestId)
    requires NetRun(secret, log) == Some(n) && Answered(n, rid)
    ensures n.server.dispatches[rid].route.Some?
    ensures var arrived := Arrived(ServerLog(log), n.server.dispatches[rid].route.value);
            !NoneAnswers(arrived, rid, 0, |arrived|)
  {
    FirstAnswerWins(secret, log, n, rid);
    var r := n.server.dispatches[rid].progress.result.value;
    var arrived := Arrived(ServerLog(log), n.server.dispatches[rid].route.value);
    var i: nat :| i < |arrived| && ResponseIn(arrived[i].text) == Some(r) && NoneAnswers(arrived, rid, 0, i);
    NetAlways(secret, log, n);
    assert DispatchEntry(n.server, rid);
  }

  lemma RouteStays(secret: string, log: NetLog, n: Net, k: nat, m: Net, rid: RequestId)
    requires NetRun(secret, log) == Some(n) && k <= |log| && NetRun(secret, log[..k]) == Some(m) && rid in m.server.dispatches
    ensures rid in n.server.dispatches && n.server.dispatches[rid].route == m.server.dispatches[rid].route
  {
    NetRunsAreServerRuns(secret, log, n);
    NetRunsAreServerRuns(secret, log[..k], m);
    ServerLogGrows(log, k);
    var sl, i := ServerLog(log), |ServerLog(log[..k])|;
    assert sl[..i] == ServerLog(log[..k]);
    ResultsAreFinal(secret, sl, n.server, i, rid);
  }

  /** A dispatch that returned a response had its answer arrive. */
  lemma AnsweredCouldCome(secret: string, log: NetLog, n: Net, rid: RequestId, c: ConnId)
    requires NetRun(secret, log) == Some(n) && Answered(n, rid) && n.server.dispatches[rid].route == Some(c)
    requires c in n.links && c in n.server.conns
    ensures CanCome(n, ServerLog(log), rid, c)
  {
    AnswerArrived(secret, log, n, rid);
    var arrived := Arrived(ServerLog(log), c);
    var i :| 0 <= i < |arrived| && Carries(arrived[i].text, rid);
    CarrierCounts(TextsOf(arrived), rid, i);
  }

  /** Exactly when an answer can still be had. In every network run, a dispatch that sends or
      waits, on a route that is registered and not closed, can be brought to return a response if
      and only if its answer can come: it is being pushed or has arrived, or the adapter still
      pushes and has not given it up, and the client still runs or has written it. */
  lemma AnswerPossible(secret: string, log: NetLog, n: Net, rid: RequestId, c: ConnId, service: TunnelRequest -> Outcome)
    requires NetRun(secret, log) == Some(n) && Awaiting(n, rid, c)
    ensures CanCome(n, ServerLog(log), rid, c)
       <==> exists more :: NetRun(secret, log + more).Some? && Answered(NetRun(secret, log + more).value, rid)
  {
    if CanCome(n, ServerLog(log), rid, c) {
      var more := AnswerReachable(secret, log, n, rid, c, service);
    }
    forall more | NetRun(secret, log + more).Some? && Answered(NetRun(secret, log + more).value, rid)
      ensures CanCome(n, ServerLog(log), rid, c)
    {
      if !CanCome(n, ServerLog(log), rid, c) {
        var m := NetRun(secret, log + more).value;
        assert (log + more)[..|log|] == log;
        CannotComeNeverDoes(secret, log, more, rid, c);
        RouteStays(secret, log + more, m, |log|, n, rid);
        AnsweredCouldCome(secret, log + more, m, rid, c);
      }
    }
  }
}
