/** What holds along network runs: who wrote what arrived, which answer wins, and what a client
    has taken in. */
module NetHistory {
  import opened Wrappers
  import opened Tunnel
  import opened Invariants
  import opened Streams
  import opened History
  import opened Arrivals
  import opened Client
  import opened EndToEnd

  // ---- Network runs and their prefixes ----

  lemma {:induction false} NetPrefix(secret: string, log: NetLog, k: nat)
    requires k <= |log| && NetRun(secret, log).Some?
    ensures NetRun(secret, log[..k]).Some?
    decreases |log| - k
  {
    if k < |log| {
      NetPrefix(secret, log, k + 1);
      assert log[..k + 1][..k] == log[..k];
    } else {
      assert log[..k] == log;
    }
  }

  lemma NetStep(secret: string, log: NetLog, n: Net, a: NetAction)
    requires NetRun(secret, log) == Some(n) && Possible(n, a)
    ensures NetRun(secret, log + [a]) == Some(Advance(n, a))
  {
    assert (log + [a])[..|log|] == log;
  }

  /** The network step that includes step j of the server. */
  lemma {:induction false} NetStepOf(secret: string, log: NetLog, j: nat) returns (k: nat)
    requires NetRun(secret, log).Some? && j < |ServerLog(log)|
    ensures k < |log| && NetRun(secret, log[..k]).Some? && Possible(NetRun(secret, log[..k]).value, log[k])
    ensures ServerLog(log[..k]) == ServerLog(log)[..j] && ServerPart(log[k]) == [ServerLog(log)[j]]
    decreases |log|
  {
    var last := |log| - 1;
    var before := ServerLog(log[..last]);
    if j < |before| {
      k := NetStepOf(secret, log[..last], j);
      assert log[..last][..k] == log[..k] && log[..last][k] == log[k];
      assert ServerLog(log)[..j] == before[..j] && ServerLog(log)[j] == before[j];
    } else {
      k := last;
      assert ServerLog(log)[..j] == before;
    }
  }

  // ---- Only the client's own texts arrive, and no answer before its question ----

  lemma {:induction false} ArrivedFromClient(secret: string, log: NetLog, n: Net, c: ConnId)
    requires NetRun(secret, log) == Some(n)
    ensures c in n.links ==> forall p <- Arrived(ServerLog(log), c) :: p.text in n.links[c].sink
    ensures c !in n.links ==> Arrived(ServerLog(log), c) == []
    decreases |log|
  {
    NetAlways(secret, log, n);
    NetRunsAreServerRuns(secret, log, n);
    if c !in n.links {
      AllAccounted(secret, ServerLog(log), n.server, c);
    } else if log != [] {
      var k := |log| - 1;
      var mid := NetRun(secret, log[..k]).value;
      ArrivedFromClient(secret, log[..k], mid, c);
      NetAlways(secret, log[..k], mid);
      ArrivalsGrow(mid, log[k], ServerLog(log[..k]), c);
    }
  }

  lemma ArrivalsGrow(n: Net, a: NetAction, log: Log, c: ConnId)
    requires NetInv(n) && Possible(n, a) && c in Advance(n, a).links
    requires c in n.links ==> forall p <- Arrived(log, c) :: p.text in n.links[c].sink
    requires c !in n.links ==> Arrived(log, c) == []
    ensures forall p <- Arrived(log + ServerPart(a), c) :: p.text in Advance(n, a).links[c].sink
  {
    ArrivedExtends(log, ServerPart(a), c);
    if c in n.links {
      LinksKept(n, a, c);
      if ServerPart(a) != [] {
        BroughtByClient(n, a, c);
      }
    } else {
      LinksCreated(n, a, c);
    }
  }

  lemma ArrivedExtends(log: Log, part: Log, c: ConnId)
    requires |part| <= 1
    ensures Arrived(log + part, c) == Arrived(log, c) + if part == [] then [] else BroughtBy(part[0], c)
  {
    if part == [] {
      assert log + part == log;
    } else {
      assert (log + part)[..|log|] == log;
    }
  }

  lemma BroughtByClient(n: Net, a: NetAction, c: ConnId)
    requires NetInv(n) && Possible(n, a) && c in n.links && ServerPart(a) != []
    ensures forall p <- BroughtBy(ServerPart(a)[0], c) :: p.text in n.links[c].sink
  {
    ServerPartEnabled(n, a);
    assert LinkEntry(n, c);
  }

  /** A link stays, with the same configuration, and what it wrote stays written. */
  lemma LinksKept(n: Net, a: NetAction, c: ConnId)
    requires NetInv(n) && Possible(n, a) && c in n.links
    ensures c in Advance(n, a).links && n.links[c].sink <= Advance(n, a).links[c].sink
  {
    if a.Connect? {
      ServerPartEnabled(n, a);
    }
  }

  lemma LinksCreated(n: Net, a: NetAction, c: ConnId)
    requires Possible(n, a) && c !in n.links && c in Advance(n, a).links
    ensures a.Connect? && c == n.server.nextConnId
    ensures Advance(n, a).links[c] == NewLink(a.config)
  {
  }

  /** When a request is admitted nothing that reached any connection answers it yet: clients only
      answer what they were asked, and its id is new. */
  lemma NoEarlyAnswer(secret: string, log: NetLog, n: Net, rid: RequestId, c: ConnId, j: nat)
    requires NetRun(secret, log) == Some(n) && j < |ServerLog(log)|
    requires ServerLog(log)[j].Admit? && ServerLog(log)[j].request.requestId == rid
    ensures forall p <- Arrived(ServerLog(log)[..j], c) :: !Carries(p.text, rid)
  {
    var k := NetStepOf(secret, log, j);
    var mid := NetRun(secret, log[..k]).value;
    NetAlways(secret, log[..k], mid);
    ArrivedFromClient(secret, log[..k], mid, c);
    ServerPartEnabled(mid, log[k]);
    forall p <- Arrived(ServerLog(log)[..j], c) ensures !Carries(p.text, rid) {
      if Carries(p.text, rid) {
        WrittenResponse(mid, c, p.text);
      }
    }
  }

  lemma NoneFromTheStart(arrived: seq<Push>, early: seq<Push>, rid: RequestId, m: nat, n: nat)
    requires early <= arrived && m <= |early| && n <= |arrived|
    requires forall p <- early :: !Carries(p.text, rid)
    requires NoneAnswers(arrived, rid, m, n)
    ensures NoneAnswers(arrived, rid, 0, n)
  {
    forall k | 0 <= k < n ensures !Carries(arrived[k].text, rid) {
      assert k < |early| ==> arrived[k] == early[k] && early[k] in early;
    }
  }

  /** The first answer wins. In every network run, Ok(r) carries the first message that ever
      answered the request on its connection, and Disconnected means that none ever did. */
  lemma FirstAnswerWins(secret: string, log: NetLog, n: Net, rid: RequestId)
    requires NetRun(secret, log) == Some(n) && rid in n.server.dispatches && n.server.dispatches[rid].progress.Done?
    ensures match n.server.dispatches[rid].progress.result
      case Ok(r) =>
        && n.server.dispatches[rid].route.Some?
        && var arrived := Arrived(ServerLog(log), n.server.dispatches[rid].route.value);
        exists i: nat :: i < |arrived| && ResponseIn(arrived[i].text) == Some(r) && NoneAnswers(arrived, rid, 0, i)
      case Err(Disconnected) =>
        && n.server.dispatches[rid].route.Some?
        && var arrived := Arrived(ServerLog(log), n.server.dispatches[rid].route.value);
        NoneAnswers(arrived, rid, 0, |arrived|)
      case _ => true
  {
    NetRunsAreServerRuns(secret, log, n);
    var sl, d := ServerLog(log), n.server.dispatches[rid];
    var j := ResultsFollowArrivals(secret, sl, n.server, rid);
    if d.progress.result.Ok? || d.progress.result.error.Disconnected? {
      var c := d.route.value;
      DispatchNamed(secret, log, n, rid);
      NoEarlyAnswer(secret, log, n, rid, c, j);
      PrefixAt(sl, c, n.server, secret, j);
      var r := d.progress.result;
      if r.Ok? {
        var i: nat :| Unread(sl, c, j) <= i < |Arrived(sl, c)| && ResponseIn(Arrived(sl, c)[i].text) == Some(r.value)
                      && NoneAnswers(Arrived(sl, c), rid, Unread(sl, c, j), i);
        NoneFromTheStart(Arrived(sl, c), Arrived(sl[..j], c), rid, Unread(sl, c, j), i);
      } else {
        NoneFromTheStart(Arrived(sl, c), Arrived(sl[..j], c), rid, Unread(sl, c, j), |Arrived(sl, c)|);
      }
    }
  }

  lemma DispatchNamed(secret: string, log: NetLog, n: Net, rid: RequestId)
    requires NetRun(secret, log) == Some(n) && rid in n.server.dispatches
    ensures n.server.dispatches[rid].request.requestId == rid
  {
    NetAlways(secret, log, n);
    assert DispatchEntry(n.server, rid);
  }

  // ---- A waiting dispatch's request was sent, and what was delivered is read ----

  lemma WaitingStep(s: State, a: Action, rid: RequestId)
    requires Enabled(s, a) && rid in Apply(s, a).dispatches && Apply(s, a).dispatches[rid].progress.Waiting?
    ensures rid in s.dispatches && (s.dispatches[rid].progress.Waiting? || (a.Send? && a.rid == rid))
  {
    if rid !in s.dispatches {
      NewDispatch(s, a, rid);
    } else if MovesDispatch(a) {
      OnlyProgressWritten(s, a, rid);
    } else if a.Relay? || a.Cleanup? {
      OnlySlotsWritten(s, a);
    } else {
      DispatchesUntouched(s, a);
    }
  }

  lemma SendShape(s: State, a: Action)
    requires Enabled(s, a) && a.Send?
    ensures a.rid in s.dispatches && s.dispatches[a.rid].route == Some(a.c)
    ensures a.text == RequestText(s.dispatches[a.rid].request)
  {
  }

  lemma {:induction false} WaitingWasSent(secret: string, log: Log, s: State, rid: RequestId)
    requires Reaches(secret, log, s) && rid in s.dispatches && s.dispatches[rid].progress.Waiting?
    ensures s.dispatches[rid].route.Some?
    ensures RequestText(s.dispatches[rid].request) in Sent(secret, log, s.dispatches[rid].route.value)
    decreases |log|
  {
    var n := |log| - 1;
    var mid := Run(Init(secret), log[..n]).value;
    WaitingStep(mid, log[n], rid);
    DispatchKept(mid, log[n], rid);
    if mid.dispatches[rid].progress.Waiting? {
      WaitingWasSent(secret, log[..n], mid, rid);
    } else {
      SendShape(mid, log[n]);
    }
  }

  /** The client of an authenticated connection has taken in every request it has read. */
  ghost predicate ReadOf(x: Conn, link: Link) {
    && link.read <= |x.delivered|
    && (x.service.Some? && link.read > 0 ==> link.authed)
    && (x.service.Some? ==>
          forall i | 0 <= i < link.read && RequestIn(x.delivered[i]).Some? ::
            RequestIn(x.delivered[i]).value in link.session.received)
  }

  /** What a server step may do to a connection from its client's point of view. */
  lemma DeliveredGrows(s: State, a: Action, c: ConnId)
    requires Inv(s) && Enabled(s, a) && c in s.conns
    ensures c in Apply(s, a).conns && s.conns[c].delivered <= Apply(s, a).conns[c].delivered
    ensures Apply(s, a).conns[c].service == s.conns[c].service || s.conns[c].delivered == []
  {
    EmittedIsAppended(s, a, c);
    ServiceDecided(s, a, c);
    ServiceKept(s, a, c);
    assert ConnEntry(s, c);
  }

  lemma ReadAfterDelivery(x: Conn, y: Conn, link: Link, next: Link)
    requires ReadOf(x, link) && x.delivered <= y.delivered && (y.service == x.service || x.delivered == [])
    requires next.read == link.read && next.authed == link.authed && next.session.received == link.session.received
    ensures ReadOf(y, next)
  {
  }

  lemma ReadStep(n: Net, c: ConnId)
    requires NetInv(n) && Possible(n, ReadText(c)) && Grammatical(n.server, c) && ReadOf(n.server.conns[c], n.links[c])
    ensures ReadOf(n.server.conns[c], Advance(n, ReadText(c)).links[c])
  {
    if n.server.conns[c].service.Some? {
      FirstIsAuthOk(n.server, c);
    }
    ReadNext(n.server.conns[c], n.links[c], Advance(n, ReadText(c)).links[c]);
  }

  /** A connection with a service has nothing before auth_ok in its stream. */
  lemma FirstIsAuthOk(s: State, c: ConnId)
    requires c in s.conns && Grammatical(s, c) && s.conns[c].delivered != [] && s.conns[c].service.Some?
    ensures s.conns[c].delivered[0] == AuthOkText() && Accepts(TextMessage(AuthOkText())) && RequestIn(AuthOkText()).None?
  {
    AuthOkParses();
    assert s.conns[c].delivered[0] == s.conns[c].Stream()[0];
  }

  lemma ReadNext(x: Conn, link: Link, next: Link)
    requires ReadOf(x, link) && link.read < |x.delivered| && next.read == link.read + 1
    requires var text := x.delivered[link.read];
      if link.authed then next.authed && next.session == link.session.OnText(text)
      else next.session == link.session && (next.authed <==> link.read == 0 && Accepts(TextMessage(text)))
    requires x.service.Some? ==> Accepts(TextMessage(x.delivered[0])) && RequestIn(x.delivered[0]).None?
    ensures ReadOf(x, next)
  {
  }

  lemma ReadOfStep(n: Net, a: NetAction, c: ConnId)
    requires Inv(n.server) && NetInv(n) && Possible(n, a) && c in n.links && c in n.server.conns
    requires ReadOf(n.server.conns[c], n.links[c]) && Grammatical(n.server, c)
    ensures c in Advance(n, a).links && c in Advance(n, a).server.conns
    ensures ReadOf(Advance(n, a).server.conns[c], Advance(n, a).links[c])
  {
    LinksKept(n, a, c);
    ServerAdvances(n, a);
    if a == ReadText(c) {
      ReadStep(n, c);
    } else {
      if ServerPart(a) != [] {
        ServerPartEnabled(n, a);
        DeliveredGrows(n.server, ServerPart(a)[0], c);
      }
      LinkUnread(n, a, c);
      ReadAfterDelivery(n.server.conns[c], Advance(n, a).server.conns[c], n.links[c], Advance(n, a).links[c]);
    }
  }

  lemma LinkUnread(n: Net, a: NetAction, c: ConnId)
    requires NetInv(n) && Possible(n, a) && c in n.links && a != ReadText(c)
    ensures c in Advance(n, a).links
    ensures var link, next := n.links[c], Advance(n, a).links[c];
      next.read == link.read && next.authed == link.authed && next.session.received == link.session.received
  {
    if a.Connect? {
      ServerPartEnabled(n, a);
    }
  }

  lemma {:induction false} AlwaysRead(secret: string, log: NetLog, n: Net, c: ConnId)
    requires NetRun(secret, log) == Some(n) && c in n.links
    ensures c in n.server.conns && ReadOf(n.server.conns[c], n.links[c])
    decreases |log|
  {
    NetAlways(secret, log, n);
    assert LinkEntry(n, c);
    var k := |log| - 1;
    var mid := NetRun(secret, log[..k]).value;
    NetAlways(secret, log[..k], mid);
    if c in mid.links {
      AlwaysRead(secret, log[..k], mid, c);
      NetRunsAreServerRuns(secret, log[..k], mid);
      AlwaysGrammatical(secret, ServerLog(log[..k]), mid.server, c);
      ReadOfStep(mid, log[k], c);
    } else {
      LinksCreated(mid, log[k], c);
    }
  }
}
