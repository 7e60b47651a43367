/** The server composed with the repository's client: every answer a caller gets was produced
    for exactly that caller's request, on the connection that held the service. */
module EndToEnd {
  import opened Wrappers
  import opened Protocol
  import opened Tunnel
  import opened Invariants
  import opened Streams
  import opened History
  import opened Client
  import opened Secret
  import opened Http

  /** One client connection, and the adapter that pushes what the client writes. */
  datatype Link = Link(
    config: ClientConfig,
    authed: bool,
    read: nat,             // how far the client has read what the server delivered
    session: Session,
    sink: seq<Text>,       // written to the WebSocket
    up: bool,              // the client's loop is still going
    taken: nat,            // how much of the sink the adapter has taken up
    held: seq<Text>,       // taken up, to be pushed, or pushed again
    dropped: seq<Text>,    // taken up and given up for good: Ruby raised out of the push
    stopped: bool)         // the adapter pushes no more

  function NewLink(config: ClientConfig): Link {
    Link(config, false, 0, NEW_SESSION, [AuthText(config)], true, 0, [], [], false)
  }

  function Without(texts: seq<Text>, i: nat): seq<Text>
    requires i < |texts|
  {
    texts[..i] + texts[i + 1..]
  }

  datatype Net = Net(server: State, links: map<ConnId, Link>)
  {
    function WithLink(c: ConnId, link: Link): Net {
      this.(links := links[c := link])
    }
  }

  datatype NetAction =
    | Connect(config: ClientConfig)               // a connection is created; the client sends auth
    | Server(action: Action)
    | ReadText(c: ConnId)
    | FinishForward(c: ConnId, task: nat, outcome: Outcome)
    | WriteResponse(c: ConnId)
    | Quit(c: ConnId)                             // the client's loop ends, whatever made it
    | Take(c: ConnId)                             // the adapter takes up the client's next text
    | Transmit(c: ConnId, i: nat, push: Push)     // and begins to push one that it holds
    | CutShort(c: ConnId, push: Push)             // an interrupt ends a push; the text is held again
    | Raise(c: ConnId, i: nat)                    // Ruby raises: a text that is held is given up
    | Stop(c: ConnId)                             // the adapter's reader ends

  /** The server step a network step includes, if any. */
  function ServerPart(a: NetAction): Log {
    match a
    case Connect(_) => [Create]
    case Server(action) => [action]
    case Transmit(c, _, p) => [BeginPush(c, p)]
    case CutShort(c, p) => [Abandon(c, p)]
    case _ => []
  }

  ghost predicate Possible(n: Net, a: NetAction) {
    && (forall action <- ServerPart(a) :: Enabled(n.server, action))
    && match a
       case Connect(_) => true
       case Server(action) => !action.Create? && !action.BeginPush? && !action.Abandon?
       case ReadText(c) =>
         c in n.links && n.links[c].up && c in n.server.conns && n.links[c].read < |n.server.conns[c].delivered|
       case FinishForward(c, i, _) => c in n.links && n.links[c].up && i < |n.links[c].session.running|
       case WriteResponse(c) => c in n.links && n.links[c].up && n.links[c].session.queue != []
       case Take(c) => c in n.links && !n.links[c].stopped && n.links[c].taken < |n.links[c].sink|
       case Transmit(c, i, p) =>
         c in n.links && !n.links[c].stopped && i < |n.links[c].held| && p.text == n.links[c].held[i]
       case CutShort(c, _) => c in n.links
       case Raise(c, i) => c in n.links && i < |n.links[c].held|
       case Quit(c) => c in n.links
       case Stop(c) => c in n.links
  }

  ghost function Advance(n: Net, a: NetAction): Net
    requires Possible(n, a)
  {
    match a
    case Connect(config) => Net(Apply(n.server, Create), n.links[n.server.nextConnId := NewLink(config)])
    case Server(action) => n.(server := Apply(n.server, action))
    case ReadText(c) =>
      var link := n.links[c];
      var text := n.server.conns[c].delivered[link.read];
      n.WithLink(c,
        if link.authed then link.(read := link.read + 1, session := link.session.OnText(text))
        else link.(read := link.read + 1, authed := link.read == 0 && Accepts(TextMessage(text))))
    case FinishForward(c, i, outcome) =>
      n.WithLink(c, n.links[c].(session := n.links[c].session.Finish(i, outcome)))
    case WriteResponse(c) =>
      var link := n.links[c];
      n.WithLink(c, link.(session := link.session.Write(), sink := link.sink + [Serialize(Response(link.session.queue[0]))]))
    case Quit(c) => n.WithLink(c, n.links[c].(up := false))
    case Take(c) =>
      var link := n.links[c];
      n.WithLink(c, link.(taken := link.taken + 1, held := link.held + [link.sink[link.taken]]))
    case Transmit(c, i, p) =>
      n.(server := Apply(n.server, BeginPush(c, p))).WithLink(c, n.links[c].(held := Without(n.links[c].held, i)))
    case CutShort(c, p) =>
      n.(server := Apply(n.server, Abandon(c, p))).WithLink(c, n.links[c].(held := n.links[c].held + [p.text]))
    case Raise(c, i) =>
      var link := n.links[c];
      n.WithLink(c, link.(held := Without(link.held, i), dropped := link.dropped + [link.held[i]]))
    case Stop(c) => n.WithLink(c, n.links[c].(stopped := true))
  }

  type NetLog = seq<NetAction>

  ghost function NetRun(secret: string, log: NetLog): Option<Net> {
    if log == [] then Some(Net(Init(secret), map[]))
    else
      var k := |log| - 1;
      match NetRun(secret, log[..k])
      case None => None
      case Some(n) => if Possible(n, log[k]) then Some(Advance(n, log[k])) else None
  }

  /** What the server sees of a network run. */
  function ServerLog(log: NetLog): Log {
    if log == [] then [] else ServerLog(log[..|log| - 1]) + ServerPart(log[|log| - 1])
  }

  lemma ServerAdvances(n: Net, a: NetAction)
    requires Possible(n, a)
    ensures Advance(n, a).server ==
      if ServerPart(a) == [] then n.server else Apply(n.server, ServerPart(a)[0])
  {
    assert ServerPart(a) != [] ==> ServerPart(a)[0] in ServerPart(a);
  }

  /** A network run is a server run: everything proved of the server holds in the network. */
  lemma {:induction false} NetRunsAreServerRuns(secret: string, log: NetLog, n: Net)
    requires NetRun(secret, log) == Some(n)
    ensures Reaches(secret, ServerLog(log), n.server)
    decreases |log|
  {
    if log != [] {
      var k := |log| - 1;
      var mid := NetRun(secret, log[..k]).value;
      NetRunsAreServerRuns(secret, log[..k], mid);
      ServerAdvances(mid, log[k]);
      var part := ServerPart(log[k]);
      if part == [] {
        assert ServerLog(log) == ServerLog(log[..k]);
      } else {
        assert part[0] in part && part == [part[0]];
        RunStep(Init(secret), ServerLog(log[..k]), part[0]);
      }
    }
  }

  // ---- What the network keeps ----

  /** The client received q on c because c is where q's dispatch was routed. */
  ghost predicate RequestOf(s: State, c: ConnId, q: TunnelRequest) {
    && q.requestId in s.dispatches
    && s.dispatches[q.requestId].request == q && s.dispatches[q.requestId].route == Some(c)
  }

  ghost predicate LinkEntry(n: Net, c: ConnId) {
    && c in n.links && c in n.server.conns
    && var link := n.links[c];
    && link.session.Conserved()
    && Transcript(link.sink, link.config, link.session.written)
    && (link.authed ==> link.read > 0)
    && (forall q <- link.session.received :: RequestOf(n.server, c, q))
    && AllFrom(n.server.conns[c], link.sink)
    && link.taken <= |link.sink| && (forall text <- link.held :: text in link.sink)
  }

  /** Whatever is on its way into the connection was written by the client. */
  ghost predicate AllFrom(x: Conn, sink: seq<Text>) {
    && (forall i | 0 <= i < |x.incoming| :: x.incoming[i].text in sink)
    && (forall k <- x.calls :: x.calls[k] in sink)
  }

  /** r was produced on c by forwarding exactly q. */
  ghost predicate ProducedFor(link: Link, q: TunnelRequest, r: TunnelResponse) {
    exists f :: f in link.session.forwards && f.request == q && r == f.Response()
  }

  ghost predicate AnswerEntry(n: Net, rid: RequestId) {
    && rid in n.server.dispatches
    && var d := n.server.dispatches[rid];
    d.route.Some? && d.slot.Full? ==> d.route.value in n.links && ProducedFor(n.links[d.route.value], d.request, d.slot.response)
  }

  ghost predicate NetInv(n: Net) {
    && n.links.Keys == n.server.conns.Keys
    && (forall c {:trigger LinkEntry(n, c)} | c in n.links :: LinkEntry(n, c))
    && (forall rid {:trigger AnswerEntry(n, rid)} | rid in n.server.dispatches :: AnswerEntry(n, rid))
  }

  /** A response a client of the network wrote comes from forwarding the request of the
      dispatch it names. */
  lemma WrittenResponse(n: Net, c: ConnId, text: Text)
    requires Inv(n.server) && NetInv(n) && c in n.links && text in n.links[c].sink && ResponseIn(text).Some?
    ensures var r := ResponseIn(text).value;
      && r.requestId in n.server.dispatches
      && ProducedFor(n.links[c], n.server.dispatches[r.requestId].request, r)
  {
    assert LinkEntry(n, c);
    var link := n.links[c];
    var i :| 0 <= i < |link.sink| && link.sink[i] == text;
    if i == 0 {
      RoundTrip(Auth(AuthMessage("auth", link.config.secret, link.config.service)));
    } else {
      var written := link.session.written[i - 1];
      WrittenAnswersReceived(link.session, written);
      assert link.sink[(i - 1) + 1] == Serialize(Response(written));
      assert written in link.session.written;
      var f :| f in link.session.forwards && f.request in link.session.received && written == f.Response();
      RoundTrip(Response(written));
      assert RequestOf(n.server, c, f.request);
    }
  }

  lemma IntakeStaysFrom(s: State, a: Action, c: ConnId, sink: seq<Text>)
    requires Enabled(s, a) && c in s.conns && AllFrom(s.conns[c], sink)
    requires a.BeginPush? && a.c == c ==> a.push.text in sink
    ensures c in Apply(s, a).conns && AllFrom(Apply(s, a).conns[c], sink)
  {
    if !Touches(a, c) {
      Untouched(s, a, c);
    }
  }

  lemma LinksThroughServerStep(n: Net, a: Action, m: Net)
    requires NetInv(n) && Enabled(n.server, a) && !a.Create? && m.server == Apply(n.server, a)
    requires m.links == n.links
    requires a.BeginPush? ==> a.c in n.links && a.push.text in n.links[a.c].sink
    ensures m.links.Keys == m.server.conns.Keys
    ensures forall c <- m.links :: LinkEntry(m, c)
  {
    KeysKept(n.server, a);
    forall c <- m.links ensures LinkEntry(m, c) {
      assert LinkEntry(n, c);
      IntakeStaysFrom(n.server, a, c, n.links[c].sink);
      forall q <- m.links[c].session.received ensures RequestOf(m.server, c, q) {
        DispatchKept(n.server, a, q.requestId);
      }
    }
  }

  lemma KeysKept(s: State, a: Action)
    requires Enabled(s, a) && !a.Create?
    ensures Apply(s, a).conns.Keys == s.conns.Keys
  {
  }

  lemma AnswerStep(n: Net, a: Action, m: Net, rid: RequestId)
    requires Inv(n.server) && NetInv(n) && Enabled(n.server, a) && m.server == Apply(n.server, a)
    requires forall c <- n.links :: c in m.links && m.links[c] == n.links[c]
    requires rid in n.server.dispatches
    ensures AnswerEntry(m, rid)
  {
    assert AnswerEntry(n, rid);
    DispatchKept(n.server, a, rid);
    var d := n.server.dispatches[rid];
    if d.route.Some? {
      var c := d.route.value;
      SlotStep(n.server, a, rid, c);
      if rid in n.server.pending && Answers(a, rid, c) {
        RelayedResponse(n, c, a.push);
      }
    }
  }

  lemma RelayedResponse(n: Net, c: ConnId, p: Push)
    requires Inv(n.server) && NetInv(n) && Enabled(n.server, Relay(c, p)) && ResponseIn(p.text).Some?
    ensures c in n.links
    ensures var r := ResponseIn(p.text).value;
      && r.requestId in n.server.dispatches
      && ProducedFor(n.links[c], n.server.dispatches[r.requestId].request, r)
  {
    assert LinkEntry(n, c);
    WrittenResponse(n, c, p.text);
  }

  lemma AnswersThroughServerStep(n: Net, a: Action, m: Net)
    requires Inv(n.server) && NetInv(n) && Enabled(n.server, a) && m.server == Apply(n.server, a)
    requires forall c <- n.links :: c in m.links && m.links[c] == n.links[c]
    ensures forall rid <- m.server.dispatches :: AnswerEntry(m, rid)
  {
    forall rid <- m.server.dispatches ensures AnswerEntry(m, rid) {
      if rid in n.server.dispatches {
        AnswerStep(n, a, m, rid);
      } else {
        NewDispatch(n.server, a, rid);
      }
    }
  }

  lemma ServerStepKeeps(n: Net, a: Action, m: Net)
    requires Inv(n.server) && NetInv(n) && Enabled(n.server, a) && !a.Create? && m.server == Apply(n.server, a)
    requires m.links == n.links
    requires a.BeginPush? ==> a.c in n.links && a.push.text in n.links[a.c].sink
    ensures NetInv(m)
  {
    LinksThroughServerStep(n, a, m);
    AnswersThroughServerStep(n, a, m);
  }

  lemma AnswerWithLink(n: Net, c: ConnId, link: Link, rid: RequestId)
    requires AnswerEntry(n, rid) && c in n.links
    requires forall f <- n.links[c].session.forwards :: f in link.session.forwards
    ensures AnswerEntry(n.WithLink(c, link), rid)
  {
    var d := n.server.dispatches[rid];
    if d.route == Some(c) && d.slot.Full? {
      var f :| f in n.links[c].session.forwards && f.request == d.request && d.slot.response == f.Response();
      assert f in link.session.forwards;
    }
  }

  /** A client's own step: the session and the sink only grow. */
  lemma LinkStepKeeps(n: Net, c: ConnId, link: Link)
    requires NetInv(n) && c in n.links
    requires LinkEntry(n.WithLink(c, link), c)
    requires forall f <- n.links[c].session.forwards :: f in link.session.forwards
    ensures NetInv(n.WithLink(c, link))
  {
    var m := n.WithLink(c, link);
    forall other <- m.links | other != c ensures LinkEntry(m, other) {
      assert LinkEntry(n, other);
    }
    forall rid <- m.server.dispatches ensures AnswerEntry(m, rid) {
      assert AnswerEntry(n, rid);
      AnswerWithLink(n, c, link, rid);
    }
  }

  lemma NewLinkEntry(n: Net, config: ClientConfig, m: Net)
    requires Enabled(n.server, Create) && m.server == Apply(n.server, Create)
    requires m.links == n.links[n.server.nextConnId := NewLink(config)]
    ensures LinkEntry(m, n.server.nextConnId)
  {
    NewSessionConserved();
  }

  lemma ConnectKeeps(n: Net, config: ClientConfig)
    requires Inv(n.server) && NetInv(n) && Possible(n, Connect(config))
    ensures NetInv(Advance(n, Connect(config)))
  {
    var m := Advance(n, Connect(config));
    var id := n.server.nextConnId;
    ServerPartEnabled(n, Connect(config));
    AnswersThroughServerStep(n, Create, m);
    NewLinkEntry(n, config, m);
    forall c <- n.links ensures LinkEntry(m, c) {
      OldLinkEntry(n, m, c);
    }
  }

  lemma OldLinkEntry(n: Net, m: Net, c: ConnId)
    requires NetInv(n) && Enabled(n.server, Create) && m.server == Apply(n.server, Create)
    requires c in n.links && c in m.links && m.links[c] == n.links[c]
    ensures LinkEntry(m, c)
  {
    assert LinkEntry(n, c);
  }

  /** What an authenticated client reads after the first text is a request routed to it. */
  lemma ReadKeeps(n: Net, c: ConnId)
    requires NetInv(n) && Possible(n, ReadText(c)) && Grammatical(n.server, c)
    ensures NetInv(Advance(n, ReadText(c)))
  {
    assert LinkEntry(n, c);
    var link := n.links[c];
    var text := n.server.conns[c].delivered[link.read];
    assert text == n.server.conns[c].Stream()[link.read];
    var next := Advance(n, ReadText(c)).links[c];
    if link.authed && RequestIn(text).Some? {
      assert RequestOn(n.server, c, text);
      SpawnConserves(link.session, RequestIn(text).value);
    }
    LinkStepKeeps(n, c, next);
  }

  lemma ForwardKeeps(n: Net, c: ConnId, task: nat, outcome: Outcome)
    requires NetInv(n) && Possible(n, FinishForward(c, task, outcome))
    ensures NetInv(Advance(n, FinishForward(c, task, outcome)))
  {
    assert LinkEntry(n, c);
    FinishConserves(n.links[c].session, task, outcome);
    LinkStepKeeps(n, c, n.links[c].(session := n.links[c].session.Finish(task, outcome)));
  }

  lemma TranscriptGrows(sink: seq<Text>, config: ClientConfig, s: Session)
    requires s.queue != [] && Transcript(sink, config, s.written)
    ensures Transcript(sink + [Serialize(Response(s.queue[0]))], config, s.Write().written)
  {
  }

  lemma WriteKeeps(n: Net, c: ConnId)
    requires NetInv(n) && Possible(n, WriteResponse(c))
    ensures NetInv(Advance(n, WriteResponse(c)))
  {
    assert LinkEntry(n, c);
    WriteConserves(n.links[c].session);
    TranscriptGrows(n.links[c].sink, n.links[c].config, n.links[c].session);
    LinkStepKeeps(n, c, Advance(n, WriteResponse(c)).links[c]);
  }

  lemma ServerPartEnabled(n: Net, a: NetAction)
    requires Possible(n, a) && ServerPart(a) != []
    ensures Enabled(n.server, ServerPart(a)[0])
  {
    assert ServerPart(a)[0] in ServerPart(a);
  }

  lemma HeldBySink(n: Net, c: ConnId, i: nat)
    requires NetInv(n) && c in n.links && i < |n.links[c].held|
    ensures n.links[c].held[i] in n.links[c].sink
  {
    assert LinkEntry(n, c);
    assert n.links[c].held[i] in n.links[c].held;
  }

  /** The adapter may hold other texts of the client. */
  lemma HeldChanges(n: Net, c: ConnId, link: Link)
    requires NetInv(n) && c in n.links && forall text <- link.held :: text in link.sink
    requires link == n.links[c].(held := link.held, dropped := link.dropped, taken := link.taken) && link.taken <= |link.sink|
    ensures NetInv(n.WithLink(c, link))
  {
    assert LinkEntry(n, c);
    LinkStepKeeps(n, c, link);
  }

  lemma TransmitKeeps(n: Net, c: ConnId, i: nat, p: Push)
    requires Inv(n.server) && NetInv(n) && Possible(n, Transmit(c, i, p))
    ensures NetInv(Advance(n, Transmit(c, i, p)))
  {
    ServerPartEnabled(n, Transmit(c, i, p));
    HeldBySink(n, c, i);
    var mid := n.(server := Apply(n.server, BeginPush(c, p)));
    ServerStepKeeps(n, BeginPush(c, p), mid);
    assert LinkEntry(n, c);
    HeldChanges(mid, c, n.links[c].(held := Without(n.links[c].held, i)));
  }

  lemma CutShortKeeps(n: Net, c: ConnId, p: Push)
    requires Inv(n.server) && NetInv(n) && Possible(n, CutShort(c, p))
    ensures NetInv(Advance(n, CutShort(c, p)))
  {
    ServerPartEnabled(n, CutShort(c, p));
    var mid := n.(server := Apply(n.server, Abandon(c, p)));
    ServerStepKeeps(n, Abandon(c, p), mid);
    assert LinkEntry(n, c);
    HeldChanges(mid, c, n.links[c].(held := n.links[c].held + [p.text]));
  }

  lemma AdapterKeeps(n: Net, a: NetAction)
    requires NetInv(n) && Possible(n, a) && (a.Take? || a.Raise?)
    ensures NetInv(Advance(n, a))
  {
    assert LinkEntry(n, a.c);
    HeldChanges(n, a.c, Advance(n, a).links[a.c]);
  }

  lemma EndingKeeps(n: Net, a: NetAction)
    requires NetInv(n) && Possible(n, a) && (a.Quit? || a.Stop?)
    ensures NetInv(Advance(n, a))
  {
    assert LinkEntry(n, a.c);
    LinkStepKeeps(n, a.c, Advance(n, a).links[a.c]);
  }

  lemma ServerActionKeeps(n: Net, action: Action)
    requires Inv(n.server) && NetInv(n) && Possible(n, Server(action))
    ensures NetInv(Advance(n, Server(action)))
  {
    ServerPartEnabled(n, Server(action));
    ServerStepKeeps(n, action, n.(server := Apply(n.server, action)));
  }

  lemma ClientActionKeeps(n: Net, a: NetAction)
    requires NetInv(n) && Possible(n, a) && ServerPart(a) == []
    requires forall c <- n.server.conns :: Grammatical(n.server, c)
    ensures NetInv(Advance(n, a))
  {
    if a.ReadText? {
      ReadKeeps(n, a.c);
    } else if a.FinishForward? {
      ForwardKeeps(n, a.c, a.task, a.outcome);
    } else if a.WriteResponse? {
      WriteKeeps(n, a.c);
    } else if a.Quit? || a.Stop? {
      EndingKeeps(n, a);
    } else {
      AdapterKeeps(n, a);
    }
  }

  lemma NetStepKeeps(n: Net, a: NetAction)
    requires Inv(n.server) && NetInv(n) && Possible(n, a)
    requires forall c <- n.server.conns :: Grammatical(n.server, c)
    ensures NetInv(Advance(n, a))
  {
    if a.Connect? {
      ConnectKeeps(n, a.config);
    } else if a.Server? {
      ServerActionKeeps(n, a.action);
    } else if a.Transmit? {
      TransmitKeeps(n, a.c, a.i, a.push);
    } else if a.CutShort? {
      CutShortKeeps(n, a.c, a.push);
    } else {
      ClientActionKeeps(n, a);
    }
  }

  lemma {:induction false} NetAlways(secret: string, log: NetLog, n: Net)
    requires NetRun(secret, log) == Some(n)
    ensures Inv(n.server) && NetInv(n)
    decreases |log|
  {
    NetRunsAreServerRuns(secret, log, n);
    Always(secret, ServerLog(log), n.server);
    if log != [] {
      var k := |log| - 1;
      var mid := NetRun(secret, log[..k]).value;
      NetAlways(secret, log[..k], mid);
      NetRunsAreServerRuns(secret, log[..k], mid);
      forall c <- mid.server.conns ensures Grammatical(mid.server, c) {
        AlwaysGrammatical(secret, ServerLog(log[..k]), mid.server, c);
      }
      NetStepKeeps(mid, log[k]);
    }
  }

  // ---- The end-to-end guarantee ----

  /** Correlation. In any run of the network, whatever requests, replacements and reconnects
      interleave: if a dispatch returned Ok(r), then r reports what the client on the other side
      got by forwarding exactly the request of that dispatch, on the connection that held the
      service when the dispatch was admitted. */
  lemma EndToEndCorrelation(secret: string, log: NetLog, n: Net, rid: RequestId, r: TunnelResponse)
    requires NetRun(secret, log) == Some(n)
    requires rid in n.server.dispatches && n.server.dispatches[rid].progress == Done(Ok(r))
    ensures var d := n.server.dispatches[rid];
      && d.request.requestId == rid
      && d.route.Some? && d.route.value in n.links
      && (exists outcome :: Forward(d.request, outcome) in n.links[d.route.value].session.forwards
                            && r.requestId == rid && Reports(r, outcome))
      && d.request in n.links[d.route.value].session.received
      && exists j: nat :: AdmittedAt(ServerLog(log), d.request, j)
                          && Holds(ServerLog(log)[..j], d.request.service, d.route.value)
  {
    NetRunsAreServerRuns(secret, log, n);
    NetAlways(secret, log, n);
    assert DispatchEntry(n.server, rid) && AnswerEntry(n, rid);
    var d := n.server.dispatches[rid];
    var link := n.links[d.route.value];
    assert LinkEntry(n, d.route.value);
    var f :| f in link.session.forwards && f.request == d.request && r == f.Response();
    assert f == Forward(d.request, f.outcome);
    ForwardReports(d.request, f.outcome);
    var j := ResultsTellHistory(secret, ServerLog(log), n.server, rid);
  }

  /** The HTTP answer for a dispatch that was answered: what the local service made of it. */
  ghost predicate AnsweredWith(h: HttpResponse, outcome: Outcome) {
    match outcome
    case Replied(status, headers, body) =>
      if ValidHeaders(headers) then
        h.status == (if 100 <= status <= 999 then status else 500) && h.headers == headers && h.body == body
      else h.status == 500
    case LocalTimeout =>
      h.status == 504 && h.body == Utf8("{\"error\":\"" + "local service timeout" + "\"}")
    case LocalError(message) =>
      h.status == 502 && h.body == Utf8("{\"error\":\"" + ("local service error: " + message) + "\"}")
  }

  lemma JsonHeaderValid()
    ensures ValidHeaders(map["Content-Type" := "application/json"])
  {
  }

  lemma ReportedAnswer(r: TunnelResponse, outcome: Outcome)
    requires Reports(r, outcome)
    ensures AnsweredWith(ToHttp(r), outcome)
  {
    JsonHeaderValid();
    if ValidHeaders(r.headers) {
      ToHttpExactly(r, ToHttp(r));
    } else {
      var name :| name in r.headers && !ValidHeader(name, r.headers[name]);
      UnsendableHeader(r, name);
    }
  }

  lemma FailureAnswer(rid: RequestId, e: TunnelError)
    ensures var h := ToHttp(Handled(rid, Err(e)));
      && h.status == (if e == Timeout then 504 else 502)
      && h.headers == map["Content-Type" := "application/json"]
      && h.body == Utf8("{\"error\":\"" + (match e
                                         case NotConnected => "no client connected for service"
                                         case ConnectionLost => "client connection lost"
                                         case Disconnected => "client disconnected"
                                         case Timeout => "tunnel timeout") + "\"}")
  {
    HandledTells(rid, Err(e));
    JsonHeaderValid();
    ToHttpExactly(Handled(rid, Err(e)), ToHttp(Handled(rid, Err(e))));
  }

  /** What the HTTP caller is answered in every network run: what the local service made of exactly
      its request, or 504 for a timeout and 502 for any other failure of the tunnel. */
  lemma CallerIsAnswered(secret: string, log: NetLog, n: Net, rid: RequestId)
    requires NetRun(secret, log) == Some(n) && rid in n.server.dispatches && n.server.dispatches[rid].progress.Done?
    ensures var d := n.server.dispatches[rid];
      var h := ToHttp(Handled(rid, d.progress.result));
      match d.progress.result
      case Ok(_) =>
        && d.route.Some? && d.route.value in n.links
        && exists outcome :: Forward(d.request, outcome) in n.links[d.route.value].session.forwards && AnsweredWith(h, outcome)
      case Err(e) => h.status == if e == Timeout then 504 else 502
  {
    var d := n.server.dispatches[rid];
    match d.progress.result
    case Ok(r) =>
      EndToEndCorrelation(secret, log, n, rid, r);
      HandledTells(rid, Ok(r));
      var outcome :| Forward(d.request, outcome) in n.links[d.route.value].session.forwards && Reports(r, outcome);
      ReportedAnswer(r, outcome);
    case Err(e) =>
      FailureAnswer(rid, e);
  }

  /** Nothing crosses over: a response written on one connection never names a request that was
      received on another, however many clients there are and however often they reconnect. */
  lemma NoCrossAnswer(secret: string, log: NetLog, n: Net, c: ConnId, d: ConnId, r: TunnelResponse, q: TunnelRequest)
    requires NetRun(secret, log) == Some(n) && c in n.links && d in n.links && c != d
    requires r in n.links[c].session.written && q in n.links[d].session.received
    ensures r.requestId != q.requestId
  {
    NetAlways(secret, log, n);
    assert LinkEntry(n, c) && LinkEntry(n, d);
    WrittenAnswersReceived(n.links[c].session, r);
    var f :| f in n.links[c].session.forwards && f.request in n.links[c].session.received
             && r.requestId == f.request.requestId;
    assert RequestOf(n.server, c, f.request) && RequestOf(n.server, d, q);
  }

  /** The client's handshake never meets anything but an answer to it: the first text it reads
      is auth_ok or auth_error. */
  lemma HandshakeMeetsAnAnswer(secret: string, log: NetLog, n: Net, c: ConnId)
    requires NetRun(secret, log) == Some(n) && Possible(n, ReadText(c)) && n.links[c].read == 0
    ensures var m := ParseMessage(n.server.conns[c].delivered[0]); m.Ok? && (m.value.AuthOk? || m.value.AuthError?)
  {
    NetRunsAreServerRuns(secret, log, n);
    FirstTextAnswersAuth(secret, ServerLog(log), n.server, c);
  }
}
