/** One concrete run of the network, to the point where the push of an answer is cut short: made
    again it still brings the answer, given up by a raise it never does. */
module Scenario {
  import opened Wrappers
  import opened Protocol
  import opened Tunnel
  import opened Streams
  import opened Client
  import opened EndToEnd
  import opened NetHistory
  import opened Pushing
  import opened Liveness
  import opened GivenUp

  const CONFIG := ClientConfig("s", "v")

  const ASKED := BuildTunnelRequest(IncomingRequest("v", "GET", "x", map[], map[], None), "q")

  const ANSWER := ForwardResponse(ASKED, LocalTimeout)

  /** The client's texts. */
  function Hello(): Text {
    AuthText(CONFIG)
  }

  function Reply(): Text {
    Serialize(Response(ANSWER))
  }

  /** A network with one connection and at most one dispatch. */
  function World(x: Conn, link: Link, services: map<string, ConnId>, pending: map<RequestId, ConnId>,
                 dispatches: map<RequestId, Dispatch>): Net {
    Net(State("s", 2, services, pending, map[1 := x], dispatches), map[1 := link])
  }

  /** A step that turns the connection x into y and touches nothing else. */
  lemma ConnGoes(log: NetLog, x: Conn, link: Link, services: map<string, ConnId>, pending: map<RequestId, ConnId>,
                 dispatches: map<RequestId, Dispatch>, a: Action, y: Conn) returns (more: NetLog)
    requires NetRun("s", log) == Some(World(x, link, services, pending, dispatches))
    requires !a.Create? && !a.BeginPush? && !a.Abandon?
    requires var s := World(x, link, services, pending, dispatches).server; Enabled(s, a) && Apply(s, a) == s.WithConn(1, y)
    ensures more == log + [Server(a)] && NetRun("s", more) == Some(World(y, link, services, pending, dispatches))
  {
    assert ServerPart(Server(a)) == [a];
    NetStep("s", log, World(x, link, services, pending, dispatches), Server(a));
    OneEntry(1, x, y);
    more := log + [Server(a)];
  }

  /** A step of the client. */
  lemma LinkGoes(log: NetLog, x: Conn, link: Link, services: map<string, ConnId>, pending: map<RequestId, ConnId>,
                 dispatches: map<RequestId, Dispatch>, a: NetAction, next: Link) returns (more: NetLog)
    requires NetRun("s", log) == Some(World(x, link, services, pending, dispatches))
    requires ServerPart(a) == [] && Possible(World(x, link, services, pending, dispatches), a)
    requires Advance(World(x, link, services, pending, dispatches), a)
          == World(x, link, services, pending, dispatches).WithLink(1, next)
    ensures more == log + [a] && NetRun("s", more) == Some(World(x, next, services, pending, dispatches))
  {
    NetStep("s", log, World(x, link, services, pending, dispatches), a);
    OneEntry(1, link, next);
    more := log + [a];
  }

  /** The one text that the adapter holds is pushed. */
  lemma PushGoes(log: NetLog, x: Conn, link: Link, services: map<string, ConnId>, pending: map<RequestId, ConnId>,
                 dispatches: map<RequestId, Dispatch>, p: Push, y: Conn) returns (more: NetLog)
    requires NetRun("s", log) == Some(World(x, link, services, pending, dispatches))
    requires p.call !in x.used && x.open && y == x.BeginPush(p) && link.held == [p.text] && !link.stopped
    ensures more == log + [Transmit(1, 0, p)]
    ensures NetRun("s", more) == Some(World(y, link.(held := []), services, pending, dispatches))
  {
    var a := Transmit(1, 0, p);
    assert ServerPart(a) == [BeginPush(1, p)] && Without(link.held, 0) == [];
    NetStep("s", log, World(x, link, services, pending, dispatches), a);
    OneEntry(1, x, y);
    OneEntry(1, link, link.(held := []));
    more := log + [a];
  }

  /** The push that is under way is cut short. */
  lemma CutGoes(log: NetLog, x: Conn, link: Link, services: map<string, ConnId>, pending: map<RequestId, ConnId>,
                dispatches: map<RequestId, Dispatch>, p: Push, y: Conn) returns (more: NetLog)
    requires NetRun("s", log) == Some(World(x, link, services, pending, dispatches))
    requires x.HasCall(p) && y == x.EndPush(p) && link.held == []
    ensures more == log + [CutShort(1, p)]
    ensures NetRun("s", more) == Some(World(y, link.(held := [p.text]), services, pending, dispatches))
  {
    var a := CutShort(1, p);
    assert ServerPart(a) == [Abandon(1, p)] && link.held + [p.text] == [p.text];
    NetStep("s", log, World(x, link, services, pending, dispatches), a);
    OneEntry(1, x, y);
    OneEntry(1, link, link.(held := [p.text]));
    more := log + [a];
  }

  // ---- The connection comes up ----

  function Fresh(): Link {
    NewLink(CONFIG)
  }

  function Knocking(): Link {
    Fresh().(taken := 1)
  }

  /** The connection while it authenticates, with the client's first text on its way or read. */
  function Starting(phase: Phase, calls: map<CallId, Text>, incoming: seq<Push>): Conn {
    Conn(phase, None, true, {0}, calls, incoming, [], [], true)
  }

  function Serving(phase: Phase, outgoing: seq<Text>, delivered: seq<Text>): Conn {
    Conn(phase, Some("v"), true, {0}, map[], [], outgoing, delivered, true)
  }

  lemma Connects() returns (log: NetLog)
    ensures NetRun("s", log) == Some(World(NewConn(), Fresh(), map[], map[], map[]))
  {
    var a := NetAction.Connect(CONFIG);
    assert ServerPart(a) == [Create];
    assert NetRun("s", []) == Some(Net(Init("s"), map[]));
    NetStep("s", [], Net(Init("s"), map[]), a);
    log := [] + [a];
  }

  lemma Knocks() returns (log: NetLog)
    ensures NetRun("s", log) == Some(World(Starting(Created, map[0 := Hello()], []), Knocking(), map[], map[], map[]))
  {
    log := Connects();
    var p := Push(0, Hello());
    assert [] + [Hello()] == [Hello()];
    log := LinkGoes(log, NewConn(), Fresh(), map[], map[], map[], Take(1), Knocking().(held := [Hello()]));
    assert {} + {0} == {0};
    log := PushGoes(log, NewConn(), Knocking().(held := [Hello()]), map[], map[], map[], p,
                    Starting(Created, map[0 := Hello()], []));
  }

  lemma Starts() returns (log: NetLog)
    ensures NetRun("s", log)
         == Some(World(Starting(Authenticating, map[0 := Hello()], []), Knocking(), map[], map[], map[]))
  {
    log := Knocks();
    var calls := map[0 := Hello()];
    log := ConnGoes(log, Starting(Created, calls, []), Knocking(), map[], map[], map[],
                    Start(1), Starting(Authenticating, calls, []));
  }

  lemma ComesIn() returns (log: NetLog)
    ensures NetRun("s", log)
         == Some(World(Starting(Authenticating, map[], [Push(0, Hello())]), Knocking(), map[], map[], map[]))
  {
    log := Starts();
    var p, x := Push(0, Hello()), Starting(Authenticating, map[0 := Hello()], []);
    assert map[0 := Hello()] - {0} == map[] && x.Accept(p) == Starting(Authenticating, map[], [p]);
    log := ConnGoes(log, x, Knocking(), map[], map[], map[], Enqueue(1, p), x.Accept(p));
  }

  lemma HelloAccepted()
    ensures AuthVerdict("s", Hello()) == Ok("v")
  {
    RoundTrip(Auth(AuthMessage("auth", "s", "v")));
    AcceptedExactly("s", Hello(), "v");
  }

  lemma IsAccepted() returns (log: NetLog)
    ensures NetRun("s", log) == Some(World(Serving(Authenticated, [AuthOkText()], []), Knocking(), map[], map[], map[]))
  {
    log := ComesIn();
    var p := Push(0, Hello());
    var x := Starting(Authenticating, map[], [p]);
    HelloAccepted();
    assert x.Consume().Authenticate("s", p.text) == Serving(Authenticated, [AuthOkText()], []);
    log := ConnGoes(log, x, Knocking(), map[], map[], map[], AuthReceive(1, p), x.Consume().Authenticate("s", p.text));
  }

  lemma Registers() returns (log: NetLog)
    ensures NetRun("s", log) == Some(World(Serving(Relaying, [AuthOkText()], []), Knocking(), map["v" := 1], map[], map[]))
  {
    log := IsAccepted();
    var x := Serving(Authenticated, [AuthOkText()], []);
    var a := Server(Action.Register(1, "v"));
    assert ServerPart(a) == [Action.Register(1, "v")];
    NetStep("s", log, World(x, Knocking(), map[], map[], map[]), a);
    assert map[1 := x][1 := x.(phase := Relaying)] == map[1 := x.(phase := Relaying)];
    log := log + [a];
  }

  // ---- A request is sent and read ----

  /** The client knows it is accepted. */
  function Ready(): Link {
    Knocking().(read := 1, authed := true)
  }

  lemma IsWelcomed() returns (log: NetLog)
    ensures NetRun("s", log) == Some(World(Serving(Relaying, [], [AuthOkText()]), Knocking(), map["v" := 1], map[], map[]))
  {
    log := Registers();
    var x := Serving(Relaying, [AuthOkText()], []);
    assert x.HandOver() == Serving(Relaying, [], [AuthOkText()]);
    log := ConnGoes(log, x, Knocking(), map["v" := 1], map[], map[], Deliver(1, AuthOkText()), x.HandOver());
  }

  lemma ReadsWelcome() returns (log: NetLog)
    ensures NetRun("s", log) == Some(World(Serving(Relaying, [], [AuthOkText()]), Ready(), map["v" := 1], map[], map[]))
  {
    log := IsWelcomed();
    AuthOkParses();
    log := LinkGoes(log, Serving(Relaying, [], [AuthOkText()]), Knocking(), map["v" := 1], map[], map[], ReadText(1), Ready());
  }

  function Dispatched(progress: Progress): map<RequestId, Dispatch> {
    map["q" := Dispatch(ASKED, Some(1), progress, Empty)]
  }

  lemma Admits() returns (log: NetLog)
    ensures NetRun("s", log)
         == Some(World(Serving(Relaying, [], [AuthOkText()]), Ready(), map["v" := 1], map["q" := 1], Dispatched(Sending)))
  {
    log := ReadsWelcome();
    var a := Server(Admit(ASKED));
    assert ServerPart(a) == [Admit(ASKED)];
    NetStep("s", log, World(Serving(Relaying, [], [AuthOkText()]), Ready(), map["v" := 1], map[], map[]), a);
    log := log + [a];
  }

  lemma Sends() returns (log: NetLog)
    ensures NetRun("s", log)
         == Some(World(Serving(Relaying, [RequestText(ASKED)], [AuthOkText()]), Ready(), map["v" := 1], map["q" := 1],
                       Dispatched(Waiting)))
  {
    log := Admits();
    var x, send := Serving(Relaying, [], [AuthOkText()]), Send("q", 1, RequestText(ASKED));
    SendsHere(x, RequestText(ASKED));
    assert ServerPart(Server(send)) == [send];
    NetStep("s", log, World(x, Ready(), map["v" := 1], map["q" := 1], Dispatched(Sending)), Server(send));
    log := log + [Server(send)];
  }

  /** The server once its dispatch is as far as this. */
  function Serves(x: Conn, progress: Progress): State {
    State("s", 2, map["v" := 1], map["q" := 1], map[1 := x], Dispatched(progress))
  }

  lemma SendsHere(x: Conn, text: Text)
    requires x == Serving(Relaying, [], [AuthOkText()]) && text == RequestText(ASKED)
    ensures Enabled(Serves(x, Sending), Send("q", 1, text))
    ensures Apply(Serves(x, Sending), Send("q", 1, text)) == Serves(Serving(Relaying, [text], [AuthOkText()]), Waiting)
  {
    var y := Serving(Relaying, [text], [AuthOkText()]);
    assert x.Emit(text) == y;
    OneEntry(1, x, y);
    OneEntry("q", Dispatched(Sending)["q"], Dispatched(Waiting)["q"]);
  }

  lemma OneEntry<K, V>(k: K, v: V, w: V)
    ensures map[k := v][k := w] == map[k := w]
  {
  }

  function Told(): Conn {
    Serving(Relaying, [], [AuthOkText(), RequestText(ASKED)])
  }

  /** The client has taken the request in. */
  function Asked(): Link {
    Ready().(read := 2, session := NEW_SESSION.Spawn(ASKED))
  }

  lemma IsTold() returns (log: NetLog)
    ensures NetRun("s", log) == Some(World(Told(), Ready(), map["v" := 1], map["q" := 1], Dispatched(Waiting)))
  {
    log := Sends();
    var x := Serving(Relaying, [RequestText(ASKED)], [AuthOkText()]);
    assert x.HandOver() == Told();
    log := ConnGoes(log, x, Ready(), map["v" := 1], map["q" := 1], Dispatched(Waiting),
                    Deliver(1, RequestText(ASKED)), x.HandOver());
  }

  lemma ReadsRequest() returns (log: NetLog)
    ensures NetRun("s", log) == Some(World(Told(), Asked(), map["v" := 1], map["q" := 1], Dispatched(Waiting)))
  {
    log := IsTold();
    RoundTrip(Request(ASKED));
    log := LinkGoes(log, Told(), Ready(), map["v" := 1], map["q" := 1], Dispatched(Waiting), ReadText(1), Asked());
  }

  // ---- The answer is written, pushed, and the push cut short ----

  function Forwarded(): Link {
    Asked().(session := Asked().session.Finish(0, LocalTimeout))
  }

  function Written(): Link {
    Forwarded().(session := Forwarded().session.Write(), sink := [Hello(), Reply()])
  }

  lemma Forwards() returns (log: NetLog)
    ensures NetRun("s", log) == Some(World(Told(), Forwarded(), map["v" := 1], map["q" := 1], Dispatched(Waiting)))
  {
    log := ReadsRequest();
    log := LinkGoes(log, Told(), Asked(), map["v" := 1], map["q" := 1], Dispatched(Waiting),
                    FinishForward(1, 0, LocalTimeout), Forwarded());
  }

  lemma Writes() returns (log: NetLog)
    ensures NetRun("s", log) == Some(World(Told(), Written(), map["v" := 1], map["q" := 1], Dispatched(Waiting)))
  {
    log := Forwards();
    assert Forwarded().session.queue == [ANSWER];
    assert Forwarded().sink + [Reply()] == [Hello(), Reply()];
    log := LinkGoes(log, Told(), Forwarded(), map["v" := 1], map["q" := 1], Dispatched(Waiting), WriteResponse(1), Written());
  }

  function Replying(calls: map<CallId, Text>): Conn {
    Told().(used := {0, 1}, calls := calls)
  }

  function Taken(): Link {
    Written().(taken := 2)
  }

  lemma Takes() returns (log: NetLog)
    ensures NetRun("s", log)
         == Some(World(Told(), Taken().(held := [Reply()]), map["v" := 1], map["q" := 1], Dispatched(Waiting)))
  {
    log := Writes();
    assert Written().held + [Reply()] == [Reply()];
    log := LinkGoes(log, Told(), Written(), map["v" := 1], map["q" := 1], Dispatched(Waiting), Take(1),
                    Taken().(held := [Reply()]));
  }

  lemma Pushes() returns (log: NetLog)
    ensures NetRun("s", log)
         == Some(World(Replying(map[1 := Reply()]), Taken(), map["v" := 1], map["q" := 1], Dispatched(Waiting)))
  {
    log := Takes();
    assert {0} + {1} == {0, 1};
    log := PushGoes(log, Told(), Taken().(held := [Reply()]), map["v" := 1], map["q" := 1], Dispatched(Waiting),
                    Push(1, Reply()), Replying(map[1 := Reply()]));
  }

  lemma Interrupts() returns (log: NetLog)
    ensures NetRun("s", log)
         == Some(World(Replying(map[]), Taken().(held := [Reply()]), map["v" := 1], map["q" := 1], Dispatched(Waiting)))
    ensures Abandon(1, Push(1, Reply())) in ServerLog(log)
  {
    var before := Pushes();
    var x, p := Replying(map[1 := Reply()]), Push(1, Reply());
    assert map[1 := Reply()] - {1} == map[] && x.EndPush(p) == Replying(map[]);
    log := CutGoes(before, x, Taken(), map["v" := 1], map["q" := 1], Dispatched(Waiting), p, x.EndPush(p));
    assert log[..|before|] == before && ServerPart(CutShort(1, p)) == [Abandon(1, p)];
  }

  lemma Raises() returns (log: NetLog)
    ensures NetRun("s", log)
         == Some(World(Replying(map[]), Taken().(dropped := [Reply()]), map["v" := 1], map["q" := 1], Dispatched(Waiting)))
  {
    log := Interrupts();
    assert Without([Reply()], 0) == [] && [] + [Reply()] == [Reply()];
    log := LinkGoes(log, Replying(map[]), Taken().(held := [Reply()]), map["v" := 1], map["q" := 1], Dispatched(Waiting),
                    Raise(1, 0), Taken().(dropped := [Reply()]));
  }

  /** An interrupt that raises nothing loses nothing: the push that carried the answer was
      abandoned, and still the run goes on to the dispatch returning a response. */
  lemma RetryBringsAnswer() returns (log: NetLog, n: Net)
    ensures NetRun("s", log) == Some(n) && Awaiting(n, "q", 1) && Abandon(1, Push(1, Reply())) in ServerLog(log)
    ensures exists more :: NetRun("s", log + more).Some? && Liveness.Answered(NetRun("s", log + more).value, "q")
  {
    log := Interrupts();
    n := NetRun("s", log).value;
    AnswerPossible("s", log, n, "q", 1, q => LocalTimeout);
  }

  /** When Ruby raises out of that push instead, a dispatch waits on a route that is registered and
      open, its client has answered, and still no continuation, however long, makes it return a
      response. */
  lemma AnswerCanBeLost() returns (log: NetLog, n: Net)
    ensures NetRun("s", log) == Some(n) && Awaiting(n, "q", 1)
    ensures forall more | NetRun("s", log + more).Some? :: !Liveness.Answered(NetRun("s", log + more).value, "q")
  {
    log := Raises();
    n := NetRun("s", log).value;
    RoundTrip(Response(ANSWER));
    CarrierCounts(n.links[1].dropped, "q", 0);
    NotOnTheWay("s", log, n, 1, "q");
    AnswerPossible("s", log, n, "q", 1, q => LocalTimeout);
  }
}
