/** The server's coordination protocol as a labelled step system.

    Every block the server runs under one lock, every channel operation and every other
    point where a task can be interleaved with another is one `Action`. A label carries the
    data its step handles, so that whole-run properties can be stated over the log of labels. */
module Tunnel {
  import opened Wrappers
  import opened Protocol
  import opened Secret

  type ConnId = nat

  type RequestId = string

  /** Identifies one `push_message` call on a connection. */
  type CallId = nat

  /** The capacity of a connection's incoming and outgoing channels. */
  const CAPACITY: nat := 64

  const FIRST_CONN_ID: nat := 1

  // ---- Connections ----

  /** Where a connection's `run()` is. */
  datatype Phase =
    | Created                  // not called yet
    | Authenticating           // waiting for the first message
    | Authenticated            // auth_ok queued, not registered yet
    | Replacing(loser: ConnId) // registered, still holding the handle it displaced
    | Closing(loser: ConnId)   // handle dropped, about to close the displaced connection
    | Relaying                 // in the relay loop
    | Leaving                  // past the relay loop, own outgoing sender still held
    | Draining                 // own sender dropped, waiting for the drain task
    | Returned

  /** A message on its way in, with the call that pushes it. */
  datatype Push = Push(call: CallId, text: Text)

  datatype Conn = Conn(
    phase: Phase,
    service: Option<string>,     // what handle_auth accepted
    open: bool,                  // incoming_tx not taken yet
    used: set<CallId>,           // the push calls that got hold of incoming_tx
    calls: map<CallId, Text>,    // pushes that cloned incoming_tx and are still sending
    incoming: seq<Push>,
    outgoing: seq<Text>,
    delivered: seq<Text>,        // handed to the callback so far
    receiving: bool)             // the outgoing receiver still exists
  {
    predicate Registered() {
      phase.Replacing? || phase.Closing? || phase.Relaying?
    }

    /** At or past registration. (A refused connection skips registration, but also has no service.) */
    predicate PastRegistration() {
      Registered() || phase.Leaving? || SenderDropped()
    }

    predicate Running() {
      !phase.Created? && !phase.Returned?
    }

    /** run() is past the point where it holds an outgoing sender of its own. */
    predicate SenderDropped() {
      phase.Draining? || phase.Returned?
    }

    /** The incoming channel is empty and no sender for it is left: recv() yields None. */
    predicate IncomingEnded() {
      !open && calls == map[] && incoming == []
    }

    predicate HasCall(p: Push) {
      p.call in calls && calls[p.call] == p.text
    }

    predicate NextIncoming(p: Push) {
      incoming != [] && incoming[0] == p
    }

    predicate Room() {
      |outgoing| < CAPACITY
    }

    /** Everything ever enqueued for the client, in order. */
    function Stream(): seq<Text> {
      delivered + outgoing
    }

    function BeginPush(p: Push): Conn {
      if open then this.(used := used + {p.call}, calls := calls[p.call := p.text]) else this
    }

    function EndPush(p: Push): Conn {
      this.(calls := calls - {p.call})
    }

    function Accept(p: Push): Conn {
      EndPush(p).(incoming := incoming + [p])
    }

    function Consume(): Conn
      requires incoming != []
    {
      this.(incoming := incoming[1..])
    }

    function Emit(text: Text): Conn {
      this.(outgoing := outgoing + [text])
    }

    function HandOver(): Conn
      requires outgoing != []
    {
      this.(outgoing := outgoing[1..], delivered := delivered + [outgoing[0]])
    }

    /** What handle_auth makes of the first message. */
    function Authenticate(secret: string, text: Text): Conn {
      match AuthVerdict(secret, text)
      case Ok(accepted) => Emit(AuthOkText()).(phase := Authenticated, service := Some(accepted))
      case Err(message) => Emit(AuthErrorText(message)).(phase := Leaving)
    }
  }

  function NewConn(): Conn {
    Conn(Created, None, true, {}, map[], [], [], [], true)
  }

  function AuthOkText(): Text {
    Serialize(AuthOk(AuthOkMessage("auth_ok")))
  }

  function AuthErrorText(message: string): Text {
    Serialize(AuthError(AuthErrorMessage("auth_error", message)))
  }

  function RequestText(q: TunnelRequest): Text {
    Serialize(Request(q))
  }

  /** The service the first message authenticates for, or why it is refused. */
  function AuthVerdict(secret: string, text: Text): Result<string, string> {
    match ParseMessage(text)
    case Ok(Auth(m)) => if Authorized(m.token, secret) then Ok(m.service) else Err("invalid token")
    case _ => Err("expected auth message")
  }

  /** The response a relayed text carries; anything else the relay loop skips. */
  function ResponseIn(text: Text): Option<TunnelResponse> {
    match ParseMessage(text)
    case Ok(Response(r)) => Some(r)
    case _ => None
  }

  /** It is the document's own fields that make a text a response, and which one. */
  lemma ResponseInExactly(text: Text)
    ensures forall r :: ResponseIn(text) == Some(r) <==> IsResponse(text, r)
  {
    forall r {
      ResponseOnWire(text, r);
    }
  }

  // ---- Dispatches ----

  datatype TunnelError = NotConnected | ConnectionLost | Disconnected | Timeout
  {
    function Status(): u16 {
      if Timeout? then 504 else 502
    }

    function Display(): string {
      match this
      case NotConnected => "no client connected for service"
      case ConnectionLost => "client connection lost"
      case Disconnected => "client disconnected"
      case Timeout => "tunnel timeout"
    }
  }

  /** The receiving end of a dispatch's one-shot reply channel. */
  datatype Slot = Empty | Full(response: TunnelResponse) | Dropped

  datatype Progress =
    | Sending
    | Waiting
    | Failing(error: TunnelError)   // about to remove its pending entry
    | Done(result: Result<TunnelResponse, TunnelError>)
    | Cancelled                     // the caller dropped the future

  datatype Dispatch = Dispatch(
    request: TunnelRequest,
    route: Option<ConnId>,   // the connection that held the service at lookup
    progress: Progress,
    slot: Slot)
  {
    /** Holds an outgoing sender of its route until it returns or is dropped. */
    predicate InFlight() {
      progress.Sending? || progress.Waiting? || progress.Failing?
    }

    predicate Settled() {
      progress.Done? || progress.Cancelled?
    }

    predicate SentOn(c: ConnId) {
      InFlight() && route == Some(c)
    }
  }

  // ---- The whole server ----

  datatype State = State(
    secret: string,
    nextConnId: ConnId,
    services: map<string, ConnId>,
    pending: map<RequestId, ConnId>,
    conns: map<ConnId, Conn>,
    dispatches: map<RequestId, Dispatch>)
  {
    predicate Owns(rid: RequestId, c: ConnId) {
      rid in pending && pending[rid] == c
    }

    function WithConn(c: ConnId, conn: Conn): State {
      this.(conns := conns[c := conn])
    }

    function WithProgress(rid: RequestId, progress: Progress): State
      requires rid in dispatches
    {
      this.(dispatches := dispatches[rid := dispatches[rid].(progress := progress)])
    }

    /** Some outgoing sender of c is alive: run()'s own, the services handle, a handle held by a
        replacing connection, or a dispatch's. */
    ghost predicate HasSender(c: ConnId) {
      || (c in conns && !conns[c].SenderDropped())
      || (exists service :: service in services && services[service] == c)
      || (exists other :: other in conns && conns[other].phase == Replacing(c))
      || (exists rid :: rid in dispatches && dispatches[rid].SentOn(c))
    }
  }

  function Init(secret: string): State {
    State(secret, FIRST_CONN_ID, map[], map[], map[], map[])
  }

  datatype Action =
    | Create
    | BeginPush(c: ConnId, push: Push)       // clones incoming_tx, or does nothing once it is taken
    | Enqueue(c: ConnId, push: Push)
    | Refuse(c: ConnId, push: Push)          // the receiver is gone: the text is lost
    | Abandon(c: ConnId, push: Push)         // the push future was dropped
    | Close(c: ConnId)
    | Start(c: ConnId)
    | AuthTimeOut(c: ConnId)
    | AuthEnd(c: ConnId)
    | AuthReceive(c: ConnId, push: Push)
    | Register(c: ConnId, service: string)
    | Upgrade(c: ConnId, loser: ConnId)
    | CloseReplaced(c: ConnId, loser: ConnId)
    | Relay(c: ConnId, push: Push)
    | Cleanup(c: ConnId, service: string)
    | DropSender(c: ConnId)
    | Deliver(c: ConnId, text: Text)
    | DrainEnd(c: ConnId)
    | Return(c: ConnId)
    | Admit(request: TunnelRequest)
    | Send(rid: RequestId, c: ConnId, text: Text)
    | SendFails(rid: RequestId)
    | Receive(rid: RequestId)
    | TimeOut(rid: RequestId)
    | Fail(rid: RequestId)
    | Cancel(rid: RequestId)

  ghost predicate Enabled(s: State, a: Action) {
    match a
    case Create => s.nextConnId !in s.conns
    case BeginPush(c, p) => c in s.conns && p.call !in s.conns[c].used
    case Enqueue(c, p) =>
      c in s.conns && !s.conns[c].phase.Returned? && s.conns[c].HasCall(p) && |s.conns[c].incoming| < CAPACITY
    case Refuse(c, p) => c in s.conns && s.conns[c].phase.Returned? && s.conns[c].HasCall(p)
    case Abandon(c, p) => c in s.conns && s.conns[c].HasCall(p)
    case Close(c) => c in s.conns
    case Start(c) => c in s.conns && s.conns[c].phase.Created?
    case AuthTimeOut(c) => c in s.conns && s.conns[c].phase.Authenticating? && s.conns[c].Room()
    case AuthEnd(c) => c in s.conns && s.conns[c].phase.Authenticating? && s.conns[c].IncomingEnded()
    case AuthReceive(c, p) =>
      c in s.conns && s.conns[c].phase.Authenticating? && s.conns[c].NextIncoming(p) && s.conns[c].Room()
    case Register(c, service) =>
      c in s.conns && s.conns[c].phase.Authenticated? && s.conns[c].service == Some(service)
    case Upgrade(c, loser) => c in s.conns && s.conns[c].phase == Replacing(loser)
    case CloseReplaced(c, loser) => c in s.conns && loser in s.conns && s.conns[c].phase == Closing(loser)
    case Relay(c, p) => c in s.conns && s.conns[c].phase.Relaying? && s.conns[c].NextIncoming(p)
    case Cleanup(c, service) =>
      c in s.conns && s.conns[c].phase.Relaying? && s.conns[c].IncomingEnded() && s.conns[c].service == Some(service)
    case DropSender(c) => c in s.conns && s.conns[c].phase.Leaving?
    case Deliver(c, text) =>
      && c in s.conns && s.conns[c].Running() && s.conns[c].receiving
      && s.conns[c].outgoing != [] && s.conns[c].outgoing[0] == text
    case DrainEnd(c) =>
      c in s.conns && s.conns[c].Running() && s.conns[c].receiving && s.conns[c].outgoing == [] && !s.HasSender(c)
    case Return(c) => c in s.conns && s.conns[c].phase.Draining? && !s.conns[c].receiving
    case Admit(q) => q.requestId !in s.dispatches && Built(q)
    case Send(rid, c, text) =>
      && rid in s.dispatches && s.dispatches[rid].progress.Sending? && s.dispatches[rid].route == Some(c)
      && text == RequestText(s.dispatches[rid].request)
      && c in s.conns && s.conns[c].receiving && s.conns[c].Room()
    case SendFails(rid) =>
      && rid in s.dispatches && s.dispatches[rid].progress.Sending? && s.dispatches[rid].route.Some?
      && s.dispatches[rid].route.value in s.conns && !s.conns[s.dispatches[rid].route.value].receiving
    case Receive(rid) => rid in s.dispatches && s.dispatches[rid].progress.Waiting? && !s.dispatches[rid].slot.Empty?
    case TimeOut(rid) => rid in s.dispatches && (s.dispatches[rid].progress.Sending? || s.dispatches[rid].progress.Waiting?)
    case Fail(rid) => rid in s.dispatches && s.dispatches[rid].progress.Failing?
    case Cancel(rid) => rid in s.dispatches && s.dispatches[rid].InFlight()
  }

  ghost function Apply(s: State, a: Action): State
    requires Enabled(s, a)
  {
    match a
    case Create => s.WithConn(s.nextConnId, NewConn()).(nextConnId := s.nextConnId + 1)
    case BeginPush(c, p) => s.WithConn(c, s.conns[c].BeginPush(p))
    case Enqueue(c, p) => s.WithConn(c, s.conns[c].Accept(p))
    case Refuse(c, p) => s.WithConn(c, s.conns[c].EndPush(p))
    case Abandon(c, p) => s.WithConn(c, s.conns[c].EndPush(p))
    case Close(c) => s.WithConn(c, s.conns[c].(open := false))
    case Start(c) => s.WithConn(c, s.conns[c].(phase := Authenticating))
    case AuthTimeOut(c) => s.WithConn(c, s.conns[c].Emit(AuthErrorText("auth timeout")).(phase := Leaving))
    case AuthEnd(c) => s.WithConn(c, s.conns[c].(phase := Leaving))
    case AuthReceive(c, p) => s.WithConn(c, s.conns[c].Consume().Authenticate(s.secret, p.text))
    case Register(c, service) => Registration(s, c, service)
    case Upgrade(c, loser) =>
      s.WithConn(c, s.conns[c].(phase :=
        if loser in s.conns && !s.conns[loser].phase.Returned? then Closing(loser) else Relaying))
    case CloseReplaced(c, loser) =>
      s.WithConn(loser, s.conns[loser].(open := false)).WithConn(c, s.conns[c].(phase := Relaying))
    case Relay(c, p) => Relayed(s.WithConn(c, s.conns[c].Consume()), c, p.text)
    case Cleanup(c, service) => CleanedUp(s, c, service)
    case DropSender(c) => s.WithConn(c, s.conns[c].(phase := Draining))
    case Deliver(c, _) => s.WithConn(c, s.conns[c].HandOver())
    case DrainEnd(c) => s.WithConn(c, s.conns[c].(receiving := false))
    case Return(c) => s.WithConn(c, s.conns[c].(phase := Returned))
    case Admit(q) => Admission(s, q)
    case Send(rid, c, text) => s.WithConn(c, s.conns[c].Emit(text)).WithProgress(rid, Waiting)
    case SendFails(rid) => s.WithProgress(rid, Failing(ConnectionLost))
    case Receive(rid) =>
      s.WithProgress(rid,
        if s.dispatches[rid].slot.Full? then Done(Ok(s.dispatches[rid].slot.response)) else Failing(Disconnected))
    case TimeOut(rid) => s.WithProgress(rid, Failing(Timeout))
    case Fail(rid) =>
      s.WithProgress(rid, Done(Err(s.dispatches[rid].progress.error))).(pending := s.pending - {rid})
    case Cancel(rid) => s.WithProgress(rid, Cancelled)
  }

  // ---- What a step leaves alone ----

  /** The step reads or writes connection c. */
  ghost predicate Touches(a: Action, c: ConnId) {
    match a
    case Create | Admit(_) | SendFails(_) | Receive(_) | TimeOut(_) | Fail(_) | Cancel(_) => false
    case CloseReplaced(winner, loser) => c == winner || c == loser
    case Send(_, to, _) => c == to
    case _ => c == a.c
  }

  lemma Untouched(s: State, a: Action, c: ConnId)
    requires Enabled(s, a) && c in s.conns && !Touches(a, c)
    ensures c in Apply(s, a).conns && Apply(s, a).conns[c] == s.conns[c]
  {
  }

  /** The step fills or drains c's incoming channel, or begins or ends a push. */
  ghost predicate Intake(a: Action, c: ConnId) {
    && (a.BeginPush? || a.Enqueue? || a.Refuse? || a.Abandon? || a.AuthReceive? || a.Relay?)
    && a.c == c
  }

  lemma IntakeUntouched(s: State, a: Action, c: ConnId)
    requires Enabled(s, a) && c in s.conns && !Intake(a, c)
    ensures c in Apply(s, a).conns
    ensures var x, y := s.conns[c], Apply(s, a).conns[c];
            y.used == x.used && y.calls == x.calls && y.incoming == x.incoming
  {
    if !Touches(a, c) {
      Untouched(s, a, c);
    }
  }

  lemma IntakeTouched(s: State, a: Action)
    requires (exists c :: Intake(a, c)) && Enabled(s, a)
    ensures a.c in s.conns && a.c in Apply(s, a).conns
    ensures var x, y := s.conns[a.c], Apply(s, a).conns[a.c];
      var z := if a.BeginPush? then x.BeginPush(a.push)
               else if a.Enqueue? then x.Accept(a.push)
               else if a.Refuse? || a.Abandon? then x.EndPush(a.push)
               else x.Consume();
      y.used == z.used && y.calls == z.calls && y.incoming == z.incoming && y.open == x.open
  {
  }

  lemma ServicesUntouched(s: State, a: Action)
    requires Enabled(s, a) && !a.Register? && !a.Cleanup?
    ensures Apply(s, a).services == s.services
  {
  }

  /** The step moves a dispatch on, or admits one. */
  ghost predicate MovesDispatch(a: Action) {
    a.Admit? || a.Send? || a.SendFails? || a.Receive? || a.TimeOut? || a.Fail? || a.Cancel?
  }

  lemma DispatchesUntouched(s: State, a: Action)
    requires Enabled(s, a) && !MovesDispatch(a) && !a.Relay? && !a.Cleanup?
    ensures Apply(s, a).dispatches == s.dispatches && Apply(s, a).pending == s.pending
  {
  }

  /** Relaying and cleaning up only write slots. */
  lemma OnlySlotsWritten(s: State, a: Action)
    requires Enabled(s, a) && (a.Relay? || a.Cleanup?)
    ensures Apply(s, a).dispatches.Keys == s.dispatches.Keys
    ensures forall rid <- s.dispatches ::
      Apply(s, a).dispatches[rid] == s.dispatches[rid].(slot := Apply(s, a).dispatches[rid].slot)
  {
  }

  /** A step of one dispatch writes nothing but its progress. */
  lemma OnlyProgressWritten(s: State, a: Action, rid: RequestId)
    requires Enabled(s, a) && MovesDispatch(a) && rid in s.dispatches
    ensures rid in Apply(s, a).dispatches
    ensures Apply(s, a).dispatches[rid] == s.dispatches[rid].(progress := Apply(s, a).dispatches[rid].progress)
    ensures a.Admit? || a.rid != rid ==> Apply(s, a).dispatches[rid] == s.dispatches[rid]
    ensures s.dispatches[rid].Settled() ==> Apply(s, a).dispatches[rid] == s.dispatches[rid]
  {
  }

  /** A dispatch keeps its request and its route, and a result once there is one. */
  lemma DispatchKept(s: State, a: Action, rid: RequestId)
    requires Enabled(s, a) && rid in s.dispatches
    ensures rid in Apply(s, a).dispatches
    ensures var d, e := s.dispatches[rid], Apply(s, a).dispatches[rid];
      && e.request == d.request && e.route == d.route
      && (d.Settled() ==> e.progress == d.progress)
  {
    if MovesDispatch(a) {
      OnlyProgressWritten(s, a, rid);
    } else if a.Relay? || a.Cleanup? {
      OnlySlotsWritten(s, a);
    } else {
      DispatchesUntouched(s, a);
    }
  }

  /** The newest connection wins; whoever it displaces is remembered for closing. */
  function Registration(s: State, c: ConnId, service: string): State
    requires c in s.conns
  {
    var next := if service in s.services then Replacing(s.services[service]) else Relaying;
    s.WithConn(c, s.conns[c].(phase := next)).(services := s.services[service := c])
  }

  /** Look up the service and, when somebody holds it, enter the request into `pending`. */
  function Admission(s: State, q: TunnelRequest): State {
    if q.service in s.services then
      var c := s.services[q.service];
      s.(pending := s.pending[q.requestId := c],
         dispatches := s.dispatches[q.requestId := Dispatch(q, Some(c), Sending, Empty)])
    else
      s.(dispatches := s.dispatches[q.requestId := Dispatch(q, None, Done(Err(NotConnected)), Dropped)])
  }

  /** Hand a response to the request it answers, provided that request was sent to c. */
  function Relayed(s: State, c: ConnId, text: Text): State {
    match ResponseIn(text)
    case None => s
    case Some(r) =>
      if s.Owns(r.requestId, c) && r.requestId in s.dispatches then
        s.(pending := s.pending - {r.requestId},
           dispatches := s.dispatches[r.requestId := s.dispatches[r.requestId].(slot := Full(r))])
      else s
  }

  /** Remove c's own registration, not a newer one, and drop every reply channel waiting on c. */
  function CleanedUp(s: State, c: ConnId, service: string): State
    requires c in s.conns
  {
    s.(services := if service in s.services && s.services[service] == c then s.services - {service} else s.services,
       pending := map rid | rid in s.pending && s.pending[rid] != c :: s.pending[rid],
       conns := s.conns[c := s.conns[c].(phase := Leaving)],
       dispatches := map rid | rid in s.dispatches ::
         if s.Owns(rid, c) then s.dispatches[rid].(slot := Dropped) else s.dispatches[rid])
  }

  // ---- Runs ----

  type Log = seq<Action>

  /** The state a log leads to from s, or None when some step of it was not enabled. */
  ghost function Run(s: State, log: Log): Option<State> {
    if log == [] then Some(s)
    else
      var n := |log| - 1;
      match Run(s, log[..n])
      case None => None
      case Some(mid) => if Enabled(mid, log[n]) then Some(Apply(mid, log[n])) else None
  }

  /** s is what the server looks like after log. */
  ghost predicate Reaches(secret: string, log: Log, s: State) {
    Run(Init(secret), log) == Some(s)
  }

  lemma RunPrefix(s: State, log: Log, i: nat)
    requires i <= |log| && Run(s, log).Some?
    ensures Run(s, log[..i]).Some?
    decreases |log| - i
  {
    if i < |log| {
      RunPrefix(s, log, i + 1);
      assert log[..i + 1][..i] == log[..i];
    } else {
      assert log[..i] == log;
    }
  }

  /** Every step of a run was enabled where it was taken. */
  lemma RunEnabled(s: State, log: Log, i: nat)
    requires i < |log| && Run(s, log).Some?
    ensures Run(s, log[..i]).Some? && Enabled(Run(s, log[..i]).value, log[i])
  {
    RunPrefix(s, log, i + 1);
    assert log[..i + 1][..i] == log[..i];
  }

  lemma RunStep(s: State, log: Log, a: Action)
    requires Run(s, log).Some? && Enabled(Run(s, log).value, a)
    ensures Run(s, log + [a]) == Some(Apply(Run(s, log).value, a))
  {
    assert (log + [a])[..|log|] == log;
  }
}
