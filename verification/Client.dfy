/** The tunnel client: one session per connection, forwarding concurrently with one writer. */
module Client {
  import opened Wrappers
  import opened Protocol
  import Base64

  datatype ClientConfig = ClientConfig(secret: string, service: string)

  /** What the local service made of a forwarded request. */
  datatype Outcome =
    | Replied(status: u16, headers: StringMap, body: seq<Base64.byte>)
    | LocalTimeout
    | LocalError(message: string)

  /** The response forward_request builds; whatever happened, it carries the request's id. */
  function ForwardResponse(q: TunnelRequest, outcome: Outcome): (r: TunnelResponse)
    ensures r.requestId == q.requestId && r.msgType == "response"
  {
    match outcome
    case Replied(status, headers, body) =>
      TunnelResponse("response", q.requestId, status, headers, Some(Base64.Encode(body)), Some("base64"))
    case LocalTimeout => ErrorResponse(q.requestId, 504, "local service timeout")
    case LocalError(message) => ErrorResponse(q.requestId, 502, "local service error: " + message)
  }

  /** The response reports the outcome: the local service's own status, headers and bytes, or 504
      for a timeout, or 502 for any other failure, each as a JSON error. */
  ghost predicate Reports(r: TunnelResponse, outcome: Outcome) {
    && r.msgType == "response"
    && match outcome
       case Replied(status, headers, body) =>
         r.status == status && r.headers == headers && r.body == Some(Base64.Encode(body)) && r.bodyEncoding == Some("base64")
       case LocalTimeout =>
         && r.status == 504 && r.headers == map["Content-Type" := "application/json"] && r.bodyEncoding == None
         && r.body == Some("{\"error\":\"" + "local service timeout" + "\"}")
       case LocalError(message) =>
         && r.status == 502 && r.headers == map["Content-Type" := "application/json"] && r.bodyEncoding == None
         && r.body == Some("{\"error\":\"" + ("local service error: " + message) + "\"}")
  }

  lemma ForwardReports(q: TunnelRequest, outcome: Outcome)
    ensures ForwardResponse(q, outcome).requestId == q.requestId && Reports(ForwardResponse(q, outcome), outcome)
  {
  }

  datatype Forward = Forward(request: TunnelRequest, outcome: Outcome)
  {
    function Response(): TunnelResponse {
      ForwardResponse(request, outcome)
    }
  }

  // ---- A session as a value ----

  datatype Session = Session(
    received: seq<TunnelRequest>,   // requests spawned, in order
    running: seq<TunnelRequest>,    // forwarding tasks that have not finished
    forwards: seq<Forward>,         // finished ones, in the order they finished
    queue: seq<TunnelResponse>,     // the response channel
    written: seq<TunnelResponse>)   // what went out on the WebSocket
  {
    function Spawn(q: TunnelRequest): Session {
      this.(received := received + [q], running := running + [q])
    }

    function Finish(i: nat, outcome: Outcome): Session
      requires i < |running|
    {
      var f := Forward(running[i], outcome);
      this.(running := running[..i] + running[i + 1..], forwards := forwards + [f], queue := queue + [f.Response()])
    }

    function Write(): Session
      requires queue != []
    {
      this.(queue := queue[1..], written := written + [queue[0]])
    }

    /** A text from the server: requests are spawned, everything else is ignored. */
    function OnText(text: Text): Session {
      match RequestIn(text)
      case Some(q) => Spawn(q)
      case None => this
    }

    /** Every received id is in flight, queued or written, as often as it was received. */
    ghost predicate Balanced() {
      multiset(RequestIds(received))
      == multiset(RequestIds(running)) + multiset(ResponseIds(queue)) + multiset(ResponseIds(written))
    }

    /** Conservation: the ids balance, and responses leave in the order the tasks finished, each
        answering a received request. */
    ghost predicate Conserved() {
      && Balanced()
      && Responses(forwards) == written + queue
      && (forall q {:trigger q in running} | q in running :: q in received)
      && (forall f {:trigger f in forwards} | f in forwards :: f.request in received)
    }
  }

  const NEW_SESSION := Session([], [], [], [], [])

  function RequestIn(text: Text): Option<TunnelRequest> {
    match ParseMessage(text)
    case Ok(Request(q)) => Some(q)
    case _ => None
  }

  lemma RequestInExactly(text: Text)
    ensures forall q :: RequestIn(text) == Some(q) <==> IsRequest(text, q)
  {
    forall q {
      RequestOnWire(text, q);
    }
  }

  function RequestIds(qs: seq<TunnelRequest>): seq<string> {
    seq(|qs|, i requires 0 <= i < |qs| => qs[i].requestId)
  }

  function ResponseIds(rs: seq<TunnelResponse>): seq<string> {
    seq(|rs|, i requires 0 <= i < |rs| => rs[i].requestId)
  }

  function Responses(fs: seq<Forward>): seq<TunnelResponse> {
    seq(|fs|, i requires 0 <= i < |fs| => fs[i].Response())
  }

  lemma NewSessionConserved()
    ensures NEW_SESSION.Conserved()
  {
    assert RequestIds([]) == [] && ResponseIds([]) == [] && Responses([]) == [];
  }

  lemma SpawnConserves(s: Session, q: TunnelRequest)
    requires s.Conserved()
    ensures s.Spawn(q).Conserved()
  {
    assert RequestIds(s.received + [q]) == RequestIds(s.received) + [q.requestId];
    assert RequestIds(s.running + [q]) == RequestIds(s.running) + [q.requestId];
  }

  lemma IdsAround(qs: seq<TunnelRequest>, i: nat)
    requires i < |qs|
    ensures RequestIds(qs) == RequestIds(qs[..i]) + [qs[i].requestId] + RequestIds(qs[i + 1..])
    ensures RequestIds(qs[..i] + qs[i + 1..]) == RequestIds(qs[..i]) + RequestIds(qs[i + 1..])
  {
  }

  lemma IdAppended(rs: seq<TunnelResponse>, r: TunnelResponse)
    ensures ResponseIds(rs + [r]) == ResponseIds(rs) + [r.requestId]
  {
  }

  lemma FinishKeepsBalance(s: Session, i: nat, outcome: Outcome)
    requires s.Balanced() && i < |s.running|
    ensures s.Finish(i, outcome).Balanced()
  {
    IdsAround(s.running, i);
    IdAppended(s.queue, ForwardResponse(s.running[i], outcome));
  }

  lemma FinishConserves(s: Session, i: nat, outcome: Outcome)
    requires s.Conserved() && i < |s.running|
    ensures s.Finish(i, outcome).Conserved()
  {
    FinishKeepsBalance(s, i, outcome);
    var f := Forward(s.running[i], outcome);
    assert Responses(s.forwards + [f]) == Responses(s.forwards) + [f.Response()];
    assert f.request in s.running;
    forall q <- s.Finish(i, outcome).running ensures q in s.received {
      assert q in s.running;
    }
  }

  lemma WriteKeepsBalance(s: Session)
    requires s.Balanced() && s.queue != []
    ensures s.Write().Balanced()
  {
    var r := s.queue[0];
    assert ResponseIds(s.queue) == [r.requestId] + ResponseIds(s.queue[1..]);
    assert ResponseIds(s.written + [r]) == ResponseIds(s.written) + [r.requestId];
  }

  lemma WriteConserves(s: Session)
    requires s.Conserved() && s.queue != []
    ensures s.Write().Conserved()
  {
    WriteKeepsBalance(s);
    FirstMovesOver(s.written, s.queue);
  }

  lemma FirstMovesOver(written: seq<TunnelResponse>, queue: seq<TunnelResponse>)
    requires queue != []
    ensures (written + [queue[0]]) + queue[1..] == written + queue
  {
  }

  /** Every written response is what forward_request produced for a request received on this
      session, and no id is answered more often than it was received. */
  lemma WrittenAnswersReceived(s: Session, r: TunnelResponse)
    requires s.Conserved()
    ensures multiset(ResponseIds(s.written)) <= multiset(RequestIds(s.received))
    ensures r in s.written ==>
              exists f :: f in s.forwards && f.request in s.received && r == f.Response()
                          && r.requestId == f.request.requestId && Reports(r, f.outcome)
  {
    if r in s.written {
      var i :| 0 <= i < |s.written| && s.written[i] == r;
      assert Responses(s.forwards)[i] == (s.written + s.queue)[i] == r;
      assert s.forwards[i] in s.forwards;
      ForwardReports(s.forwards[i].request, s.forwards[i].outcome);
    }
  }

  // ---- The client's own loop ----

  datatype WsEvent = TextMessage(text: Text) | CloseMessage | OtherMessage | StreamEnd

  /** One round of the select loop: which branch was ready. A send can fail. */
  datatype Event =
    | ResponseReady(sent: bool)
    | Joined
    | Incoming(message: WsEvent)
    | Tick(sent: bool)
    | TaskFinished(task: nat, outcome: Outcome)   // a spawned task, not a branch

  datatype Exit =
    | Unreachable   // no WebSocket was opened
    | AuthNotSent   // the auth message could not be written
    | AuthFailed
    | Closed
    | WriteFailed(lost: TunnelResponse)
    | PingFailed
    | StillOpen   // the schedule ends here, the loop does not

  /** The request one round of the loop brings in. */
  function Brings(e: Event): seq<TunnelRequest> {
    if e.Incoming? && e.message.TextMessage? && RequestIn(e.message.text).Some?
    then [RequestIn(e.message.text).value] else []
  }

  /** The requests a stretch of the schedule brings in. */
  function RequestsIn(schedule: seq<Event>): seq<TunnelRequest> {
    if schedule == [] then []
    else RequestsIn(schedule[..|schedule| - 1]) + Brings(schedule[|schedule| - 1])
  }

  /** What one round does to the session. A branch that is not ready changes nothing, and a
      failed write ends the loop. */
  function After(s: Session, e: Event): Session {
    match e
    case ResponseReady(sent) => if sent && s.queue != [] then s.Write() else s
    case Incoming(TextMessage(text)) => s.OnText(text)
    case TaskFinished(i, outcome) => if i < |s.running| then s.Finish(i, outcome) else s
    case _ => s
  }

  function AfterAll(schedule: seq<Event>): Session {
    if schedule == [] then NEW_SESSION
    else After(AfterAll(schedule[..|schedule| - 1]), schedule[|schedule| - 1])
  }

  /** What one round does to the loop: a failed write, a failed ping, a close frame and the end
      of the stream leave it, nothing else does. */
  function Ends(s: Session, e: Event): Exit {
    match e
    case ResponseReady(sent) => if !sent && s.queue != [] then WriteFailed(s.queue[0]) else StillOpen
    case Incoming(CloseMessage) => Closed
    case Incoming(StreamEnd) => Closed
    case Tick(sent) => if sent then StillOpen else PingFailed
    case _ => StillOpen
  }

  /** What one round does, field by field: the oldest response is written, a request is taken in,
      a finished task hands over its response, and nothing else happens. */
  lemma EachRound(s: Session, e: Event)
    ensures var t := After(s, e);
      match e
      case ResponseReady(sent) =>
        t == if sent && s.queue != [] then s.(queue := s.queue[1..], written := s.written + [s.queue[0]]) else s
      case Incoming(TextMessage(text)) =>
        && (forall q | IsRequest(text, q) :: t == s.(received := s.received + [q], running := s.running + [q]))
        && ((forall q :: !IsRequest(text, q)) ==> t == s)
      case TaskFinished(i, outcome) =>
        if i < |s.running| then
          exists r :: Reports(r, outcome) && r.requestId == s.running[i].requestId
                      && t == s.(running := s.running[..i] + s.running[i + 1..],
                                 forwards := s.forwards + [Forward(s.running[i], outcome)], queue := s.queue + [r])
        else t == s
      case _ => t == s
  {
    match e
    case Incoming(TextMessage(text)) => RequestInExactly(text);
    case TaskFinished(i, outcome) =>
      if i < |s.running| {
        ForwardReports(s.running[i], outcome);
      }
    case _ =>
  }

  function EndsAt(schedule: seq<Event>, k: nat): Exit
    requires k < |schedule|
  {
    Ends(AfterAll(schedule[..k]), schedule[k])
  }

  /** Round k leaves the loop: a close frame, the end of the stream, a ping or a queued response
      that cannot be written. */
  ghost predicate Leaves(schedule: seq<Event>, k: nat)
    requires k < |schedule|
  {
    || schedule[k] == Incoming(CloseMessage) || schedule[k] == Incoming(StreamEnd) || schedule[k] == Tick(false)
    || (schedule[k] == ResponseReady(false) && AfterAll(schedule[..k]).queue != [])
  }

  /** The loop took exactly n rounds: no round before the last one leaves it, the exit names what
      the last one was, and the loop only stays open when the schedule is used up. */
  ghost predicate Played(schedule: seq<Event>, n: nat, exit: Exit) {
    && n <= |schedule|
    && (forall k: nat | k < n - 1 :: !Leaves(schedule, k))
    && match exit
       case Closed => n > 0 && (schedule[n - 1] == Incoming(CloseMessage) || schedule[n - 1] == Incoming(StreamEnd))
       case PingFailed => n > 0 && schedule[n - 1] == Tick(false)
       case WriteFailed(lost) =>
         && n > 0 && schedule[n - 1] == ResponseReady(false)
         && var queue := AfterAll(schedule[..n - 1]).queue;
         queue != [] && lost == queue[0]
       case StillOpen => n == |schedule| && (n > 0 ==> !Leaves(schedule, n - 1))
       case _ => false
  }

  ghost predicate PlayedUpTo(schedule: seq<Event>, n: nat, exit: Exit) {
    && n <= |schedule|
    && (forall k {:trigger EndsAt(schedule, k)} | 0 <= k < n - 1 :: EndsAt(schedule, k).StillOpen?)
    && exit == if n == 0 then StillOpen else EndsAt(schedule, n - 1)
  }

  /** The rounds that end the loop are exactly those that leave it. */
  lemma PlayedExactly(schedule: seq<Event>, n: nat, exit: Exit)
    ensures Played(schedule, n, exit) <==> PlayedUpTo(schedule, n, exit) && (exit.StillOpen? ==> n == |schedule|)
  {
    if n <= |schedule| {
      forall k: nat | k < n ensures EndsAt(schedule, k).StillOpen? <==> !Leaves(schedule, k) {
      }
    }
  }

  lemma OneMoreRound(schedule: seq<Event>, n: nat)
    requires n < |schedule| && PlayedUpTo(schedule, n, StillOpen)
    ensures AfterAll(schedule[..n + 1]) == After(AfterAll(schedule[..n]), schedule[n])
    ensures PlayedUpTo(schedule, n + 1, Ends(AfterAll(schedule[..n]), schedule[n]))
  {
    assert schedule[..n + 1][..n] == schedule[..n];
    assert n > 0 ==> EndsAt(schedule, n - 1) == StillOpen;
  }

  /** A schedule leaves the loop no choice of where to end, nor of how. */
  lemma PlayedOneWay(schedule: seq<Event>, n: nat, exit: Exit, m: nat, other: Exit)
    requires Played(schedule, n, exit) && Played(schedule, m, other)
    ensures n == m && exit == other
  {
    PlayedExactly(schedule, n, exit);
    PlayedExactly(schedule, m, other);
  }

  lemma OnTextConserves(s: Session, text: Text)
    requires s.Conserved()
    ensures s.OnText(text).Conserved()
  {
    if RequestIn(text).Some? {
      SpawnConserves(s, RequestIn(text).value);
    }
  }

  lemma AfterReceives(s: Session, e: Event)
    ensures After(s, e).received == s.received + Brings(e)
  {
  }

  lemma AfterConserves(s: Session, e: Event)
    requires s.Conserved()
    ensures After(s, e).Conserved()
  {
    match e
    case ResponseReady(sent) => if sent && s.queue != [] { WriteConserves(s); }
    case Incoming(TextMessage(text)) => OnTextConserves(s, text);
    case TaskFinished(i, outcome) => if i < |s.running| { FinishConserves(s, i, outcome); }
    case _ =>
  }

  /** Whatever branches are ready and in whatever order tasks finish, nothing received is lost
      and nothing is answered twice. */
  lemma {:induction false} AllConserved(schedule: seq<Event>)
    ensures AfterAll(schedule).Conserved() && AfterAll(schedule).received == RequestsIn(schedule)
    decreases |schedule|
  {
    if schedule != [] {
      var n := |schedule| - 1;
      AllConserved(schedule[..n]);
      AfterConserves(AfterAll(schedule[..n]), schedule[n]);
      AfterReceives(AfterAll(schedule[..n]), schedule[n]);
    } else {
      NewSessionConserved();
    }
  }

  function AuthText(config: ClientConfig): Text {
    Serialize(Auth(AuthMessage("auth", config.secret, config.service)))
  }

  /** The WebSocket carries the auth message and then the written responses, in order. */
  ghost predicate Transcript(sink: seq<Text>, config: ClientConfig, written: seq<TunnelResponse>) {
    && |sink| == 1 + |written| && sink[0] == AuthText(config)
    && forall i | 0 <= i < |written| :: sink[i + 1] == Serialize(Response(written[i]))
  }

  lemma AuthWritten(config: ClientConfig)
    ensures IsAuth(AuthText(config), config.secret, config.service)
  {
    WrittenOnWire(Auth(AuthMessage("auth", config.secret, config.service)));
  }

  /** The same field by field. */
  ghost predicate WrittenOut(sink: seq<Text>, config: ClientConfig, written: seq<TunnelResponse>) {
    && |sink| == 1 + |written| && IsAuth(sink[0], config.secret, config.service)
    && forall i | 0 <= i < |written| :: IsResponse(sink[i + 1], written[i])
  }

  lemma TranscriptOnWire(sink: seq<Text>, config: ClientConfig, s: Session)
    requires Transcript(sink, config, s.written) && s.Conserved()
    ensures WrittenOut(sink, config, s.written)
  {
    AuthWritten(config);
    forall i | 0 <= i < |s.written| ensures IsResponse(sink[i + 1], s.written[i]) {
      assert (s.written + s.queue)[i] == Responses(s.forwards)[i];
      WrittenOnWire(Response(s.written[i]));
    }
  }

  ghost predicate Accepts(reply: WsEvent) {
    reply.TextMessage? && IsAuthOk(reply.text)
  }

  lemma AcceptsExactly(text: Text)
    ensures Accepts(TextMessage(text)) <==> ParseMessage(text).Ok? && ParseMessage(text).value.AuthOk?
  {
    AuthOkOnWire(text);
    if ParseMessage(text).Ok? && ParseMessage(text).value.AuthOk? {
      DecodedKind(text.value.fields, text.value.fields["type"].s);
    }
  }

  class ClientConnection {
    var running: seq<TunnelRequest>
    var finished: nat                       // tasks join_next has not reaped yet
    var queue: seq<TunnelResponse>
    var sink: seq<Text>                     // what was written to the WebSocket
    ghost var history: Session

    ghost predicate Valid()
      reads this
    {
      history.running == running && history.queue == queue
    }

    constructor ()
      ensures Valid() && history == NEW_SESSION && sink == []
    {
      running, finished, queue, sink := [], 0, [], [];
      history := NEW_SESSION;
    }

    /** Send the auth message, which may fail, and look at the first reply. */
    method Authenticate(config: ClientConfig, sent: bool, reply: WsEvent) returns (failure: Option<Exit>)
      requires Valid() && sink == []
      modifies this`sink
      ensures sink == if sent then [AuthText(config)] else []
      ensures sent ==> IsAuth(sink[0], config.secret, config.service)
      ensures failure == Some(AuthNotSent) <==> !sent
      ensures failure == Some(AuthFailed) <==> sent && !Accepts(reply)
      ensures failure == None <==> sent && Accepts(reply)
    {
      if !sent {
        return Some(AuthNotSent);
      }
      AuthWritten(config);
      sink := sink + [AuthText(config)];
      failure := Some(AuthFailed);
      if reply.TextMessage? {
        AcceptsExactly(reply.text);
        match ParseMessage(reply.text) {
          case Ok(AuthOk(_)) => failure := None;
          case _ =>
        }
      }
    }

    /** A forwarding task finishes and puts its response on the channel. */
    method FinishTask(i: nat, outcome: Outcome)
      requires Valid() && i < |running|
      modifies this`running, this`queue, this`finished, this`history
      ensures Valid() && history == old(history).Finish(i, outcome)
    {
      history := history.Finish(i, outcome);
      queue := queue + [ForwardResponse(running[i], outcome)];
      running := running[..i] + running[i + 1..];
      finished := finished + 1;
    }

    /** Take the next response off the channel and write it. When the write fails the response
        is gone and the loop ends. */
    method WriteNext(sent: bool) returns (lost: Option<TunnelResponse>)
      requires Valid() && queue != []
      modifies this`queue, this`sink, this`history
      ensures sent ==> lost.None? && Valid() && history == old(history).Write()
                       && sink == old(sink) + [Serialize(Response(old(queue)[0]))]
      ensures !sent ==> lost == Some(old(queue)[0]) && queue == old(queue)[1..]
                        && history == old(history) && sink == old(sink)
    {
      var response := queue[0];
      queue := queue[1..];
      if sent {
        history := history.Write();
        sink := sink + [Serialize(Response(response))];
        lost := None;
      } else {
        lost := Some(response);
      }
    }

    /** A message from the WebSocket; true when it ends the loop. */
    method OnMessage(message: WsEvent) returns (done: bool)
      requires Valid()
      modifies this`running, this`history
      ensures Valid()
      ensures done <==> message.StreamEnd? || message.CloseMessage?
      ensures history == if message.TextMessage? then old(history).OnText(message.text) else old(history)
    {
      done := false;
      match message {
        case StreamEnd => done := true;
        case CloseMessage => done := true;
        case OtherMessage =>
        case TextMessage(text) =>
          match ParseMessage(text) {
            case Ok(Request(q)) =>
              history := history.Spawn(q);
              running := running + [q];
            case _ =>
          }
      }
    }

    /** One round of the select loop. */
    method Round(e: Event, ghost config: ClientConfig) returns (exit: Exit)
      requires Valid() && Transcript(sink, config, history.written)
      modifies this
      ensures history == After(old(history), e) && Transcript(sink, config, history.written)
      ensures exit == Ends(old(history), e)
      ensures history.running == running
      ensures history.queue == if exit.WriteFailed? then [exit.lost] + queue else queue
    {
      exit := StillOpen;
      match e {
        case ResponseReady(sent) =>
          if queue != [] {
            var lost := WriteNext(sent);
            if lost.Some? {
              exit := WriteFailed(lost.value);
            }
          }
        case Joined =>
          if finished > 0 {
            finished := finished - 1;
          }
        case Incoming(message) =>
          var done := OnMessage(message);
          if done {
            exit := Closed;
          }
        case Tick(sent) =>
          if !sent {
            exit := PingFailed;
          }
        case TaskFinished(i, outcome) =>
          if i < |running| {
            FinishTask(i, outcome);
          }
      }
    }

    /** The session from the handshake to the exit, for any schedule of ready branches. Until
        the exit every received request is in flight, queued or written; a failed write loses
        one response and nothing else. */
    method RunConnection(config: ClientConfig, sent: bool, reply: WsEvent, schedule: seq<Event>)
      returns (exit: Exit, processed: nat)
      requires Valid() && history == NEW_SESSION && sink == []
      modifies this
      ensures if !sent then exit == AuthNotSent && processed == 0 && sink == []
              else if !Accepts(reply) then exit == AuthFailed && processed == 0 && sink == [AuthText(config)]
              else Played(schedule, processed, exit) && Transcript(sink, config, history.written)
                   && WrittenOut(sink, config, history.written)
      ensures processed <= |schedule| && history == AfterAll(schedule[..processed])
      ensures history.Conserved() && history.received == RequestsIn(schedule[..processed])
      ensures history.running == running
      ensures history.queue == if exit.WriteFailed? then [exit.lost] + queue else queue
    {
      AllConserved([]);
      var failure := Authenticate(config, sent, reply);
      if failure.Some? {
        return failure.value, 0;
      }
      exit, processed := Loop(schedule, config);
      AllConserved(schedule[..processed]);
      TranscriptOnWire(sink, config, history);
    }

    /** The object after n rounds of a schedule. */
    ghost predicate InStep(config: ClientConfig, schedule: seq<Event>, n: nat, exit: Exit)
      reads this
    {
      && n <= |schedule| && history == AfterAll(schedule[..n])
      && Transcript(sink, config, history.written)
      && history.running == running
      && history.queue == if exit.WriteFailed? then [exit.lost] + queue else queue
    }

    /** The select loop. */
    method Loop(schedule: seq<Event>, ghost config: ClientConfig) returns (exit: Exit, processed: nat)
      requires Valid() && history == NEW_SESSION && Transcript(sink, config, [])
      modifies this
      ensures Played(schedule, processed, exit) && InStep(config, schedule, processed, exit)
    {
      exit, processed := StillOpen, 0;
      while processed < |schedule| && exit.StillOpen?
        invariant PlayedUpTo(schedule, processed, exit) && InStep(config, schedule, processed, exit)
        decreases |schedule| - processed
      {
        OneMoreRound(schedule, processed);
        exit := Round(schedule[processed], config);
        processed := processed + 1;
      }
      PlayedExactly(schedule, processed, exit);
    }
  }

  /** One turn of the reconnect loop: whether a WebSocket opens, whether the auth message gets
      out, the reply to it, and the branches that become ready. */
  datatype Attempt = Attempt(connected: bool, sent: bool, reply: WsEvent, schedule: seq<Event>)

  /** An attempt ended after n rounds, as it had to, and wrote its auth message and the responses
      of those rounds, which answer what this very attempt received. */
  ghost predicate SelfContained(config: ClientConfig, attempt: Attempt, sink: seq<Text>, n: nat, exit: Exit) {
    if !attempt.connected then exit == Unreachable && sink == [] && n == 0
    else if !attempt.sent then exit == AuthNotSent && sink == [] && n == 0
    else if !Accepts(attempt.reply) then exit == AuthFailed && sink == [AuthText(config)] && n == 0
    else
      && Played(attempt.schedule, n, exit)
      && var session := AfterAll(attempt.schedule[..n]);
      && session.Conserved() && session.received == RequestsIn(attempt.schedule[..n])
      && Transcript(sink, config, session.written) && WrittenOut(sink, config, session.written)
  }

  method Connect(config: ClientConfig, attempt: Attempt) returns (sink: seq<Text>, rounds: nat, exit: Exit)
    ensures SelfContained(config, attempt, sink, rounds, exit)
  {
    if !attempt.connected {
      return [], 0, Unreachable;
    }
    var connection := new ClientConnection();
    exit, rounds := connection.RunConnection(config, attempt.sent, attempt.reply, attempt.schedule);
    sink := connection.sink;
  }

  /** What one attempt left behind. */
  datatype Trace = Trace(sink: seq<Text>, rounds: nat, exit: Exit)

  /** The reconnect loop over any number of attempts: however one ends, the next one is made, and
      starts from nothing. */
  method Reconnect(config: ClientConfig, attempts: seq<Attempt>) returns (traces: seq<Trace>)
    ensures |traces| == |attempts|
    ensures forall k | 0 <= k < |attempts| ::
              SelfContained(config, attempts[k], traces[k].sink, traces[k].rounds, traces[k].exit)
  {
    traces := [];
    for k := 0 to |attempts|
      invariant |traces| == k
      invariant forall j | 0 <= j < k ::
                  SelfContained(config, attempts[j], traces[j].sink, traces[j].rounds, traces[j].exit)
    {
      var sink, n, exit := Connect(config, attempts[k]);
      traces := traces + [Trace(sink, n, exit)];
    }
  }
}
