/** What every step keeps. */
module Invariants {
  import opened Wrappers
  import opened Protocol
  import opened Tunnel

  /** A services entry belongs to a connection that authenticated for that service, has
      registered and has not cleaned up. */
  ghost predicate ServiceEntry(s: State, service: string) {
    && service in s.services
    && var c := s.services[service];
    c in s.conns && s.conns[c].Registered() && s.conns[c].service == Some(service)
  }

  /** A pending entry belongs to a dispatch that is in flight or was cancelled, is tagged with
      the connection that dispatch was routed to, and that connection has not cleaned up. */
  ghost predicate PendingEntry(s: State, rid: RequestId) {
    && rid in s.pending && rid in s.dispatches
    && (s.dispatches[rid].InFlight() || s.dispatches[rid].progress.Cancelled?)
    && s.dispatches[rid].route == Some(s.pending[rid])
    && s.pending[rid] in s.conns && s.conns[s.pending[rid]].Registered()
  }

  /** No lost wake-up: exactly one of "still pending on the route", "answered" and "dropped by
      the route's cleanup" holds. The slot says which one. */
  ghost predicate Awaited(s: State, rid: RequestId)
    requires rid in s.dispatches
  {
    var d := s.dispatches[rid];
    && d.route.Some?
    && (d.slot.Empty? <==> rid in s.pending)
    && (d.slot.Empty? ==> s.Owns(rid, d.route.value))
    && (d.slot.Full? ==> d.slot.response.requestId == rid)
    && (d.slot.Dropped? ==> d.route.value in s.conns && !s.conns[d.route.value].Registered())
  }

  ghost predicate DispatchEntry(s: State, rid: RequestId) {
    && rid in s.dispatches
    && var d := s.dispatches[rid];
    && d.request.requestId == rid && d.request.msgType == "request"
    && (d.route.Some? ==>
      && d.route.value in s.conns
      && s.conns[d.route.value].service == Some(d.request.service)
      && s.conns[d.route.value].PastRegistration())
    && (d.InFlight() || d.progress.Cancelled? ==> Awaited(s, rid))
    // The route's drain task cannot end under a dispatch, so its send cannot fail.
    && (d.InFlight() ==> s.conns[d.route.value].receiving)
    && d.progress != Failing(ConnectionLost)
    && match d.progress
       case Done(Ok(r)) => d.route.Some? && d.slot == Full(r) && r.requestId == rid
       case Done(Err(e)) =>
         e != ConnectionLost && (e.NotConnected? <==> d.route.None?) && (e.Disconnected? ==> d.slot.Dropped?)
       case Failing(e) => !e.NotConnected? && (e.Disconnected? ==> d.slot.Dropped?)
       case _ => true
  }

  ghost predicate ConnEntry(s: State, c: ConnId) {
    && c in s.conns && FIRST_CONN_ID <= c < s.nextConnId
    && var x := s.conns[c];
    && |x.incoming| <= CAPACITY && |x.outgoing| <= CAPACITY
    && (x.phase.Created? || x.phase.Authenticating? ==> x.service.None? && x.Stream() == [] && x.receiving)
    && (x.phase.Authenticated? || x.Registered() ==> x.service.Some?)
    && (!x.receiving ==> x.SenderDropped() && x.outgoing == [])
    && (x.phase.Returned? ==> !x.receiving)
    // The relay loop ends only when nothing can arrive any more.
    && (x.service.Some? && (x.phase.Leaving? || x.SenderDropped()) ==> x.IncomingEnded())
    && (x.phase.Replacing? ==> Displaced(s, c, x.phase.loser) && s.conns[x.phase.loser].receiving)
    && (x.phase.Closing? ==> Displaced(s, c, x.phase.loser))
  }

  /** loser registered for c's service before c did. */
  ghost predicate Displaced(s: State, c: ConnId, loser: ConnId)
    requires c in s.conns
  {
    && loser != c && loser in s.conns && s.conns[loser].service == s.conns[c].service
    && s.conns[loser].PastRegistration()
  }

  ghost predicate Inv(s: State) {
    && FIRST_CONN_ID <= s.nextConnId
    && (forall service {:trigger ServiceEntry(s, service)} | service in s.services :: ServiceEntry(s, service))
    && (forall rid {:trigger PendingEntry(s, rid)} | rid in s.pending :: PendingEntry(s, rid))
    && (forall rid {:trigger DispatchEntry(s, rid)} | rid in s.dispatches :: DispatchEntry(s, rid))
    && (forall c {:trigger ConnEntry(s, c)} | c in s.conns :: ConnEntry(s, c))
  }

  // ---- Frames: what one connection's or one dispatch's step may change ----

  /** x may become y while everything that refers to the connection stays true. */
  ghost predicate Advances(x: Conn, y: Conn) {
    && (x.service.Some? ==> y.service == x.service)
    && (x.Registered() ==> y.Registered())
    && (x.PastRegistration() && y.Registered() ==> x.Registered())
    && (x.receiving ==> y.receiving)
    && (x.PastRegistration() ==> y.PastRegistration())
  }

  lemma ConnFrame(s: State, c: ConnId, x: Conn)
    requires Inv(s) && c in s.conns && Advances(s.conns[c], x)
    requires ConnEntry(s.WithConn(c, x), c)
    ensures Inv(s.WithConn(c, x))
  {
    var t := s.WithConn(c, x);
    forall service <- t.services ensures ServiceEntry(t, service) {
      assert ServiceEntry(s, service);
    }
    forall rid <- t.pending ensures PendingEntry(t, rid) {
      assert PendingEntry(s, rid);
    }
    forall rid <- t.dispatches ensures DispatchEntry(t, rid) {
      assert DispatchEntry(s, rid);
    }
    forall other <- t.conns ensures ConnEntry(t, other) {
      assert other != c ==> ConnEntry(s, other);
    }
  }

  lemma ProgressFrame(s: State, rid: RequestId, progress: Progress)
    requires Inv(s) && rid in s.dispatches
    requires DispatchEntry(s.WithProgress(rid, progress), rid)
    requires rid in s.pending ==> s.WithProgress(rid, progress).dispatches[rid].InFlight() || progress.Cancelled?
    ensures Inv(s.WithProgress(rid, progress))
  {
    var t := s.WithProgress(rid, progress);
    forall service <- t.services ensures ServiceEntry(t, service) {
      assert ServiceEntry(s, service);
    }
    forall other <- t.pending ensures PendingEntry(t, other) {
      assert PendingEntry(s, other);
    }
    forall other <- t.dispatches ensures DispatchEntry(t, other) {
      assert DispatchEntry(s, other);
    }
    forall c <- t.conns ensures ConnEntry(t, c) {
      assert ConnEntry(s, c);
    }
  }

  // ---- The steps that touch the shared tables ----

  lemma CreateKeeps(s: State)
    requires Inv(s) && Enabled(s, Create)
    ensures Inv(Apply(s, Create))
  {
    var t := Apply(s, Create);
    forall service <- t.services ensures ServiceEntry(t, service) {
      assert ServiceEntry(s, service);
    }
    forall rid <- t.pending ensures PendingEntry(t, rid) {
      assert PendingEntry(s, rid);
    }
    forall rid <- t.dispatches ensures DispatchEntry(t, rid) {
      assert DispatchEntry(s, rid);
    }
    forall c <- t.conns ensures ConnEntry(t, c) {
      assert c != s.nextConnId ==> ConnEntry(s, c);
    }
  }

  lemma RegistrationKeeps(s: State, c: ConnId, service: string)
    requires Inv(s) && Enabled(s, Register(c, service))
    ensures Inv(Apply(s, Register(c, service)))
  {
    assert ConnEntry(s, c);
    if service in s.services {
      assert ServiceEntry(s, service);
      assert ConnEntry(s, s.services[service]);
    }
    var x := Registration(s, c, service).conns[c];
    ConnFrame(s, c, x);
    HandleKeeps(s.WithConn(c, x), c, service);
  }

  lemma HandleKeeps(s: State, c: ConnId, service: string)
    requires Inv(s) && c in s.conns && s.conns[c].Registered() && s.conns[c].service == Some(service)
    ensures Inv(s.(services := s.services[service := c]))
  {
    var t := s.(services := s.services[service := c]);
    forall other <- t.services ensures ServiceEntry(t, other) {
      assert other != service ==> ServiceEntry(s, other);
    }
    forall rid <- t.pending ensures PendingEntry(t, rid) {
      assert PendingEntry(s, rid);
    }
    forall rid <- t.dispatches ensures DispatchEntry(t, rid) {
      assert DispatchEntry(s, rid);
    }
    forall other <- t.conns ensures ConnEntry(t, other) {
      assert ConnEntry(s, other);
    }
  }

  lemma CleanedUpKeeps(s: State, c: ConnId, service: string)
    requires Inv(s) && Enabled(s, Cleanup(c, service))
    ensures Inv(Apply(s, Cleanup(c, service)))
  {
    var t := CleanedUp(s, c, service);
    forall other <- t.services ensures ServiceEntry(t, other) {
      assert ServiceEntry(s, other);
    }
    forall rid <- t.pending ensures PendingEntry(t, rid) {
      assert PendingEntry(s, rid);
    }
    forall rid <- t.dispatches ensures DispatchEntry(t, rid) {
      assert DispatchEntry(s, rid);
      assert rid in s.pending ==> PendingEntry(s, rid);
    }
    forall other <- t.conns ensures ConnEntry(t, other) {
      assert ConnEntry(s, other);
    }
  }

  lemma AdmissionKeeps(s: State, q: TunnelRequest)
    requires Inv(s) && Enabled(s, Admit(q))
    ensures Inv(Apply(s, Admit(q)))
  {
    assert q.requestId in s.pending ==> PendingEntry(s, q.requestId);
    if q.service in s.services {
      assert ServiceEntry(s, q.service);
      assert ConnEntry(s, s.services[q.service]);
      RoutedKeeps(s, q, s.services[q.service]);
    } else {
      UnroutedKeeps(s, q);
    }
  }

  lemma RoutedKeeps(s: State, q: TunnelRequest, c: ConnId)
    requires Inv(s) && q.requestId !in s.dispatches && q.requestId !in s.pending && q.msgType == "request"
    requires c in s.conns && s.conns[c].Registered() && s.conns[c].service == Some(q.service) && s.conns[c].receiving
    ensures Inv(s.(pending := s.pending[q.requestId := c],
                   dispatches := s.dispatches[q.requestId := Dispatch(q, Some(c), Sending, Empty)]))
  {
    var rid := q.requestId;
    var t := s.(pending := s.pending[rid := c], dispatches := s.dispatches[rid := Dispatch(q, Some(c), Sending, Empty)]);
    assert DispatchEntry(t, rid);
    forall service <- t.services ensures ServiceEntry(t, service) {
      assert ServiceEntry(s, service);
    }
    forall other <- t.pending ensures PendingEntry(t, other) {
      assert other != rid ==> PendingEntry(s, other);
    }
    forall other <- t.dispatches | other != rid ensures DispatchEntry(t, other) {
      assert DispatchEntry(s, other);
    }
    forall other <- t.conns ensures ConnEntry(t, other) {
      assert ConnEntry(s, other);
    }
  }

  lemma UnroutedKeeps(s: State, q: TunnelRequest)
    requires Inv(s) && q.requestId !in s.dispatches && q.requestId !in s.pending && q.msgType == "request"
    ensures Inv(s.(dispatches :=
                     s.dispatches[q.requestId := Dispatch(q, None, Done(Err(NotConnected)), Dropped)]))
  {
    var rid := q.requestId;
    var t := s.(dispatches := s.dispatches[rid := Dispatch(q, None, Done(Err(NotConnected)), Dropped)]);
    assert DispatchEntry(t, rid);
    forall service <- t.services ensures ServiceEntry(t, service) {
      assert ServiceEntry(s, service);
    }
    forall other <- t.pending ensures PendingEntry(t, other) {
      assert PendingEntry(s, other);
    }
    forall other <- t.dispatches | other != rid ensures DispatchEntry(t, other) {
      assert DispatchEntry(s, other);
    }
    forall other <- t.conns ensures ConnEntry(t, other) {
      assert ConnEntry(s, other);
    }
  }

  lemma RelayedKeeps(s: State, c: ConnId, text: Text)
    requires Inv(s) && c in s.conns
    ensures Inv(Relayed(s, c, text))
  {
    var answer := ResponseIn(text);
    if answer.Some? && s.Owns(answer.value.requestId, c) {
      assert PendingEntry(s, answer.value.requestId);
      AnswerKeeps(s, answer.value);
    }
  }

  lemma AnswerKeeps(s: State, r: TunnelResponse)
    requires Inv(s) && r.requestId in s.pending && r.requestId in s.dispatches
    ensures Inv(s.(pending := s.pending - {r.requestId},
                   dispatches := s.dispatches[r.requestId := s.dispatches[r.requestId].(slot := Full(r))]))
  {
    var rid := r.requestId;
    var t := s.(pending := s.pending - {rid},
                dispatches := s.dispatches[rid := s.dispatches[rid].(slot := Full(r))]);
    assert PendingEntry(s, rid);
    forall service <- t.services ensures ServiceEntry(t, service) {
      assert ServiceEntry(s, service);
    }
    forall other <- t.pending ensures PendingEntry(t, other) {
      assert PendingEntry(s, other);
    }
    forall other <- t.dispatches ensures DispatchEntry(t, other) {
      assert DispatchEntry(s, other);
    }
    forall c <- t.conns ensures ConnEntry(t, c) {
      assert ConnEntry(s, c);
    }
  }

  lemma FailKeeps(s: State, rid: RequestId)
    requires Inv(s) && Enabled(s, Fail(rid))
    ensures Inv(Apply(s, Fail(rid)))
  {
    var t := Apply(s, Fail(rid));
    assert DispatchEntry(s, rid);
    assert DispatchEntry(t, rid);
    forall service <- t.services ensures ServiceEntry(t, service) {
      assert ServiceEntry(s, service);
    }
    forall other <- t.pending ensures PendingEntry(t, other) {
      assert PendingEntry(s, other);
    }
    forall other <- t.dispatches | other != rid ensures DispatchEntry(t, other) {
      assert DispatchEntry(s, other);
    }
    forall c <- t.conns ensures ConnEntry(t, c) {
      assert ConnEntry(s, c);
    }
  }

  /** Once no sender is left the receiver may go: nobody relies on it any more. */
  lemma DrainEndKeeps(s: State, c: ConnId)
    requires Inv(s) && Enabled(s, DrainEnd(c))
    ensures Inv(Apply(s, DrainEnd(c)))
  {
    var t := Apply(s, DrainEnd(c));
    forall service <- t.services ensures ServiceEntry(t, service) {
      assert ServiceEntry(s, service);
    }
    forall rid <- t.pending ensures PendingEntry(t, rid) {
      assert PendingEntry(s, rid);
    }
    forall rid <- t.dispatches ensures DispatchEntry(t, rid) {
      assert DispatchEntry(s, rid);
      assert !s.dispatches[rid].SentOn(c);
    }
    forall other <- t.conns ensures ConnEntry(t, other) {
      assert ConnEntry(s, other);
      assert s.conns[other].phase != Replacing(c);
    }
  }

  /** A replaced connection is still running when its replacer upgrades the weak reference:
      the handle's sender has kept its drain task alive. So the upgrade always succeeds. */
  lemma UpgradeSucceeds(s: State, c: ConnId)
    requires Inv(s) && c in s.conns && s.conns[c].phase.Replacing?
    ensures s.conns[c].phase.loser in s.conns && s.conns[s.conns[c].phase.loser].Running()
  {
    assert ConnEntry(s, c);
    assert ConnEntry(s, s.conns[c].phase.loser);
  }

  // ---- Every step ----

  /** The steps that only touch their own connection and neither authenticate nor register. */
  ghost predicate OwnStep(a: Action) {
    a.BeginPush? || a.Enqueue? || a.Refuse? || a.Abandon? || a.Close? || a.Start? || a.AuthTimeOut?
    || a.AuthEnd? || a.DropSender? || a.Deliver? || a.Return?
  }

  lemma OwnStepKeeps(s: State, a: Action)
    requires Inv(s) && Enabled(s, a) && OwnStep(a)
    ensures Inv(Apply(s, a))
  {
    assert ConnEntry(s, a.c);
    var x := Apply(s, a).conns[a.c];
    assert ConnEntry(s.WithConn(a.c, x), a.c);
    ConnFrame(s, a.c, x);
  }

  lemma AuthReceiveKeeps(s: State, c: ConnId, p: Push)
    requires Inv(s) && Enabled(s, AuthReceive(c, p))
    ensures Inv(Apply(s, AuthReceive(c, p)))
  {
    assert ConnEntry(s, c);
    ConnFrame(s, c, s.conns[c].Consume().Authenticate(s.secret, p.text));
  }

  lemma RelayKeeps(s: State, c: ConnId, p: Push)
    requires Inv(s) && Enabled(s, Relay(c, p))
    ensures Inv(Apply(s, Relay(c, p)))
  {
    assert ConnEntry(s, c);
    ConnFrame(s, c, s.conns[c].Consume());
    RelayedKeeps(s.WithConn(c, s.conns[c].Consume()), c, p.text);
  }

  lemma UpgradeKeeps(s: State, c: ConnId, loser: ConnId)
    requires Inv(s) && Enabled(s, Upgrade(c, loser))
    ensures Inv(Apply(s, Upgrade(c, loser)))
  {
    assert ConnEntry(s, c);
    UpgradeSucceeds(s, c);
    ConnFrame(s, c, s.conns[c].(phase := Closing(loser)));
  }

  lemma CloseReplacedKeeps(s: State, c: ConnId, loser: ConnId)
    requires Inv(s) && Enabled(s, CloseReplaced(c, loser))
    ensures Inv(Apply(s, CloseReplaced(c, loser)))
  {
    assert ConnEntry(s, c) && ConnEntry(s, loser);
    var closed := s.conns[loser].(open := false);
    ConnFrame(s, loser, closed);
    ConnFrame(s.WithConn(loser, closed), c, s.conns[c].(phase := Relaying));
  }

  lemma SendKeeps(s: State, rid: RequestId, c: ConnId, text: Text)
    requires Inv(s) && Enabled(s, Send(rid, c, text))
    ensures Inv(Apply(s, Send(rid, c, text)))
  {
    assert DispatchEntry(s, rid) && ConnEntry(s, c);
    ConnFrame(s, c, s.conns[c].Emit(text));
    var mid := s.WithConn(c, s.conns[c].Emit(text));
    assert DispatchEntry(mid, rid);
    ProgressFrame(mid, rid, Waiting);
  }

  lemma DispatchStepKeeps(s: State, a: Action)
    requires Inv(s) && Enabled(s, a) && (a.SendFails? || a.Receive? || a.TimeOut? || a.Cancel?)
    ensures Inv(Apply(s, a))
  {
    assert DispatchEntry(s, a.rid);
    if a.SendFails? {
      assert false;
    }
    var progress := Apply(s, a).dispatches[a.rid].progress;
    assert DispatchEntry(s.WithProgress(a.rid, progress), a.rid);
    ProgressFrame(s, a.rid, progress);
  }

  ghost predicate ConnStep(a: Action) {
    OwnStep(a) || a.AuthReceive? || a.Relay? || a.CloseReplaced? || a.Upgrade? || a.DrainEnd?
  }

  lemma ConnStepKeeps(s: State, a: Action)
    requires Inv(s) && Enabled(s, a) && ConnStep(a)
    ensures Inv(Apply(s, a))
  {
    if OwnStep(a) {
      OwnStepKeeps(s, a);
    } else if a.AuthReceive? {
      AuthReceiveKeeps(s, a.c, a.push);
    } else if a.Relay? {
      RelayKeeps(s, a.c, a.push);
    } else if a.DrainEnd? {
      DrainEndKeeps(s, a.c);
    } else if a.Upgrade? {
      UpgradeKeeps(s, a.c, a.loser);
    } else {
      CloseReplacedKeeps(s, a.c, a.loser);
    }
  }

  lemma TableStepKeeps(s: State, a: Action)
    requires Inv(s) && Enabled(s, a) && !ConnStep(a)
    ensures Inv(Apply(s, a))
  {
    match a
    case Create => CreateKeeps(s);
    case Register(c, service) => RegistrationKeeps(s, c, service);
    case Cleanup(c, service) => CleanedUpKeeps(s, c, service);
    case Admit(q) => AdmissionKeeps(s, q);
    case Send(rid, c, text) => SendKeeps(s, rid, c, text);
    case Fail(rid) => FailKeeps(s, rid);
    case _ => DispatchStepKeeps(s, a);
  }

  /** Every step keeps the invariant. */
  lemma Preserved(s: State, a: Action)
    requires Inv(s) && Enabled(s, a)
    ensures Inv(Apply(s, a))
  {
    if ConnStep(a) {
      ConnStepKeeps(s, a);
    } else {
      TableStepKeeps(s, a);
    }
  }

  /** Every reachable state satisfies the invariant. */
  lemma {:induction false} Always(secret: string, log: Log, s: State)
    requires Reaches(secret, log, s)
    ensures Inv(s)
    decreases |log|
  {
    if log != [] {
      var n := |log| - 1;
      var mid := Run(Init(secret), log[..n]).value;
      Always(secret, log[..n], mid);
      Preserved(mid, log[n]);
    }
  }

  // ---- What the invariant says about leaks and errors ----

  lemma TablesEmpty(s: State)
    requires Inv(s) && forall c <- s.conns :: !s.conns[c].Registered()
    ensures s.services == map[] && s.pending == map[]
  {
    forall service ensures service !in s.services {
      assert service in s.services ==> ServiceEntry(s, service);
    }
    forall rid ensures rid !in s.pending {
      assert rid in s.pending ==> PendingEntry(s, rid);
    }
  }

  /** `pending` only holds requests in flight or cancelled, each for a connection that has not
      cleaned up; once no connection is between registration and cleanup both shared maps are
      empty, whatever was cancelled, timed out or raced. */
  lemma NothingLeaks(secret: string, log: Log, s: State)
    requires Reaches(secret, log, s)
    ensures forall rid <- s.pending ::
      && rid in s.dispatches && (s.dispatches[rid].InFlight() || s.dispatches[rid].progress.Cancelled?)
      && s.pending[rid] in s.conns && s.conns[s.pending[rid]].Registered()
    ensures (forall c <- s.conns :: !s.conns[c].Registered()) ==> s.services == map[] && s.pending == map[]
  {
    Always(secret, log, s);
    forall rid <- s.pending ensures PendingEntry(s, rid) {
    }
    if forall c <- s.conns :: !s.conns[c].Registered() {
      TablesEmpty(s);
    }
  }

  /** A dispatch's send never finds the receiver gone, so ConnectionLost is never reported. */
  lemma ConnectionLostUnreachable(secret: string, log: Log, s: State, rid: RequestId)
    requires Reaches(secret, log, s)
    ensures !Enabled(s, SendFails(rid))
    ensures rid in s.dispatches ==> s.dispatches[rid].progress != Done(Err(ConnectionLost))
  {
    Always(secret, log, s);
    assert rid in s.dispatches ==> DispatchEntry(s, rid);
  }

  /** What handle_request returns: the response, or the error as a response of its own. */
  function Handled(rid: RequestId, result: Result<TunnelResponse, TunnelError>): TunnelResponse {
    match result
    case Ok(r) => r
    case Err(e) => ErrorResponse(rid, e.Status(), e.Display())
  }

  /** A response is handed over as it is; each failure is told by its own status and JSON text. */
  lemma HandledTells(rid: RequestId, result: Result<TunnelResponse, TunnelError>)
    ensures result.Ok? ==> Handled(rid, result) == result.value
    ensures result.Err? ==>
      && var r := Handled(rid, result);
      && r.msgType == "response" && r.requestId == rid && r.bodyEncoding == None
      && r.headers == map["Content-Type" := "application/json"]
      && r.status == (if result.error == Timeout then 504 else 502)
      && r.body == Some("{\"error\":\"" + (match result.error
                                          case NotConnected => "no client connected for service"
                                          case ConnectionLost => "client connection lost"
                                          case Disconnected => "client disconnected"
                                          case Timeout => "tunnel timeout") + "\"}")
  {
  }

  /** Whatever happened, the caller gets a response to its own request: the client's own, handed
      over as it is, or one of three errors. */
  lemma HandledAnswersItsRequest(secret: string, log: Log, s: State, rid: RequestId)
    requires Reaches(secret, log, s) && rid in s.dispatches && s.dispatches[rid].progress.Done?
    ensures var result := s.dispatches[rid].progress.result;
      var r := Handled(rid, result);
      && r.requestId == s.dispatches[rid].request.requestId == rid
      && match result
         case Ok(response) => r == response
         case Err(e) =>
           && r.msgType == "response" && r.bodyEncoding == None
           && r.headers == map["Content-Type" := "application/json"]
           && match e
              case NotConnected =>
                r.status == 502 && r.body == Some("{\"error\":\"" + "no client connected for service" + "\"}")
              case Disconnected => r.status == 502 && r.body == Some("{\"error\":\"" + "client disconnected" + "\"}")
              case Timeout => r.status == 504 && r.body == Some("{\"error\":\"" + "tunnel timeout" + "\"}")
              case ConnectionLost => false
  {
    Always(secret, log, s);
    assert DispatchEntry(s, rid);
    HandledTells(rid, s.dispatches[rid].progress.result);
  }

  /** The invariant carries over any stretch of a run. */
  lemma {:induction false} InvThrough(s: State, log: Log)
    requires Inv(s) && Run(s, log).Some?
    ensures Inv(Run(s, log).value)
    decreases |log|
  {
    if log != [] {
      var n := |log| - 1;
      InvThrough(s, log[..n]);
      Preserved(Run(s, log[..n]).value, log[n]);
    }
  }
}
