/** What travels on a connection: what it is sent, in which order, and after which handshake. */
module Streams {
  import opened Wrappers
  import opened Protocol
  import opened Secret
  import opened Tunnel
  import opened Invariants

  // ---- The log's own account of a connection ----

  /** What one step enqueues on c's outgoing channel. */
  ghost function Emitted(secret: string, a: Action, c: ConnId): seq<Text> {
    match a
    case AuthTimeOut(to) => if to == c then [AuthErrorText("auth timeout")] else []
    case AuthReceive(to, p) =>
      if to != c then []
      else (match AuthVerdict(secret, p.text)
            case Ok(_) => [AuthOkText()]
            case Err(message) => [AuthErrorText(message)])
    case Send(_, to, text) => if to == c then [text] else []
    case _ => []
  }

  ghost function Sent(secret: string, log: Log, c: ConnId): seq<Text> {
    if log == [] then [] else Sent(secret, log[..|log| - 1], c) + Emitted(secret, log[|log| - 1], c)
  }

  /** What the callback was given, call by call. */
  ghost function CallbackCalls(log: Log, c: ConnId): seq<Text> {
    if log == [] then []
    else
      var a := log[|log| - 1];
      CallbackCalls(log[..|log| - 1], c) + if a.Deliver? && a.c == c then [a.text] else []
  }

  /** The messages that reached c's incoming channel, in order. */
  ghost function Arrived(log: Log, c: ConnId): seq<Push> {
    if log == [] then []
    else
      var a := log[|log| - 1];
      Arrived(log[..|log| - 1], c) + if a.Enqueue? && a.c == c then [a.push] else []
  }

  /** The connection as the log tells it. */
  ghost predicate Accounted(secret: string, log: Log, s: State, c: ConnId) {
    && c in s.conns
    && s.conns[c].Stream() == Sent(secret, log, c)
    && s.conns[c].delivered == CallbackCalls(log, c)
    && (s.conns[c].phase.Created? || s.conns[c].phase.Authenticating? ==> s.conns[c].incoming == Arrived(log, c))
    && (s.conns[c].service.Some? ==>
          && Arrived(log, c) != []
          && AuthVerdict(secret, Arrived(log, c)[0].text) == Ok(s.conns[c].service.value))
  }

  /** Nothing has happened yet on a connection that does not exist. */
  ghost predicate Silent(secret: string, log: Log, c: ConnId) {
    Sent(secret, log, c) == [] && CallbackCalls(log, c) == [] && Arrived(log, c) == []
  }

  /** The steps that enqueue something. */
  ghost predicate Emits(a: Action) {
    a.AuthTimeOut? || a.AuthReceive? || a.Send?
  }

  lemma EmittingStep(s: State, a: Action)
    requires Enabled(s, a) && Emits(a)
    ensures var x, y := s.conns[a.c], Apply(s, a).conns[a.c];
      y.outgoing == x.outgoing + Emitted(s.secret, a, a.c) && y.delivered == x.delivered
    ensures |Emitted(s.secret, a, a.c)| == 1
  {
  }

  lemma SilentOrDelivering(s: State, a: Action, c: ConnId)
    requires Enabled(s, a) && c in s.conns && !Emits(a) && Touches(a, c)
    ensures c in Apply(s, a).conns
    ensures var x, y := s.conns[c], Apply(s, a).conns[c];
      if a.Deliver? then y.delivered == x.delivered + [a.text] && x.outgoing == [a.text] + y.outgoing
      else y.outgoing == x.outgoing && y.delivered == x.delivered
  {
  }

  lemma EmittedIsAppended(s: State, a: Action, c: ConnId)
    requires Enabled(s, a) && c in s.conns
    ensures c in Apply(s, a).conns
    ensures Apply(s, a).conns[c].Stream() == s.conns[c].Stream() + Emitted(s.secret, a, c)
    ensures Apply(s, a).conns[c].delivered
         == s.conns[c].delivered + if a.Deliver? && a.c == c then [a.text] else []
  {
    if !Touches(a, c) {
      Untouched(s, a, c);
    } else if Emits(a) {
      EmittingStep(s, a);
    } else {
      SilentOrDelivering(s, a, c);
    }
  }

  /** Until the first message is read the incoming channel only grows. */
  lemma IntakeStep(s: State, a: Action, c: ConnId)
    requires Enabled(s, a) && c in s.conns
    ensures c in Apply(s, a).conns
    ensures var x, y := s.conns[c], Apply(s, a).conns[c];
      y.phase.Created? || y.phase.Authenticating? ==>
        && (x.phase.Created? || x.phase.Authenticating?)
        && y.incoming == x.incoming + if a.Enqueue? && a.c == c then [a.push] else []
  {
    if !Touches(a, c) {
      Untouched(s, a, c);
    } else if Intake(a, c) {
      IntakeTouched(s, a);
    } else {
      IntakeUntouched(s, a, c);
    }
  }

  /** Reading the first message decides the service, for good. */
  lemma ServiceDecided(s: State, a: Action, c: ConnId)
    requires Enabled(s, a) && c in s.conns
    ensures c in Apply(s, a).conns
    ensures var x, y := s.conns[c], Apply(s, a).conns[c];
      y.service.Some? ==>
        || y.service == x.service
        || (a.AuthReceive? && a.c == c && x.phase.Authenticating? && x.NextIncoming(a.push)
            && AuthVerdict(s.secret, a.push.text) == Ok(y.service.value))
  {
    if !Touches(a, c) {
      Untouched(s, a, c);
    }
  }

  lemma AccountedStep(secret: string, log: Log, s: State, a: Action, c: ConnId)
    requires Inv(s) && Enabled(s, a) && s.secret == secret && c in s.conns && Accounted(secret, log, s, c)
    ensures Accounted(secret, log + [a], Apply(s, a), c)
  {
    assert (log + [a])[..|log|] == log;
    EmittedIsAppended(s, a, c);
    IntakeStep(s, a, c);
    ServiceDecided(s, a, c);
  }

  lemma SilentStep(secret: string, log: Log, s: State, a: Action, c: ConnId)
    requires Enabled(s, a) && c !in s.conns && Silent(secret, log, c)
    ensures Silent(secret, log + [a], c)
  {
    assert (log + [a])[..|log|] == log;
  }

  lemma SecretKept(s: State, a: Action)
    requires Enabled(s, a)
    ensures Apply(s, a).secret == s.secret
    ensures forall c :: c in s.conns ==> c in Apply(s, a).conns
    ensures forall c :: c in Apply(s, a).conns && c !in s.conns ==> a == Create && Apply(s, a).conns[c] == NewConn()
  {
  }

  lemma {:induction false} AllAccounted(secret: string, log: Log, s: State, c: ConnId)
    requires Reaches(secret, log, s)
    ensures s.secret == secret
    ensures if c in s.conns then Accounted(secret, log, s, c) else Silent(secret, log, c)
    decreases |log|
  {
    if log != [] {
      var n := |log| - 1;
      var pre, a := log[..n], log[n];
      var mid := Run(Init(secret), pre).value;
      assert log == pre + [a];
      AllAccounted(secret, pre, mid, c);
      Always(secret, pre, mid);
      SecretKept(mid, a);
      if c in mid.conns {
        AccountedStep(secret, pre, mid, a, c);
      } else {
        SilentStep(secret, pre, mid, a, c);
      }
    }
  }

  // ---- Delivery ----

  /** When run() returns, the callback has been given every message ever enqueued on the
      connection, once each and in order, and no dispatch routed to it is in flight. */
  lemma EverythingDelivered(secret: string, log: Log, s: State, c: ConnId)
    requires Reaches(secret, log, s) && c in s.conns && s.conns[c].phase.Returned?
    ensures CallbackCalls(log, c) == Sent(secret, log, c)
    ensures forall rid <- s.dispatches :: !s.dispatches[rid].SentOn(c)
  {
    Always(secret, log, s);
    AllAccounted(secret, log, s, c);
    assert ConnEntry(s, c);
    forall rid <- s.dispatches ensures !s.dispatches[rid].SentOn(c) {
      assert DispatchEntry(s, rid);
    }
  }

  /** Nothing is enqueued on a connection whose run() has returned. */
  lemma SilentAfterReturn(secret: string, log: Log, s: State, a: Action, c: ConnId)
    requires Reaches(secret, log, s) && c in s.conns && s.conns[c].phase.Returned? && Enabled(s, a)
    ensures Emitted(secret, a, c) == []
  {
    Always(secret, log, s);
    assert ConnEntry(s, c);
  }

  /** At all times the callback has seen a prefix, and what is missing is in the channel. */
  lemma DeliveredInOrder(secret: string, log: Log, s: State, c: ConnId)
    requires Reaches(secret, log, s) && c in s.conns
    ensures CallbackCalls(log, c) <= Sent(secret, log, c)
    ensures CallbackCalls(log, c) + s.conns[c].outgoing == Sent(secret, log, c)
    ensures |s.conns[c].outgoing| <= 64 && |s.conns[c].incoming| <= 64
  {
    Always(secret, log, s);
    AllAccounted(secret, log, s, c);
    assert ConnEntry(s, c);
  }

  // ---- Authentication ----

  /** What the first message must be to be accepted for a service, in terms of its own fields. */
  lemma AcceptedExactly(secret: string, text: Text, service: string)
    ensures AuthVerdict(secret, text) == Ok(service) <==> secret != "" && IsAuth(text, secret, service)
  {
    AuthOnWire(text, secret, service);
    if ParseMessage(text).Ok? && ParseMessage(text).value.Auth? {
      var m := ParseMessage(text).value.auth;
      ConstantTimeEqDecidesEquality(m.token, secret);
      DecodedKind(text.value.fields, text.value.fields["type"].s);
    }
  }

  /** Why a first message is refused: it is no auth message at all, or the token is wrong. */
  lemma RefusedExactly(secret: string, text: Text)
    ensures AuthVerdict(secret, text) == Err("expected auth message") <==> !exists token, service :: IsAuth(text, token, service)
    ensures AuthVerdict(secret, text) == Err("invalid token") <==>
      exists token, service :: IsAuth(text, token, service) && (secret == "" || token != secret)
    ensures AuthVerdict(secret, text).Err? ==>
      AuthVerdict(secret, text).error == "expected auth message" || AuthVerdict(secret, text).error == "invalid token"
  {
    forall token, service {
      AuthOnWire(text, token, service);
    }
    if ParseMessage(text).Ok? && ParseMessage(text).value.Auth? {
      var m := ParseMessage(text).value.auth;
      DecodedKind(text.value.fields, text.value.fields["type"].s);
      ConstantTimeEqDecidesEquality(m.token, secret);
      assert IsAuth(text, m.token, m.service);
    }
    assert |"expected auth message"| != |"invalid token"|;
  }

  /** A request only ever goes to a connection whose first incoming message was an auth message
      naming that service with a token equal to the secret, and the secret is not empty. */
  lemma SendsFollowAuthentication(secret: string, log: Log, s: State, rid: RequestId, c: ConnId, text: Text)
    requires Reaches(secret, log, s) && Enabled(s, Send(rid, c, text))
    ensures Arrived(log, c) != []
    ensures IsAuth(Arrived(log, c)[0].text, secret, s.dispatches[rid].request.service) && secret != ""
    ensures IsRequest(text, s.dispatches[rid].request) && s.dispatches[rid].request.requestId == rid
  {
    Always(secret, log, s);
    AllAccounted(secret, log, s, c);
    assert DispatchEntry(s, rid);
    AcceptedExactly(secret, Arrived(log, c)[0].text, s.dispatches[rid].request.service);
    WrittenOnWire(Request(s.dispatches[rid].request));
  }

  // ---- Grammar of the outgoing stream ----

  /** The text is the request of a dispatch routed to c, for the service c authenticated for. */
  ghost predicate RequestOn(s: State, c: ConnId, text: Text) {
    && ParseMessage(text).Ok? && ParseMessage(text).value.Request?
    && var q := ParseMessage(text).value.request;
    && q.requestId in s.dispatches
    && s.dispatches[q.requestId].request == q && s.dispatches[q.requestId].route == Some(c)
    && c in s.conns && s.conns[c].service == Some(q.service)
  }

  /** Nothing, one auth_error, or auth_ok followed by requests for the service. */
  ghost predicate Grammatical(s: State, c: ConnId)
    requires c in s.conns
  {
    var stream := s.conns[c].Stream();
    if s.conns[c].service.None? then
      stream == [] || (|stream| == 1 && IsRefusal(stream[0]) && s.conns[c].PastRegistration())
    else
      stream != [] && stream[0] == AuthOkText() && forall i | 1 <= i < |stream| :: RequestOn(s, c, stream[i])
  }

  predicate IsRefusal(text: Text) {
    ParseMessage(text).Ok? && ParseMessage(text).value.AuthError?
  }

  lemma AuthErrorParses(message: string)
    ensures IsRefusal(AuthErrorText(message))
  {
    RoundTrip(AuthError(AuthErrorMessage("auth_error", message)));
  }

  lemma AuthOkParses()
    ensures ParseMessage(AuthOkText()) == Ok(AuthOk(AuthOkMessage("auth_ok")))
  {
    RoundTrip(AuthOk(AuthOkMessage("auth_ok")));
  }

  lemma RequestOnKept(s: State, a: Action, c: ConnId, text: Text)
    requires Inv(s) && Enabled(s, a) && RequestOn(s, c, text)
    ensures RequestOn(Apply(s, a), c, text)
  {
    DispatchKept(s, a, ParseMessage(text).value.request.requestId);
    ServiceKept(s, a, c);
  }

  /** What a connection authenticated for, and that it is past registration, is settled for good. */
  lemma ServiceKept(s: State, a: Action, c: ConnId)
    requires Inv(s) && Enabled(s, a) && c in s.conns
    ensures var x, y := s.conns[c], Apply(s, a).conns[c];
      && (x.service.Some? || x.PastRegistration() || !Emits(a) || a.c != c ==> y.service == x.service)
      && (x.PastRegistration() ==> y.PastRegistration())
  {
    assert ConnEntry(s, c);
    if !Touches(a, c) {
      Untouched(s, a, c);
    }
  }

  lemma EmittedGrammatical(s: State, a: Action)
    requires Inv(s) && Enabled(s, a) && Emits(a)
    ensures var x, y, text := s.conns[a.c], Apply(s, a).conns[a.c], Emitted(s.secret, a, a.c)[0];
      && |Emitted(s.secret, a, a.c)| == 1
      && if a.Send? then x.service.Some? && RequestOn(Apply(s, a), a.c, text)
         else x.Stream() == [] && if y.service.Some? then text == AuthOkText() else IsRefusal(text) && y.PastRegistration()
  {
    assert ConnEntry(s, a.c);
    if a.Send? {
      assert DispatchEntry(s, a.rid);
      RoundTrip(Request(s.dispatches[a.rid].request));
    } else if a.AuthTimeOut? {
      AuthErrorParses("auth timeout");
    } else if AuthVerdict(s.secret, a.push.text).Err? {
      AuthErrorParses(AuthVerdict(s.secret, a.push.text).error);
    }
  }

  /** Appending what an emitting step may append keeps the grammar. */
  lemma GrammarExtends(s: State, t: State, c: ConnId, more: seq<Text>)
    requires c in s.conns && c in t.conns && Grammatical(s, c)
    requires t.conns[c].Stream() == s.conns[c].Stream() + more
    requires forall text | RequestOn(s, c, text) :: RequestOn(t, c, text)
    requires s.conns[c].service.Some? || s.conns[c].PastRegistration() ==> t.conns[c].service == s.conns[c].service
    requires s.conns[c].PastRegistration() ==> t.conns[c].PastRegistration()
    requires more == [] ==> t.conns[c].service == s.conns[c].service
    requires more != [] ==>
      && |more| == 1
      && if s.conns[c].service.Some? then RequestOn(t, c, more[0])
         else s.conns[c].Stream() == [] &&
              if t.conns[c].service.Some? then more[0] == AuthOkText()
              else IsRefusal(more[0]) && t.conns[c].PastRegistration()
    ensures Grammatical(t, c)
  {
    var before, after := s.conns[c].Stream(), t.conns[c].Stream();
    assert more == [] ==> after == before;
    if s.conns[c].service.Some? {
      forall i | 1 <= i < |after| ensures RequestOn(t, c, after[i]) {
        assert i < |before| ==> after[i] == before[i];
        assert i >= |before| ==> after[i] == more[0];
      }
    }
  }

  lemma GrammarStep(s: State, a: Action, c: ConnId)
    requires Inv(s) && Enabled(s, a) && c in s.conns && Grammatical(s, c)
    ensures c in Apply(s, a).conns && Grammatical(Apply(s, a), c)
  {
    EmittedIsAppended(s, a, c);
    ServiceKept(s, a, c);
    forall text | RequestOn(s, c, text) ensures RequestOn(Apply(s, a), c, text) {
      RequestOnKept(s, a, c, text);
    }
    if Emits(a) && a.c == c {
      EmittedGrammatical(s, a);
    }
    GrammarExtends(s, Apply(s, a), c, Emitted(s.secret, a, c));
  }

  /** The grammar holds on every connection of every reachable state. */
  lemma {:induction false} AlwaysGrammatical(secret: string, log: Log, s: State, c: ConnId)
    requires Reaches(secret, log, s) && c in s.conns
    ensures Grammatical(s, c)
    decreases |log|
  {
    if log != [] {
      var n := |log| - 1;
      var mid := Run(Init(secret), log[..n]).value;
      Always(secret, log[..n], mid);
      if c in mid.conns {
        AlwaysGrammatical(secret, log[..n], mid, c);
        GrammarStep(mid, log[n], c);
      } else {
        SecretKept(mid, log[n]);
      }
    }
  }

  /** The first text a client is sent is always an answer to its authentication. */
  lemma FirstTextAnswersAuth(secret: string, log: Log, s: State, c: ConnId)
    requires Reaches(secret, log, s) && c in s.conns && s.conns[c].delivered != []
    ensures var m := ParseMessage(s.conns[c].delivered[0]); m.Ok? && (m.value.AuthOk? || m.value.AuthError?)
  {
    AlwaysGrammatical(secret, log, s, c);
    AuthOkParses();
    assert s.conns[c].delivered[0] == s.conns[c].Stream()[0];
  }
}
