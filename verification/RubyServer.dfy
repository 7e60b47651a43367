/** The Ruby binding against the server's own protocol: what its native calls are, step by step,
    and that texts pass exactly once from Ruby to the server and from the server to Ruby. */
module RubyServer {
  import opened Wrappers
  import opened Protocol
  import opened Tunnel
  import opened Streams
  import opened History
  import opened Arrivals
  import opened RubyBinding

  // ---- One attempt at a push ----

  /** What one attempt at push_message does on its connection. */
  datatype Piece =
    | Nothing                     // the core was not reached
    | Withdrawn(call: CallId)     // the send was begun and dropped
    | Delivered(call: CallId)     // the text is in the incoming channel
    | Ignored(call: CallId)       // the sender had been taken: nothing is sent
    | Refused(call: CallId)       // the receiver was gone

  function Steps(piece: Piece, c: ConnId, text: Text): Log {
    match piece
    case Nothing => []
    case Withdrawn(call) => [BeginPush(c, Push(call, text)), Abandon(c, Push(call, text))]
    case Delivered(call) => [BeginPush(c, Push(call, text)), Enqueue(c, Push(call, text))]
    case Ignored(call) => [BeginPush(c, Push(call, text))]
    case Refused(call) => [BeginPush(c, Push(call, text)), Refuse(c, Push(call, text))]
  }

  /** What an attempt may have done, given how it ended for Ruby. */
  predicate Fits(piece: Piece, e: Attempt) {
    match e
    case NotRun(_) => piece.Nothing?
    case CutShort(_) => piece.Nothing? || piece.Withdrawn?
    case _ => piece.Delivered? || piece.Ignored? || piece.Refused?
  }

  lemma TwoSteps(s: State, a: Action, b: Action)
    requires Enabled(s, a) && Enabled(Apply(s, a), b)
    ensures Run(s, [a, b]) == Some(Apply(Apply(s, a), b))
  {
    RunStep(s, [], a);
    assert [] + [a] == [a];
    RunStep(s, [a], b);
    assert [a] + [b] == [a, b];
  }

  /** A push that is cut short is a run of the server that leaves no trace: the call id is spent,
      and nothing else differs. */
  lemma WithdrawnLeavesNothing(s: State, c: ConnId, call: CallId, text: Text)
    requires c in s.conns && s.conns[c].open && s.conns[c].calls.Keys <= s.conns[c].used && call !in s.conns[c].used
    ensures Run(s, Steps(Withdrawn(call), c, text))
         == Some(s.WithConn(c, s.conns[c].(used := s.conns[c].used + {call})))
  {
    var p, x := Push(call, text), s.conns[c];
    var y := x.BeginPush(p);
    assert x.calls[call := text] - {call} == x.calls;
    assert y.EndPush(p) == x.(used := x.used + {call});
    TwoSteps(s, BeginPush(c, p), Abandon(c, p));
    assert s.conns[c := y][c := y.EndPush(p)] == s.conns[c := y.EndPush(p)];
  }

  /** A push that completes on an open connection is a run of the server that puts the text at the
      end of the incoming channel. */
  lemma DeliveredAppends(s: State, c: ConnId, call: CallId, text: Text)
    requires c in s.conns && s.conns[c].open && s.conns[c].calls.Keys <= s.conns[c].used && call !in s.conns[c].used
    requires !s.conns[c].phase.Returned? && |s.conns[c].incoming| < CAPACITY
    ensures Run(s, Steps(Delivered(call), c, text))
         == Some(s.WithConn(c, s.conns[c].(used := s.conns[c].used + {call},
                                           incoming := s.conns[c].incoming + [Push(call, text)])))
  {
    var p, x := Push(call, text), s.conns[c];
    var y := x.BeginPush(p);
    assert x.calls[call := text] - {call} == x.calls;
    assert y.Accept(p) == x.(used := x.used + {call}, incoming := x.incoming + [p]);
    TwoSteps(s, BeginPush(c, p), Enqueue(c, p));
    assert s.conns[c := y][c := y.Accept(p)] == s.conns[c := y.Accept(p)];
  }

  // ---- Any number of pushes, in any run ----

  /** The push steps of c in a log, whatever else happens in between. */
  ghost function PushSteps(log: Log, c: ConnId): Log {
    if log == [] then []
    else
      var a := log[|log| - 1];
      PushSteps(log[..|log| - 1], c)
      + if (a.BeginPush? || a.Enqueue? || a.Refuse? || a.Abandon?) && a.c == c then [a] else []
  }

  function CallSteps(pieces: seq<Piece>, c: ConnId, text: Text): Log {
    if pieces == [] then []
    else CallSteps(pieces[..|pieces| - 1], c, text) + Steps(pieces[|pieces| - 1], c, text)
  }

  function AllSteps(calls: seq<seq<Piece>>, c: ConnId, texts: seq<Text>): Log
    requires |calls| == |texts|
  {
    if calls == [] then []
    else
      var n := |calls| - 1;
      AllSteps(calls[..n], c, texts[..n]) + CallSteps(calls[n], c, texts[n])
  }

  /** One call made these attempts: as many as the schedule has it make, each as it ended. */
  ghost predicate CallFits(pieces: seq<Piece>, schedule: Schedule) {
    && |pieces| == Decisive(schedule) + 1
    && forall i | 0 <= i < |pieces| :: Fits(pieces[i], if i < |schedule| then schedule[i] else Finished)
  }

  /** The texts that steps put into the channel. */
  function TextsIn(steps: Log): seq<Text> {
    if steps == [] then []
    else
      var a := steps[|steps| - 1];
      TextsIn(steps[..|steps| - 1]) + if a.Enqueue? then [a.push.text] else []
  }

  lemma {:induction false} TextsInAppend(a: Log, b: Log)
    ensures TextsIn(a + b) == TextsIn(a) + TextsIn(b)
    decreases |b|
  {
    if b == [] {
      assert a + b == a;
    } else {
      var n := |b| - 1;
      assert (a + b)[..|a| + n] == a + b[..n];
      TextsInAppend(a, b[..n]);
    }
  }

  /** What arrived on c is what its push steps put there. */
  lemma {:induction false} ArrivedIsPushed(log: Log, c: ConnId)
    ensures TextsOf(Arrived(log, c)) == TextsIn(PushSteps(log, c))
    decreases |log|
  {
    if log != [] {
      var n := |log| - 1;
      ArrivedIsPushed(log[..n], c);
      var a := log[n];
      var step := if (a.BeginPush? || a.Enqueue? || a.Refuse? || a.Abandon?) && a.c == c then [a] else [];
      TextsInAppend(PushSteps(log[..n], c), step);
      OneStepIn(a);
    }
  }

  lemma OneStepIn(a: Action)
    ensures TextsIn([a]) == if a.Enqueue? then [a.push.text] else []
  {
    assert [a][..0] == [];
  }

  lemma StepsIn(piece: Piece, c: ConnId, text: Text)
    ensures TextsIn(Steps(piece, c, text)) == if piece.Delivered? then [text] else []
  {
    var steps := Steps(piece, c, text);
    if |steps| == 1 {
      OneStepIn(steps[0]);
      assert steps == [steps[0]];
    } else if |steps| == 2 {
      TextsInAppend([steps[0]], [steps[1]]);
      OneStepIn(steps[0]);
      OneStepIn(steps[1]);
      assert steps == [steps[0]] + [steps[1]];
    }
  }

  /** Attempts before the last one put nothing into the channel. */
  lemma {:induction false} EarlyAttemptsIn(pieces: seq<Piece>, c: ConnId, text: Text)
    requires forall i | 0 <= i < |pieces| :: !pieces[i].Delivered?
    ensures TextsIn(CallSteps(pieces, c, text)) == []
    decreases |pieces|
  {
    if pieces != [] {
      var n := |pieces| - 1;
      EarlyAttemptsIn(pieces[..n], c, text);
      TextsInAppend(CallSteps(pieces[..n], c, text), Steps(pieces[n], c, text));
      StepsIn(pieces[n], c, text);
    }
  }

  /** One call puts its text into the channel once, when its last attempt delivered it, or not at all. */
  lemma CallIn(pieces: seq<Piece>, schedule: Schedule, c: ConnId, text: Text)
    requires CallFits(pieces, schedule)
    ensures TextsIn(CallSteps(pieces, c, text)) == if Delivers(pieces) then [text] else []
  {
    var n := |pieces| - 1;
    EarlyAttemptsIn(pieces[..n], c, text);
    TextsInAppend(CallSteps(pieces[..n], c, text), Steps(pieces[n], c, text));
    StepsIn(pieces[n], c, text);
  }

  /** The call's last attempt delivered its text. */
  predicate Delivers(pieces: seq<Piece>) {
    pieces != [] && pieces[|pieces| - 1].Delivered?
  }

  /** The texts whose call ended in a delivery. */
  function DeliveredTexts(calls: seq<seq<Piece>>, texts: seq<Text>): seq<Text>
    requires |calls| == |texts|
  {
    if calls == [] then []
    else
      var n := |calls| - 1;
      DeliveredTexts(calls[..n], texts[..n]) + if Delivers(calls[n]) then [texts[n]] else []
  }

  ghost predicate CallsFit(calls: seq<seq<Piece>>, schedule: Schedule) {
    forall n | 0 <= n < |calls| :: CallFits(calls[n], Left(schedule, n))
  }

  lemma FirstCallsFit(calls: seq<seq<Piece>>, schedule: Schedule, n: nat)
    requires CallsFit(calls, schedule) && n <= |calls|
    ensures CallsFit(calls[..n], schedule)
  {
    forall k | 0 <= k < n ensures CallFits(calls[..n][k], Left(schedule, k)) {
      assert calls[..n][k] == calls[k];
    }
  }

  lemma {:induction false} AllIn(calls: seq<seq<Piece>>, schedule: Schedule, c: ConnId, texts: seq<Text>)
    requires |calls| == |texts| && CallsFit(calls, schedule)
    ensures TextsIn(AllSteps(calls, c, texts)) == DeliveredTexts(calls, texts)
    decreases |calls|
  {
    if calls != [] {
      var n := |calls| - 1;
      FirstCallsFit(calls, schedule, n);
      AllIn(calls[..n], schedule, c, texts[..n]);
      CallIn(calls[n], Left(schedule, n), c, texts[n]);
      TextsInAppend(AllSteps(calls[..n], c, texts[..n]), CallSteps(calls[n], c, texts[n]));
    }
  }

  /** A call that is still trying: attempts that were not reached or were withdrawn, and perhaps
      one whose send has begun. */
  datatype Unfinished = Unfinished(text: Text, tries: seq<Piece>, begun: Option<CallId>)
  {
    predicate Valid() {
      forall piece <- tries :: piece.Nothing? || piece.Withdrawn?
    }

    function Steps(c: ConnId): Log
    {
      CallSteps(tries, c, text) + if begun.Some? then [BeginPush(c, Push(begun.value, text))] else []
    }
  }

  /** It has put nothing into the channel. */
  lemma UnfinishedIn(u: Unfinished, c: ConnId)
    requires u.Valid()
    ensures TextsIn(u.Steps(c)) == []
  {
    forall i | 0 <= i < |u.tries| ensures !u.tries[i].Delivered? {
      assert u.tries[i] in u.tries;
    }
    EarlyAttemptsIn(u.tries, c, u.text);
    if u.begun.Some? {
      var begin := BeginPush(c, Push(u.begun.value, u.text));
      OneStepIn(begin);
      TextsInAppend(CallSteps(u.tries, c, u.text), [begin]);
    } else {
      assert CallSteps(u.tries, c, u.text) + [] == CallSteps(u.tries, c, u.text);
    }
  }

  /** The push steps of c are those of finished calls, one after another, and then perhaps of one
      that has not finished. */
  ghost predicate PushedBy(log: Log, c: ConnId, calls: seq<seq<Piece>>, texts: seq<Text>, last: Option<Unfinished>)
    requires |calls| == |texts|
  {
    && (last.Some? ==> last.value.Valid())
    && PushSteps(log, c) == AllSteps(calls, c, texts) + if last.Some? then last.value.Steps(c) else []
  }

  // ---- A completed push is lost only on a closed connection ----

  /** The push began when the sender of c had been taken. */
  ghost predicate FoundClosed(secret: string, log: Log, c: ConnId, p: Push) {
    exists i: nat :: i < |log| && log[i] == BeginPush(c, p) && ClosedAt(secret, log, c, i)
  }

  ghost predicate ClosedAt(secret: string, log: Log, c: ConnId, i: nat) {
    && i <= |log| && Run(Init(secret), log[..i]).Some?
    && c in Run(Init(secret), log[..i]).value.conns && !Run(Init(secret), log[..i]).value.conns[c].open
  }

  lemma {:induction false} ClosedAtStays(secret: string, log: Log, s: State, c: ConnId, i: nat)
    requires Reaches(secret, log, s) && ClosedAt(secret, log, c, i)
    ensures c in s.conns && !s.conns[c].open
    decreases |log|
  {
    if i == |log| {
      assert log[..i] == log;
    } else {
      var n := |log| - 1;
      assert log[..n][..i] == log[..i];
      ClosedAtStays(secret, log[..n], Run(Init(secret), log[..n]).value, c, i);
      ClosedStaysClosed(Run(Init(secret), log[..n]).value, log[n], c);
    }
  }

  lemma ReturnedStays(s: State, a: Action, c: ConnId)
    requires Enabled(s, a) && c in s.conns && s.conns[c].phase.Returned?
    ensures c in Apply(s, a).conns && Apply(s, a).conns[c].phase.Returned?
  {
    if !Touches(a, c) {
      Untouched(s, a, c);
    }
  }

  lemma {:induction false} RefusedByReturned(secret: string, log: Log, s: State, c: ConnId, p: Push)
    requires Reaches(secret, log, s) && Refuse(c, p) in log
    ensures c in s.conns && s.conns[c].phase.Returned?
    decreases |log|
  {
    var n := |log| - 1;
    var mid := Run(Init(secret), log[..n]).value;
    if log[n] == Refuse(c, p) {
      assert Enabled(mid, Refuse(c, p));
    } else {
      RefusedByReturned(secret, log[..n], mid, c, p);
    }
    ReturnedStays(mid, log[n], c);
  }

  lemma {:induction false} PushStepsAreSteps(log: Log, c: ConnId, a: Action)
    requires a in PushSteps(log, c)
    ensures a in log
    decreases |log|
  {
    var n := |log| - 1;
    if a in PushSteps(log[..n], c) {
      PushStepsAreSteps(log[..n], c, a);
    }
  }

  lemma {:induction false} LastStepsOfCall(calls: seq<seq<Piece>>, c: ConnId, texts: seq<Text>, n: nat)
    requires |calls| == |texts| && n < |calls| && calls[n] != []
    ensures forall a <- Steps(calls[n][|calls[n]| - 1], c, texts[n]) :: a in AllSteps(calls, c, texts)
    decreases |calls|
  {
    var last := |calls| - 1;
    if n < last {
      LastStepsOfCall(calls[..last], c, texts[..last], n);
    }
  }

  /** A call that completed without delivering says so truthfully: it found the sender taken, or
      the receiver gone. */
  ghost predicate Truthful(secret: string, log: Log, c: ConnId, calls: seq<seq<Piece>>, texts: seq<Text>)
    requires |calls| == |texts|
  {
    forall n | 0 <= n < |calls| && calls[n] != [] && calls[n][|calls[n]| - 1].Ignored? ::
      FoundClosed(secret, log, c, Push(calls[n][|calls[n]| - 1].call, texts[n]))
  }

  lemma CompletedIsDelivered(secret: string, log: Log, s: State, c: ConnId, calls: seq<seq<Piece>>, texts: seq<Text>,
                             last: Option<Unfinished>, schedule: Schedule, n: nat)
    requires Reaches(secret, log, s) && c in s.conns && s.conns[c].open && !s.conns[c].phase.Returned?
    requires |calls| == |texts| && CallsFit(calls, schedule) && n < |calls|
    requires PushedBy(log, c, calls, texts, last) && Truthful(secret, log, c, calls, texts)
    ensures Delivers(calls[n]) <==> CallCompletes(Left(schedule, n))
  {
    LastFits(calls[n], Left(schedule, n));
    var end := calls[n][|calls[n]| - 1];
    if end.Ignored? {
      NotFoundClosed(secret, log, s, c, Push(end.call, texts[n]));
    } else if end.Refused? {
      assert Refuse(c, Push(end.call, texts[n])) == Steps(end, c, texts[n])[1];
      LastStepsOfCall(calls, c, texts, n);
      NotRefused(secret, log, s, c, Push(end.call, texts[n]));
    }
  }

  lemma LastFits(pieces: seq<Piece>, schedule: Schedule)
    requires CallFits(pieces, schedule)
    ensures pieces != []
    ensures var last := pieces[|pieces| - 1];
      if CallCompletes(schedule) then last.Delivered? || last.Ignored? || last.Refused? else last.Nothing? || last.Withdrawn?
  {
  }

  lemma NotFoundClosed(secret: string, log: Log, s: State, c: ConnId, p: Push)
    requires Reaches(secret, log, s) && c in s.conns && s.conns[c].open
    ensures !FoundClosed(secret, log, c, p)
  {
    if FoundClosed(secret, log, c, p) {
      var i: nat :| i < |log| && log[i] == BeginPush(c, p) && ClosedAt(secret, log, c, i);
      ClosedAtStays(secret, log, s, c, i);
    }
  }

  lemma NotRefused(secret: string, log: Log, s: State, c: ConnId, p: Push)
    requires Reaches(secret, log, s) && c in s.conns && !s.conns[c].phase.Returned?
    ensures Refuse(c, p) !in PushSteps(log, c)
  {
    if Refuse(c, p) in PushSteps(log, c) {
      PushStepsAreSteps(log, c, Refuse(c, p));
      RefusedByReturned(secret, log, s, c, p);
    }
  }

  lemma {:induction false} DeliveredAreAccepted(calls: seq<seq<Piece>>, texts: seq<Text>, schedule: Schedule)
    requires |calls| == |texts|
    requires forall n | 0 <= n < |calls| :: Delivers(calls[n]) <==> CallCompletes(Left(schedule, n))
    ensures DeliveredTexts(calls, texts) == Accepted(texts, schedule)
    decreases |calls|
  {
    if calls != [] {
      var n := |calls| - 1;
      forall k | 0 <= k < n ensures Delivers(calls[..n][k]) <==> CallCompletes(Left(schedule, k)) {
        assert calls[..n][k] == calls[k];
      }
      DeliveredAreAccepted(calls[..n], texts[..n], schedule);
    }
  }

  /** From Ruby to the server, exactly once. In every run of the server in which one thread's
      push_message calls are what pushes on c, however other steps interleave with their attempts:
      what arrives is, in order, the text of each call whose last attempt delivered it, and nothing
      of a call that is still trying. While c is open the calls that delivered are exactly the
      finished ones that were not raised into: the texts PushAll accepts. */
  lemma PushesArriveOnce(secret: string, log: Log, s: State, c: ConnId, calls: seq<seq<Piece>>, texts: seq<Text>,
                         last: Option<Unfinished>, schedule: Schedule)
    requires Reaches(secret, log, s) && c in s.conns
    requires |calls| == |texts| && CallsFit(calls, schedule)
    requires PushedBy(log, c, calls, texts, last) && Truthful(secret, log, c, calls, texts)
    ensures TextsOf(Arrived(log, c)) == DeliveredTexts(calls, texts)
    ensures s.conns[c].open && !s.conns[c].phase.Returned? ==> TextsOf(Arrived(log, c)) == Accepted(texts, schedule)
  {
    ArrivedIsPushed(log, c);
    AllIn(calls, schedule, c, texts);
    TextsInAppend(AllSteps(calls, c, texts), if last.Some? then last.value.Steps(c) else []);
    if last.Some? {
      UnfinishedIn(last.value, c);
    }
    if s.conns[c].open && !s.conns[c].phase.Returned? {
      forall n | 0 <= n < |calls| ensures Delivers(calls[n]) <==> CallCompletes(Left(schedule, n)) {
        CompletedIsDelivered(secret, log, s, c, calls, texts, last, schedule, n);
      }
      DeliveredAreAccepted(calls, texts, schedule);
    }
  }

  // ---- From the server to Ruby ----

  /** The core's stream is what the server has handed to the callback of c. */
  ghost predicate Backed(core: Core, secret: string, log: Log, s: State, c: ConnId) {
    Reaches(secret, log, s) && c in s.conns && core.stream == CallbackCalls(log, c)
  }

  lemma HandedOver(core: Core, rest: seq<Text>, sent: seq<Text>, completed: nat)
    requires core.taken == 0 && core.stream + rest == sent
    ensures var reached := Reached(core, completed);
      && reached <= |core.stream| && core.stream[..reached] <= sent
      && (core.stream == sent && completed >= |sent| ==> core.stream[..reached] == sent)
  {
  }

  /** From the server to Ruby, exactly once. Once `completed` next_outgoing calls have not been
      raised into since the connection began, what they returned is an initial stretch of
      everything ever enqueued on it; when run() has returned and there were as many such calls
      as messages, it is all of it. */
  lemma OutgoingExactlyOnce(core: Core, secret: string, log: Log, s: State, c: ConnId, completed: nat)
    requires Backed(core, secret, log, s, c) && core.taken == 0
    ensures var reached, sent := Reached(core, completed), Sent(secret, log, c);
      && reached <= |core.stream| && core.stream[..reached] <= sent
      && (s.conns[c].phase.Returned? && completed >= |sent| ==> core.stream[..reached] == sent)
  {
    var rest := BackedStream(core, secret, log, s, c);
    HandedOver(core, rest, Sent(secret, log, c), completed);
  }

  lemma BackedStream(core: Core, secret: string, log: Log, s: State, c: ConnId) returns (rest: seq<Text>)
    requires Backed(core, secret, log, s, c)
    ensures core.stream + rest == Sent(secret, log, c)
    ensures s.conns[c].phase.Returned? ==> core.stream == Sent(secret, log, c)
  {
    DeliveredInOrder(secret, log, s, c);
    rest := s.conns[c].outgoing;
    if s.conns[c].phase.Returned? {
      EverythingDelivered(secret, log, s, c);
    }
  }
}
