/** Junk sent by an authenticated client changes nothing: deleting it from any run leaves a run
    with the same tables, the same outgoing streams and the same result for every dispatch. */
module JunkErasure {
  import opened Wrappers
  import opened Protocol
  import opened Tunnel
  import Invariants

  /** Push calls, each on its connection. */
  type Calls = set<(ConnId, CallId)>

  /** Malformed, of another type, unknown, duplicate, late, or for another connection's request:
      all of these are texts that answer no request pending on c. */
  ghost predicate IsJunk(s: State, c: ConnId, text: Text) {
    ResponseIn(text).None? || !s.Owns(ResponseIn(text).value.requestId, c)
  }

  /** By its own fields the text is no response to a request sent to c; and these are exactly the
      texts that leave no trace but their place in the channel when they are relayed. */
  lemma JunkExactly(secret: string, log: Log, s: State, c: ConnId, p: Push)
    requires Reaches(secret, log, s) && Enabled(s, Relay(c, p))
    ensures IsJunk(s, c, p.text) <==>
      forall r | IsResponse(p.text, r) :: !(r.requestId in s.pending && s.pending[r.requestId] == c)
    ensures IsJunk(s, c, p.text) <==>
      Apply(s, Relay(c, p)) == s.(conns := s.conns[c := s.conns[c].(incoming := s.conns[c].incoming[1..])])
  {
    ResponseInExactly(p.text);
    if !IsJunk(s, c, p.text) {
      var rid := ResponseIn(p.text).value.requestId;
      Invariants.Always(secret, log, s);
      assert Invariants.PendingEntry(s, rid);
      assert rid in s.pending && rid !in Apply(s, Relay(c, p)).pending;
    }
  }

  /** The step is part of pushing or relaying one of the messages. */
  ghost predicate Concerns(a: Action, junk: Calls) {
    (a.BeginPush? || a.Enqueue? || a.Refuse? || a.Abandon? || a.Relay?) && (a.c, a.push.call) in junk
  }

  ghost function Erase(log: Log, junk: Calls): Log {
    if log == [] then []
    else
      var n := |log| - 1;
      Erase(log[..n], junk) + if Concerns(log[n], junk) then [] else [log[n]]
  }

  /** The messages are only ever consumed by the relay loop, and are junk when it does. */
  ghost predicate OnlyJunk(s: State, log: Log, junk: Calls)
    requires Run(s, log).Some?
  {
    if log == [] then true
    else
      var n := |log| - 1;
      && OnlyJunk(s, log[..n], junk)
      && StepRespects(Run(s, log[..n]).value, log[n], junk)
  }

  ghost predicate StepRespects(s: State, a: Action, junk: Calls) {
    && (a.AuthReceive? ==> (a.c, a.push.call) !in junk)
    && (a.Relay? && (a.c, a.push.call) in junk ==> IsJunk(s, a.c, a.push.text))
  }

  // ---- The erased state ----

  function Keep(pushes: seq<Push>, c: ConnId, junk: Calls): seq<Push> {
    if pushes == [] then []
    else (if (c, pushes[0].call) in junk then [] else [pushes[0]]) + Keep(pushes[1..], c, junk)
  }

  function EraseConn(x: Conn, c: ConnId, junk: Calls): Conn {
    x.(used := (set k | k in x.used && (c, k) !in junk),
       calls := (map k | k in x.calls && (c, k) !in junk :: x.calls[k]),
       incoming := Keep(x.incoming, c, junk))
  }

  function EraseState(s: State, junk: Calls): State {
    s.(conns := map c | c in s.conns :: EraseConn(s.conns[c], c, junk))
  }

  lemma {:induction false} KeepShorter(pushes: seq<Push>, c: ConnId, junk: Calls)
    ensures |Keep(pushes, c, junk)| <= |pushes|
  {
    if pushes != [] {
      KeepShorter(pushes[1..], c, junk);
    }
  }

  lemma {:induction false} KeepAppend(pushes: seq<Push>, p: Push, c: ConnId, junk: Calls)
    ensures Keep(pushes + [p], c, junk) == Keep(pushes, c, junk) + if (c, p.call) in junk then [] else [p]
  {
    if pushes == [] {
      assert pushes + [p] == [p];
    } else {
      KeepAppend(pushes[1..], p, c, junk);
      assert (pushes + [p])[1..] == pushes[1..] + [p];
    }
  }

  // ---- One connection ----

  lemma EraseBeginPush(x: Conn, c: ConnId, p: Push, junk: Calls)
    ensures EraseConn(x.BeginPush(p), c, junk)
         == if (c, p.call) in junk then EraseConn(x, c, junk) else EraseConn(x, c, junk).BeginPush(p)
  {
    var y := EraseConn(x.BeginPush(p), c, junk);
    var z := if (c, p.call) in junk then EraseConn(x, c, junk) else EraseConn(x, c, junk).BeginPush(p);
    assert y.used == z.used && y.calls == z.calls;
  }

  lemma EraseEndPush(x: Conn, c: ConnId, p: Push, junk: Calls)
    ensures EraseConn(x.EndPush(p), c, junk)
         == if (c, p.call) in junk then EraseConn(x, c, junk) else EraseConn(x, c, junk).EndPush(p)
  {
    var y := EraseConn(x.EndPush(p), c, junk);
    var z := if (c, p.call) in junk then EraseConn(x, c, junk) else EraseConn(x, c, junk).EndPush(p);
    assert y.calls == z.calls;
  }

  lemma EraseAccept(x: Conn, c: ConnId, p: Push, junk: Calls)
    ensures EraseConn(x.Accept(p), c, junk)
         == if (c, p.call) in junk then EraseConn(x, c, junk) else EraseConn(x, c, junk).Accept(p)
  {
    EraseEndPush(x, c, p, junk);
    KeepAppend(x.incoming, p, c, junk);
  }

  lemma EraseConsume(x: Conn, c: ConnId, junk: Calls)
    requires x.incoming != []
    ensures var p := x.incoming[0];
      if (c, p.call) in junk then EraseConn(x.Consume(), c, junk) == EraseConn(x, c, junk)
      else EraseConn(x, c, junk).NextIncoming(p) && EraseConn(x.Consume(), c, junk) == EraseConn(x, c, junk).Consume()
  {
  }

  lemma EraseEnded(x: Conn, c: ConnId, junk: Calls)
    requires x.IncomingEnded()
    ensures EraseConn(x, c, junk).IncomingEnded()
  {
    assert EraseConn(x, c, junk).calls == map[];
  }

  lemma EraseWithConn(s: State, c: ConnId, x: Conn, junk: Calls)
    ensures EraseState(s.WithConn(c, x), junk) == EraseState(s, junk).WithConn(c, EraseConn(x, c, junk))
  {
    assert EraseState(s.WithConn(c, x), junk).conns == EraseState(s, junk).conns[c := EraseConn(x, c, junk)];
  }

  lemma EraseSame(s: State, c: ConnId, x: Conn, junk: Calls)
    requires c in s.conns && EraseConn(x, c, junk) == EraseConn(s.conns[c], c, junk)
    ensures EraseState(s.WithConn(c, x), junk) == EraseState(s, junk)
  {
    EraseWithConn(s, c, x, junk);
    assert EraseState(s, junk).conns[c := EraseConn(x, c, junk)] == EraseState(s, junk).conns;
  }

  lemma SendersKept(s: State, c: ConnId, junk: Calls)
    ensures EraseState(s, junk).HasSender(c) <==> s.HasSender(c)
  {
    var t := EraseState(s, junk);
    forall other ensures other in t.conns && t.conns[other].phase == Replacing(c)
                    <==> other in s.conns && s.conns[other].phase == Replacing(c) {
    }
  }

  // ---- One step ----

  /** A step that handles junk does not show in the erased state. */
  lemma JunkStepVanishes(s: State, a: Action, junk: Calls)
    requires Enabled(s, a) && Concerns(a, junk) && StepRespects(s, a, junk)
    ensures EraseState(Apply(s, a), junk) == EraseState(s, junk)
  {
    var x := s.conns[a.c];
    match a
    case BeginPush(c, p) => EraseBeginPush(x, c, p, junk); EraseSame(s, c, x.BeginPush(p), junk);
    case Enqueue(c, p) => EraseAccept(x, c, p, junk); EraseSame(s, c, x.Accept(p), junk);
    case Refuse(c, p) => EraseEndPush(x, c, p, junk); EraseSame(s, c, x.EndPush(p), junk);
    case Abandon(c, p) => EraseEndPush(x, c, p, junk); EraseSame(s, c, x.EndPush(p), junk);
    case Relay(c, p) => EraseConsume(x, c, junk); EraseSame(s, c, x.Consume(), junk);
  }

  /** A push of something else goes the same way in the erased state. */
  lemma PushStepRemains(s: State, a: Action, junk: Calls)
    requires Enabled(s, a) && !Concerns(a, junk) && (a.BeginPush? || a.Enqueue? || a.Refuse? || a.Abandon?)
    ensures Enabled(EraseState(s, junk), a)
    ensures Apply(EraseState(s, junk), a) == EraseState(Apply(s, a), junk)
  {
    var x := s.conns[a.c];
    match a
    case BeginPush(c, p) => EraseBeginPush(x, c, p, junk); EraseWithConn(s, c, x.BeginPush(p), junk);
    case Enqueue(c, p) =>
      KeepShorter(x.incoming, c, junk);
      EraseAccept(x, c, p, junk);
      EraseWithConn(s, c, x.Accept(p), junk);
    case Refuse(c, p) => EraseEndPush(x, c, p, junk); EraseWithConn(s, c, x.EndPush(p), junk);
    case Abandon(c, p) => EraseEndPush(x, c, p, junk); EraseWithConn(s, c, x.EndPush(p), junk);
  }

  lemma EraseRelayed(s: State, c: ConnId, text: Text, junk: Calls)
    ensures EraseState(Relayed(s, c, text), junk) == Relayed(EraseState(s, junk), c, text)
  {
  }

  lemma IntakeStepRemains(s: State, a: Action, junk: Calls)
    requires Enabled(s, a) && !Concerns(a, junk) && StepRespects(s, a, junk)
    requires a.AuthReceive? || a.Relay? || a.AuthEnd?
    ensures Enabled(EraseState(s, junk), a)
    ensures Apply(EraseState(s, junk), a) == EraseState(Apply(s, a), junk)
  {
    var x := s.conns[a.c];
    match a
    case AuthReceive(c, p) =>
      EraseConsume(x, c, junk);
      EraseWithConn(s, c, x.Consume().Authenticate(s.secret, p.text), junk);
    case Relay(c, p) =>
      RelayRemains(s, c, p, junk);
    case AuthEnd(c) =>
      EraseEnded(x, c, junk);
      EraseWithConn(s, c, x.(phase := Leaving), junk);
  }

  lemma RelayRemains(s: State, c: ConnId, p: Push, junk: Calls)
    requires Enabled(s, Relay(c, p)) && !Concerns(Relay(c, p), junk) && StepRespects(s, Relay(c, p), junk)
    ensures Enabled(EraseState(s, junk), Relay(c, p))
    ensures Apply(EraseState(s, junk), Relay(c, p)) == EraseState(Apply(s, Relay(c, p)), junk)
  {
    var x := s.conns[c];
    EraseConsume(x, c, junk);
    EraseWithConn(s, c, x.Consume(), junk);
    EraseRelayed(s.WithConn(c, x.Consume()), c, p.text, junk);
  }

  lemma CleanupRemains(s: State, c: ConnId, service: string, junk: Calls)
    requires Enabled(s, Cleanup(c, service))
    ensures Enabled(EraseState(s, junk), Cleanup(c, service))
    ensures CleanedUp(EraseState(s, junk), c, service) == EraseState(CleanedUp(s, c, service), junk)
  {
    EraseEnded(s.conns[c], c, junk);
    EraseWithConn(s, c, s.conns[c].(phase := Leaving), junk);
    assert CleanedUp(EraseState(s, junk), c, service).conns == EraseState(CleanedUp(s, c, service), junk).conns;
    assert CleanedUp(EraseState(s, junk), c, service).pending == EraseState(CleanedUp(s, c, service), junk).pending;
    assert CleanedUp(EraseState(s, junk), c, service).dispatches == EraseState(CleanedUp(s, c, service), junk).dispatches;
  }

  /** Steps that only rewrite their own connection, and not its intake. */
  lemma OwnStepRemains(s: State, a: Action, junk: Calls)
    requires Enabled(s, a)
    requires a.Close? || a.Start? || a.AuthTimeOut? || a.DropSender? || a.Deliver? || a.Return?
    ensures Enabled(EraseState(s, junk), a)
    ensures Apply(EraseState(s, junk), a) == EraseState(Apply(s, a), junk)
  {
    EraseWithConn(s, a.c, Apply(s, a).conns[a.c], junk);
  }

  lemma DrainEndRemains(s: State, c: ConnId, junk: Calls)
    requires Enabled(s, DrainEnd(c))
    ensures Enabled(EraseState(s, junk), DrainEnd(c))
    ensures Apply(EraseState(s, junk), DrainEnd(c)) == EraseState(Apply(s, DrainEnd(c)), junk)
  {
    SendersKept(s, c, junk);
    EraseWithConn(s, c, s.conns[c].(receiving := false), junk);
  }

  lemma RegistryStepRemains(s: State, a: Action, junk: Calls)
    requires Enabled(s, a) && (a.Register? || a.Upgrade?)
    ensures Enabled(EraseState(s, junk), a)
    ensures Apply(EraseState(s, junk), a) == EraseState(Apply(s, a), junk)
  {
    EraseWithConn(s, a.c, Apply(s, a).conns[a.c], junk);
  }

  lemma CreateRemains(s: State, junk: Calls)
    requires Enabled(s, Create)
    ensures Enabled(EraseState(s, junk), Create)
    ensures Apply(EraseState(s, junk), Create) == EraseState(Apply(s, Create), junk)
  {
    assert EraseConn(NewConn(), s.nextConnId, junk) == NewConn();
    EraseWithConn(s, s.nextConnId, NewConn(), junk);
  }

  lemma CloseReplacedRemains(s: State, c: ConnId, loser: ConnId, junk: Calls)
    requires Enabled(s, CloseReplaced(c, loser))
    ensures Enabled(EraseState(s, junk), CloseReplaced(c, loser))
    ensures Apply(EraseState(s, junk), CloseReplaced(c, loser)) == EraseState(Apply(s, CloseReplaced(c, loser)), junk)
  {
    var closed := s.conns[loser].(open := false);
    EraseWithConn(s, loser, closed, junk);
    EraseWithConn(s.WithConn(loser, closed), c, s.conns[c].(phase := Relaying), junk);
  }

  lemma SendRemains(s: State, rid: RequestId, c: ConnId, text: Text, junk: Calls)
    requires Enabled(s, Send(rid, c, text))
    ensures Enabled(EraseState(s, junk), Send(rid, c, text))
    ensures Apply(EraseState(s, junk), Send(rid, c, text)) == EraseState(Apply(s, Send(rid, c, text)), junk)
  {
    EraseWithConn(s, c, s.conns[c].Emit(text), junk);
  }

  lemma DispatchStepRemains(s: State, a: Action, junk: Calls)
    requires Enabled(s, a) && MovesDispatch(a) && !a.Send?
    ensures Enabled(EraseState(s, junk), a)
    ensures Apply(EraseState(s, junk), a) == EraseState(Apply(s, a), junk)
  {
  }

  /** Any other step is possible in the erased state and leads to the erased outcome. */
  lemma OtherStepRemains(s: State, a: Action, junk: Calls)
    requires Enabled(s, a) && !Concerns(a, junk) && StepRespects(s, a, junk)
    ensures Enabled(EraseState(s, junk), a)
    ensures Apply(EraseState(s, junk), a) == EraseState(Apply(s, a), junk)
  {
    if a.BeginPush? || a.Enqueue? || a.Refuse? || a.Abandon? {
      PushStepRemains(s, a, junk);
    } else if a.AuthReceive? || a.Relay? || a.AuthEnd? {
      IntakeStepRemains(s, a, junk);
    } else if a.Cleanup? {
      CleanupRemains(s, a.c, a.service, junk);
    } else if a.Send? {
      SendRemains(s, a.rid, a.c, a.text, junk);
    } else if MovesDispatch(a) {
      DispatchStepRemains(s, a, junk);
    } else if a.Create? {
      CreateRemains(s, junk);
    } else if a.CloseReplaced? {
      CloseReplacedRemains(s, a.c, a.loser, junk);
    } else if a.Register? || a.Upgrade? {
      RegistryStepRemains(s, a, junk);
    } else if a.DrainEnd? {
      DrainEndRemains(s, a.c, junk);
    } else {
      OwnStepRemains(s, a, junk);
    }
  }

  // ---- Whole runs ----

  /** Erasing messages that turn out to be junk gives a legal run, in step with the original. */
  lemma {:induction false} ErasedRun(s: State, log: Log, junk: Calls)
    requires Run(s, log).Some? && OnlyJunk(s, log, junk)
    ensures Run(EraseState(s, junk), Erase(log, junk)) == Some(EraseState(Run(s, log).value, junk))
    decreases |log|
  {
    if log != [] {
      var n := |log| - 1;
      var mid := Run(s, log[..n]).value;
      ErasedRun(s, log[..n], junk);
      if Concerns(log[n], junk) {
        JunkStepVanishes(mid, log[n], junk);
        assert Erase(log, junk) == Erase(log[..n], junk);
      } else {
        OtherStepRemains(mid, log[n], junk);
        RunStep(EraseState(s, junk), Erase(log[..n], junk), log[n]);
      }
    }
  }

  // ---- All the junk of a run ----

  /** The push call whose text the step takes out of c's channel, if it does. */
  ghost function Takes(a: Action, c: ConnId): set<CallId> {
    if (a.AuthReceive? || a.Relay?) && a.c == c then {a.push.call} else {}
  }

  ghost function Consumed(log: Log, c: ConnId): set<CallId> {
    if log == [] then {} else Consumed(log[..|log| - 1], c) + Takes(log[|log| - 1], c)
  }

  /** What the relay loops consumed although it answered nothing pending on their connection. */
  ghost function JunkOf(s: State, log: Log): Calls
    requires Run(s, log).Some?
  {
    if log == [] then {}
    else
      var n := |log| - 1;
      var a := log[n];
      JunkOf(s, log[..n]) +
      if a.Relay? && IsJunk(Run(s, log[..n]).value, a.c, a.push.text) then {(a.c, a.push.call)} else {}
  }

  /** Each push call puts its text into the channel at most once: what is in flight, what is
      buffered and what was consumed are different calls. */
  ghost predicate OnceEach(x: Conn, consumed: set<CallId>) {
    && x.calls.Keys <= x.used && consumed <= x.used && x.calls.Keys !! consumed
    && (forall i | 0 <= i < |x.incoming| ::
          x.incoming[i].call in x.used && x.incoming[i].call !in x.calls && x.incoming[i].call !in consumed)
    && (forall i, j | 0 <= i < j < |x.incoming| :: x.incoming[i].call != x.incoming[j].call)
  }

  lemma OnceEachAccept(x: Conn, p: Push, consumed: set<CallId>)
    requires OnceEach(x, consumed) && x.HasCall(p)
    ensures OnceEach(x.Accept(p), consumed)
  {
    var y := x.Accept(p);
    forall i, j | 0 <= i < j < |y.incoming| ensures y.incoming[i].call != y.incoming[j].call {
      assert y.incoming[i] == x.incoming[i];
    }
  }

  lemma OnceEachConsume(x: Conn, consumed: set<CallId>)
    requires OnceEach(x, consumed) && x.incoming != []
    ensures x.incoming[0].call !in consumed
    ensures OnceEach(x.Consume(), consumed + {x.incoming[0].call})
  {
  }

  lemma OnceEachStep(s: State, a: Action, c: ConnId, consumed: set<CallId>)
    requires Enabled(s, a) && c in s.conns && OnceEach(s.conns[c], consumed)
    ensures Takes(a, c) !! consumed
    ensures c in Apply(s, a).conns && OnceEach(Apply(s, a).conns[c], consumed + Takes(a, c))
  {
    if !Intake(a, c) {
      IntakeUntouched(s, a, c);
    } else {
      IntakeTouched(s, a);
      if a.Enqueue? {
        OnceEachAccept(s.conns[c], a.push, consumed);
      } else if a.AuthReceive? || a.Relay? {
        OnceEachConsume(s.conns[c], consumed);
      }
    }
  }

  lemma {:induction false} AlwaysOnceEach(secret: string, log: Log, s: State, c: ConnId)
    requires Reaches(secret, log, s)
    ensures if c in s.conns then OnceEach(s.conns[c], Consumed(log, c)) else Consumed(log, c) == {}
    decreases |log|
  {
    if log != [] {
      var n := |log| - 1;
      var mid := Run(Init(secret), log[..n]).value;
      AlwaysOnceEach(secret, log[..n], mid, c);
      if c in mid.conns {
        OnceEachStep(mid, log[n], c, Consumed(log[..n], c));
      } else {
        FirstSight(mid, log[n], c);
      }
    }
  }

  lemma FirstSight(s: State, a: Action, c: ConnId)
    requires Enabled(s, a) && c !in s.conns
    ensures Takes(a, c) == {}
    ensures c in Apply(s, a).conns ==> Apply(s, a).conns[c] == NewConn()
  {
  }

  lemma {:induction false} JunkWasConsumed(s: State, log: Log, c: ConnId, k: CallId)
    requires Run(s, log).Some? && (c, k) in JunkOf(s, log)
    ensures k in Consumed(log, c)
    decreases |log|
  {
    var n := |log| - 1;
    if (c, k) in JunkOf(s, log[..n]) {
      JunkWasConsumed(s, log[..n], c, k);
    }
  }

  /** A call that was never consumed can be added to the junk without breaking anything. */
  lemma {:induction false} OnlyJunkExtends(s: State, log: Log, junk: Calls, c: ConnId, k: CallId)
    requires Run(s, log).Some? && OnlyJunk(s, log, junk) && k !in Consumed(log, c)
    ensures OnlyJunk(s, log, junk + {(c, k)})
    decreases |log|
  {
    if log != [] {
      OnlyJunkExtends(s, log[..|log| - 1], junk, c, k);
    }
  }

  /** The junk of a run satisfies the hypothesis of ErasedRun: no push call is consumed twice. */
  lemma {:induction false} JunkIsOnlyJunk(secret: string, log: Log)
    requires Run(Init(secret), log).Some?
    ensures OnlyJunk(Init(secret), log, JunkOf(Init(secret), log))
    decreases |log|
  {
    if log != [] {
      var n := |log| - 1;
      var pre, a := log[..n], log[n];
      var mid := Run(Init(secret), pre).value;
      var junk := JunkOf(Init(secret), pre);
      JunkIsOnlyJunk(secret, pre);
      if a.AuthReceive? || a.Relay? {
        AlwaysOnceEach(secret, pre, mid, a.c);
        OnceEachStep(mid, a, a.c, Consumed(pre, a.c));
        assert a.push.call in Takes(a, a.c);
        if (a.c, a.push.call) in junk {
          JunkWasConsumed(Init(secret), pre, a.c, a.push.call);
        }
        if a.Relay? && IsJunk(mid, a.c, a.push.text) {
          OnlyJunkExtends(Init(secret), pre, junk, a.c, a.push.call);
        } else {
          assert JunkOf(Init(secret), log) == junk;
        }
      } else {
        assert JunkOf(Init(secret), log) == junk;
      }
    }
  }

  lemma JunkOfStep(s: State, log: Log, a: Action)
    requires Run(s, log).Some? && Enabled(Run(s, log).value, a)
    requires a.Relay? ==> !IsJunk(Run(s, log).value, a.c, a.push.text)
    ensures Run(s, log + [a]).Some? && JunkOf(s, log + [a]) == JunkOf(s, log)
  {
    assert (log + [a])[..|log|] == log;
  }

  lemma {:induction false} ErasedRunHasNoJunk(s: State, log: Log, junk: Calls)
    requires Run(s, log).Some? && OnlyJunk(s, log, junk) && JunkOf(s, log) <= junk
    ensures Run(EraseState(s, junk), Erase(log, junk)).Some?
    ensures JunkOf(EraseState(s, junk), Erase(log, junk)) == {}
    decreases |log|
  {
    if log != [] {
      var n := |log| - 1;
      var mid := Run(s, log[..n]).value;
      ErasedRun(s, log[..n], junk);
      ErasedRunHasNoJunk(s, log[..n], junk);
      if Concerns(log[n], junk) {
        assert Erase(log, junk) == Erase(log[..n], junk);
      } else {
        OtherStepRemains(mid, log[n], junk);
        assert log[n].Relay? ==> !IsJunk(mid, log[n].c, log[n].push.text);
        JunkOfStep(EraseState(s, junk), Erase(log[..n], junk), log[n]);
      }
    }
  }

  /** Junk erasure. Delete from any run of the server every push, buffering and relaying of a
      message that a relay loop skipped. What is left is a run of the server that relays no
      junk at all, and it ends with the same services, the same pending requests, the same
      result for every dispatch, and on every connection the same phase and the same messages
      sent and delivered. */
  lemma JunkChangesNothing(secret: string, log: Log, s: State)
    requires Reaches(secret, log, s)
    ensures var junk := JunkOf(Init(secret), log);
      && var clean := Erase(log, junk);
      && Run(Init(secret), clean).Some?
      && JunkOf(Init(secret), clean) == {}
      && var t := Run(Init(secret), clean).value;
      && t.services == s.services && t.pending == s.pending && t.dispatches == s.dispatches
      && t.conns.Keys == s.conns.Keys
      && forall c <- s.conns ::
           && t.conns[c].phase == s.conns[c].phase && t.conns[c].service == s.conns[c].service
           && t.conns[c].outgoing == s.conns[c].outgoing && t.conns[c].delivered == s.conns[c].delivered
  {
    var junk := JunkOf(Init(secret), log);
    JunkIsOnlyJunk(secret, log);
    ErasedRun(Init(secret), log, junk);
    ErasedRunHasNoJunk(Init(secret), log, junk);
    assert EraseState(Init(secret), junk) == Init(secret);
  }
}
