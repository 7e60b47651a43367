/** Shutdown never deadlocks and always ends. */
module Shutdown {
  import opened Wrappers
  import opened Protocol
  import opened Tunnel
  import opened Invariants
  import opened History

  // ---- A sum over the values of a finite map ----

  ghost function Total<K>(m: map<K, nat>): nat {
    if m == map[] then 0
    else
      var k :| k in m;
      m[k] + Total(m - {k})
  }

  /** The sum does not depend on the order in which the keys are picked. */
  lemma {:induction false} TotalSplit<K>(m: map<K, nat>, k: K)
    requires k in m
    ensures Total(m) == m[k] + Total(m - {k})
    decreases |m|
  {
    var picked :| picked in m && Total(m) == m[picked] + Total(m - {picked});
    if picked != k {
      TotalSplit(m - {picked}, k);
      TotalSplit(m - {k}, picked);
      assert m - {picked} - {k} == m - {k} - {picked};
    }
  }

  lemma TotalUpdate<K>(m: map<K, nat>, k: K, v: nat)
    requires k in m
    ensures Total(m[k := v]) + m[k] == Total(m) + v
  {
    TotalSplit(m, k);
    TotalSplit(m[k := v], k);
    assert m[k := v] - {k} == m - {k};
  }

  // ---- The work left ----

  function PhaseWork(phase: Phase): nat {
    match phase
    case Created => 16
    case Authenticating => 14
    case Authenticated => 12
    case Replacing(_) => 10
    case Closing(_) => 8
    case Relaying => 6
    case Leaving => 4
    case Draining => 2
    case Returned => 0
  }

  ghost function ConnWork(x: Conn): nat {
    PhaseWork(x.phase) + 3 * |x.calls| + 2 * |x.incoming| + |x.outgoing| + (if x.receiving then 1 else 0)
  }

  function ProgressWork(progress: Progress): nat {
    match progress
    case Sending => 4
    case Waiting => 2
    case Failing(_) => 1
    case Done(_) => 0
    case Cancelled => 0
  }

  ghost function ConnWorks(conns: map<ConnId, Conn>): map<ConnId, nat> {
    map c | c in conns :: ConnWork(conns[c])
  }

  ghost function DispatchWorks(dispatches: map<RequestId, Dispatch>): map<RequestId, nat> {
    map rid | rid in dispatches :: ProgressWork(dispatches[rid].progress)
  }

  ghost function Work(s: State): nat {
    Total(ConnWorks(s.conns)) + Total(DispatchWorks(s.dispatches))
  }

  lemma ConnWorkUpdate(conns: map<ConnId, Conn>, c: ConnId, x: Conn)
    requires c in conns
    ensures Total(ConnWorks(conns[c := x])) + ConnWork(conns[c]) == Total(ConnWorks(conns)) + ConnWork(x)
  {
    ConnWorksUpdate(conns, c, x);
    TotalUpdate(ConnWorks(conns), c, ConnWork(x));
  }

  lemma ConnWorksUpdate(conns: map<ConnId, Conn>, c: ConnId, x: Conn)
    requires c in conns
    ensures ConnWorks(conns[c := x]) == ConnWorks(conns)[c := ConnWork(x)]
  {
  }

  lemma ProgressWorkUpdate(dispatches: map<RequestId, Dispatch>, rid: RequestId, d: Dispatch)
    requires rid in dispatches
    ensures Total(DispatchWorks(dispatches[rid := d])) + ProgressWork(dispatches[rid].progress)
         == Total(DispatchWorks(dispatches)) + ProgressWork(d.progress)
  {
    TotalUpdate(DispatchWorks(dispatches), rid, ProgressWork(d.progress));
    assert DispatchWorks(dispatches[rid := d]) == DispatchWorks(dispatches)[rid := ProgressWork(d.progress)];
  }

  /** Only how far each dispatch is counts, not what its slot holds. */
  lemma SameProgress(before: map<RequestId, Dispatch>, after: map<RequestId, Dispatch>)
    requires before.Keys == after.Keys
    requires forall rid <- before :: before[rid].progress == after[rid].progress
    ensures Total(DispatchWorks(before)) == Total(DispatchWorks(after))
  {
    assert DispatchWorks(before) == DispatchWorks(after);
  }

  // ---- Steps the server takes on its own ----

  /** Everything but what adapters, callers and clocks decide. */
  ghost predicate Internal(a: Action) {
    !(a.Create? || a.BeginPush? || a.Abandon? || a.Close? || a.Start? || a.AuthTimeOut?
      || a.Admit? || a.TimeOut? || a.Cancel?)
  }

  /** The steps by which one connection moves on, whatever they do to the shared tables. */
  ghost predicate ConnMove(a: Action) {
    a.Enqueue? || a.Refuse? || a.AuthEnd? || a.AuthReceive? || a.Register? || a.Upgrade? || a.Relay?
    || a.Cleanup? || a.DropSender? || a.Deliver? || a.DrainEnd? || a.Return?
  }

  /** c's own moves, and the step by which a replacing connection lets go of c's handle. */
  ghost predicate LocalConn(a: Action, c: ConnId) {
    ((ConnMove(a) || a.CloseReplaced?) && a.c == c) || (a.Upgrade? && a.loser == c)
  }

  /** The moves of a dispatch routed to c. */
  ghost predicate LocalDispatch(s: State, a: Action, c: ConnId) {
    && (a.Send? || a.SendFails? || a.Receive? || a.Fail?)
    && a.rid in s.dispatches && s.dispatches[a.rid].route == Some(c)
  }

  /** The internal steps that concern c and its dispatches. */
  ghost predicate Local(s: State, a: Action, c: ConnId) {
    LocalConn(a, c) || LocalDispatch(s, a, c)
  }

  lemma ConnMoveShape(s: State, a: Action)
    requires Enabled(s, a) && ConnMove(a)
    ensures var t := Apply(s, a);
      && t.conns == s.conns[a.c := t.conns[a.c]]
      && t.dispatches.Keys == s.dispatches.Keys
      && forall rid <- s.dispatches :: t.dispatches[rid].progress == s.dispatches[rid].progress
  {
  }

  lemma IntakeMoveWorks(s: State, a: Action)
    requires Enabled(s, a) && (a.Enqueue? || a.Refuse? || a.AuthReceive? || a.Relay?)
    ensures ConnWork(Apply(s, a).conns[a.c]) < ConnWork(s.conns[a.c])
  {
    if a.Enqueue? || a.Refuse? {
      PushEndWorks(s, a);
    } else {
      ConsumeWorks(s, a);
    }
  }

  lemma PushEndWorks(s: State, a: Action)
    requires Enabled(s, a) && (a.Enqueue? || a.Refuse?)
    ensures ConnWork(Apply(s, a).conns[a.c]) < ConnWork(s.conns[a.c])
  {
    CallEnds(s.conns[a.c], a.push);
  }

  lemma ConsumeWorks(s: State, a: Action)
    requires Enabled(s, a) && (a.AuthReceive? || a.Relay?)
    ensures ConnWork(Apply(s, a).conns[a.c]) < ConnWork(s.conns[a.c])
  {
  }

  lemma PhaseMoveWorks(s: State, a: Action)
    requires Enabled(s, a) && ConnMove(a) && !(a.Enqueue? || a.Refuse? || a.AuthReceive? || a.Relay?)
    ensures ConnWork(Apply(s, a).conns[a.c]) < ConnWork(s.conns[a.c])
  {
  }

  lemma ConnMoveWorks(s: State, a: Action)
    requires Enabled(s, a) && ConnMove(a)
    ensures Work(Apply(s, a)) < Work(s)
  {
    var t := Apply(s, a);
    ConnMoveShape(s, a);
    ConnWorkUpdate(s.conns, a.c, t.conns[a.c]);
    SameProgress(s.dispatches, t.dispatches);
    if a.Enqueue? || a.Refuse? || a.AuthReceive? || a.Relay? {
      IntakeMoveWorks(s, a);
    } else {
      PhaseMoveWorks(s, a);
    }
  }

  lemma TwoConnsWork(conns: map<ConnId, Conn>, b: ConnId, x: Conn, c: ConnId, y: Conn)
    requires b in conns && c in conns && b != c
    ensures Total(ConnWorks(conns[b := x][c := y])) + ConnWork(conns[b]) + ConnWork(conns[c])
         == Total(ConnWorks(conns)) + ConnWork(x) + ConnWork(y)
  {
    ConnWorkUpdate(conns, b, x);
    ConnWorkUpdate(conns[b := x], c, y);
  }

  lemma CloseReplacedWorks(s: State, c: ConnId, loser: ConnId)
    requires Enabled(s, CloseReplaced(c, loser)) && c != loser
    ensures Work(Apply(s, CloseReplaced(c, loser))) < Work(s)
  {
    TwoConnsWork(s.conns, loser, s.conns[loser].(open := false), c, s.conns[c].(phase := Relaying));
  }

  lemma SendWorks(s: State, rid: RequestId, c: ConnId, text: Text)
    requires Enabled(s, Send(rid, c, text))
    ensures Work(Apply(s, Send(rid, c, text))) < Work(s)
  {
    ConnWorkUpdate(s.conns, c, s.conns[c].Emit(text));
    ProgressWorkUpdate(s.dispatches, rid, s.dispatches[rid].(progress := Waiting));
  }

  lemma DispatchMoveWorks(s: State, a: Action)
    requires Enabled(s, a) && (a.SendFails? || a.Receive? || a.Fail?)
    ensures Work(Apply(s, a)) < Work(s)
  {
    ProgressWorkUpdate(s.dispatches, a.rid, Apply(s, a).dispatches[a.rid]);
  }

  /** Every internal step uses work up. */
  lemma InternalStepWorks(s: State, a: Action)
    requires Inv(s) && Enabled(s, a) && Internal(a)
    ensures Work(Apply(s, a)) < Work(s)
  {
    if a.SendFails? || a.Receive? || a.Fail? {
      DispatchMoveWorks(s, a);
    } else if a.CloseReplaced? {
      assert ConnEntry(s, a.c);
      CloseReplacedWorks(s, a.c, a.loser);
    } else if a.Send? {
      SendWorks(s, a.rid, a.c, a.text);
    } else {
      ConnMoveWorks(s, a);
    }
  }

  // ---- No deadlock ----

  /** Every connection whose run() is in progress has been closed. */
  ghost predicate AllClosed(s: State) {
    forall c <- s.conns :: s.conns[c].Running() ==> !s.conns[c].open
  }

  /** Every started run() and every dispatch has returned. */
  ghost predicate AllReturned(s: State) {
    && (forall c <- s.conns :: !s.conns[c].Running())
    && (forall rid <- s.dispatches :: !s.dispatches[rid].InFlight())
  }

  lemma StaysClosed(s: State, a: Action)
    requires AllClosed(s) && Enabled(s, a) && Internal(a)
    ensures AllClosed(Apply(s, a))
  {
  }

  /** A closed connection that waits for a message has one buffered, has a push that can be
      buffered, or will get none. */
  lemma IncomingProgress(s: State, c: ConnId) returns (a: Action)
    requires c in s.conns && s.conns[c].Running() && !s.conns[c].open
    requires s.conns[c].incoming == [] && s.conns[c].calls != map[]
    ensures Internal(a) && Enabled(s, a) && Local(s, a, c)
  {
    var k :| k in s.conns[c].calls;
    a := Enqueue(c, Push(k, s.conns[c].calls[k]));
  }

  /** A dispatch whose route has cleaned up, and whose route's outgoing channel is not full,
      can move: it need not wait for anybody. */
  lemma DispatchProgress(s: State, rid: RequestId, c: ConnId) returns (a: Action)
    requires Inv(s) && rid in s.dispatches && s.dispatches[rid].SentOn(c)
    requires c in s.conns && !s.conns[c].Registered() && s.conns[c].outgoing == []
    ensures Internal(a) && Enabled(s, a) && Local(s, a, c)
  {
    assert DispatchEntry(s, rid);
    if s.dispatches[rid].progress.Sending? {
      a := Send(rid, c, RequestText(s.dispatches[rid].request));
    } else if s.dispatches[rid].progress.Waiting? {
      assert rid in s.pending ==> PendingEntry(s, rid);
      a := Receive(rid);
    } else {
      a := Fail(rid);
    }
  }

  /** The drain task of a connection that dropped its own sender: it delivers, ends, or whoever
      still holds a sender can move. */
  lemma DrainProgress(s: State, c: ConnId) returns (a: Action)
    requires Inv(s) && c in s.conns && s.conns[c].phase.Draining?
    ensures Internal(a) && Enabled(s, a) && Local(s, a, c)
  {
    var x := s.conns[c];
    forall service <- s.services ensures s.services[service] != c {
      assert ServiceEntry(s, service);
    }
    if !x.receiving {
      a := Return(c);
    } else if x.outgoing != [] {
      a := Deliver(c, x.outgoing[0]);
    } else if other :| other in s.conns && s.conns[other].phase == Replacing(c) {
      a := Upgrade(other, c);
    } else if rid :| rid in s.dispatches && s.dispatches[rid].SentOn(c) {
      a := DispatchProgress(s, rid, c);
    } else {
      a := DrainEnd(c);
    }
  }

  lemma RunProgress(s: State, c: ConnId) returns (a: Action)
    requires Inv(s) && c in s.conns && s.conns[c].Running() && !s.conns[c].open
    ensures Internal(a) && Enabled(s, a) && Local(s, a, c)
  {
    var x := s.conns[c];
    assert ConnEntry(s, c);
    match x.phase
    case Authenticating =>
      if x.incoming != [] {
        a := AuthReceive(c, x.incoming[0]);
      } else if x.calls != map[] {
        a := IncomingProgress(s, c);
      } else {
        a := AuthEnd(c);
      }
    case Authenticated => a := Register(c, x.service.value);
    case Replacing(loser) => a := Upgrade(c, loser);
    case Closing(loser) => a := CloseReplaced(c, loser);
    case Relaying =>
      if x.incoming != [] {
        a := Relay(c, x.incoming[0]);
      } else if x.calls != map[] {
        a := IncomingProgress(s, c);
      } else {
        a := Cleanup(c, x.service.value);
      }
    case Leaving => a := DropSender(c);
    case Draining => a := DrainProgress(s, c);
  }

  /** Deadlock freedom: until everything has returned, the server can take a step of its own.
      A dispatch in flight keeps its route's run() going, so some run() can always move. */
  lemma Progress(s: State) returns (a: Action)
    requires Inv(s) && AllClosed(s) && !AllReturned(s)
    ensures Internal(a) && Enabled(s, a)
  {
    if rid :| rid in s.dispatches && s.dispatches[rid].InFlight() {
      assert DispatchEntry(s, rid);
      var c := s.dispatches[rid].route.value;
      assert ConnEntry(s, c);
      a := RunProgress(s, c);
    } else {
      var c :| c in s.conns && s.conns[c].Running();
      a := RunProgress(s, c);
    }
  }

  // ---- Whole shutdowns ----

  ghost predicate AllInternal(log: Log) {
    forall a <- log :: Internal(a)
  }

  /** Termination: however the server schedules its own steps, there are at most Work(s) of them. */
  lemma {:induction false} ShutdownBounded(s: State, log: Log)
    requires Inv(s) && AllInternal(log) && Run(s, log).Some?
    ensures var t := Run(s, log).value;
            Inv(t) && Work(t) + |log| <= Work(s) && (AllClosed(s) ==> AllClosed(t))
    decreases |log|
  {
    if log != [] {
      var n := |log| - 1;
      ShutdownBounded(s, log[..n]);
      var mid := Run(s, log[..n]).value;
      Preserved(mid, log[n]);
      InternalStepWorks(mid, log[n]);
      if AllClosed(s) {
        StaysClosed(mid, log[n]);
      }
    }
  }

  /** Any internal schedule, however far it got, extends to one that ends with everything returned. */
  lemma {:induction false} ShutdownCompletes(s: State, log: Log) returns (full: Log)
    requires Inv(s) && AllClosed(s) && AllInternal(log) && Run(s, log).Some?
    ensures log <= full && AllInternal(full) && Run(s, full).Some?
    ensures AllReturned(Run(s, full).value)
    ensures |full| <= Work(s)
    decreases Work(s) - |log|
  {
    ShutdownBounded(s, log);
    var t := Run(s, log).value;
    if AllReturned(t) {
      full := log;
    } else {
      var a := Progress(t);
      RunStep(s, log, a);
      ShutdownBounded(s, log + [a]);
      full := ShutdownCompletes(s, log + [a]);
    }
  }

  /** From every reachable state in which all running connections are closed: no internal
      schedule runs for more than Work(s) steps, one that cannot be continued has returned
      everything and left both shared maps empty, and such a schedule exists. */
  lemma ShutdownEnds(secret: string, history: Log, s: State)
    requires Reaches(secret, history, s) && AllClosed(s)
    ensures forall log | AllInternal(log) && Run(s, log).Some? :: |log| <= Work(s)
    ensures forall log | AllInternal(log) && Run(s, log).Some? && Stuck(Run(s, log).value) ::
              ShutDown(Run(s, log).value)
    ensures exists log :: AllInternal(log) && Run(s, log).Some? && ShutDown(Run(s, log).value)
  {
    Always(secret, history, s);
    forall log | AllInternal(log) && Run(s, log).Some?
      ensures |log| <= Work(s)
      ensures Stuck(Run(s, log).value) ==> ShutDown(Run(s, log).value)
    {
      ShutdownBounded(s, log);
      var t := Run(s, log).value;
      if AllReturned(t) {
        TablesEmpty(t);
      } else {
        var a := Progress(t);
      }
    }
    var full := ShutdownCompletes(s, []);
    ShutdownBounded(s, full);
    TablesEmpty(Run(s, full).value);
  }

  ghost predicate ShutDown(s: State) {
    AllReturned(s) && s.services == map[] && s.pending == map[]
  }

  /** No internal step is enabled. */
  ghost predicate Stuck(s: State) {
    forall a | Internal(a) :: !Enabled(s, a)
  }
}
