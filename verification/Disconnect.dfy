/** One connection shuts down while all others stay open and everything else goes on. */
module Disconnect {
  import opened Wrappers
  import opened Protocol
  import opened Tunnel
  import opened Invariants
  import opened History
  import opened Shutdown

  // ---- Sums compared entry by entry ----

  lemma {:induction false} TotalMonotone<K>(small: map<K, nat>, big: map<K, nat>)
    requires small.Keys == big.Keys && forall k <- small :: small[k] <= big[k]
    ensures Total(small) <= Total(big)
    decreases |small|
  {
    if k :| k in small {
      TotalSplit(small, k);
      TotalSplit(big, k);
      TotalMonotone(small - {k}, big - {k});
    }
  }

  /** Entry k falls by `less` and rises by `more`; no other entry rises. */
  lemma TotalStep<K>(after: map<K, nat>, before: map<K, nat>, k: K, less: nat, more: nat)
    requires k in before && after.Keys == before.Keys
    requires forall j <- before | j != k :: after[j] <= before[j]
    requires after[k] + less <= before[k] + more
    ensures Total(after) + less <= Total(before) + more
  {
    TotalSplit(after, k);
    TotalSplit(before, k);
    TotalMonotone(after - {k}, before - {k});
  }

  lemma TotalInsert<K>(m: map<K, nat>, k: K, v: nat)
    requires k !in m
    ensures Total(m[k := v]) == Total(m) + v
  {
    TotalSplit(m[k := v], k);
    assert m[k := v] - {k} == m;
  }

  // ---- The work left on c ----

  /** What connection d adds to the work on c: everything when it is c, and one step while it
      holds the handle of c that it displaced. */
  ghost function ConnShare(x: Conn, d: ConnId, c: ConnId): nat {
    if d == c then ConnWork(x) else if x.phase == Replacing(c) then 1 else 0
  }

  ghost function DispatchShare(d: Dispatch, c: ConnId): nat {
    if d.route == Some(c) then ProgressWork(d.progress) else 0
  }

  ghost function ConnShares(conns: map<ConnId, Conn>, c: ConnId): map<ConnId, nat> {
    map d | d in conns :: ConnShare(conns[d], d, c)
  }

  ghost function DispatchShares(dispatches: map<RequestId, Dispatch>, c: ConnId): map<RequestId, nat> {
    map rid | rid in dispatches :: DispatchShare(dispatches[rid], c)
  }

  predicate Unregistered(x: Conn) {
    x.phase.Created? || x.phase.Authenticating? || x.phase.Authenticated?
  }

  ghost predicate HoldsOwn(s: State, c: ConnId)
    requires c in s.conns
  {
    s.conns[c].service.Some? && HeldBy(s, s.conns[c].service.value, c)
  }

  /** One more step may be needed when c can still be displaced. */
  ghost function Displaceable(s: State, c: ConnId): nat
    requires c in s.conns
  {
    (if Unregistered(s.conns[c]) then 1 else 0) + (if HoldsOwn(s, c) then 1 else 0)
  }

  ghost function LocalWork(s: State, c: ConnId): nat
    requires c in s.conns
  {
    Total(ConnShares(s.conns, c)) + Total(DispatchShares(s.dispatches, c)) + Displaceable(s, c)
  }

  /** c's run() has been started, and c is closed. */
  ghost predicate Disconnecting(s: State, c: ConnId) {
    c in s.conns && !s.conns[c].phase.Created? && !s.conns[c].open
  }

  /** The step takes the service from c. */
  ghost predicate Displaces(s: State, a: Action, c: ConnId) {
    a.Register? && a.c != c && HeldBy(s, a.service, c)
  }

  /** The step admits a request routed to c. */
  ghost predicate AdmitsTo(s: State, a: Action, c: ConnId) {
    a.Admit? && HeldBy(s, a.request.service, c)
  }

  // ---- What a step does to it ----

  lemma StaysDisconnecting(s: State, a: Action, c: ConnId)
    requires Enabled(s, a) && Disconnecting(s, c)
    ensures Disconnecting(Apply(s, a), c)
  {
    ClosedStaysClosed(s, a, c);
    if !Touches(a, c) {
      Untouched(s, a, c);
    }
  }

  lemma QuietMoves(s: State, a: Action, c: ConnId)
    requires Enabled(s, a) && Disconnecting(s, c) && Touches(a, c) && !LocalConn(a, c)
    ensures c in Apply(s, a).conns
    ensures ConnWork(Apply(s, a).conns[c]) <= ConnWork(s.conns[c]) + if a.Send? then 1 else 0
  {
    if a.Abandon? {
      CallEnds(s.conns[c], a.push);
    }
  }

  lemma ClosesLoser(s: State, c: ConnId, loser: ConnId)
    requires Enabled(s, CloseReplaced(c, loser)) && c != loser
    ensures ConnWork(Apply(s, CloseReplaced(c, loser)).conns[c]) < ConnWork(s.conns[c])
  {
  }

  lemma OwnShareStep(s: State, a: Action, c: ConnId)
    requires Inv(s) && Enabled(s, a) && Disconnecting(s, c) && Touches(a, c)
    ensures c in Apply(s, a).conns
    ensures ConnWork(Apply(s, a).conns[c]) + (if LocalConn(a, c) then 1 else 0)
         <= ConnWork(s.conns[c]) + if a.Send? then 1 else 0
  {
    if !LocalConn(a, c) {
      QuietMoves(s, a, c);
    } else if a.CloseReplaced? {
      assert ConnEntry(s, c);
      ClosesLoser(s, c, a.loser);
    } else if a.Enqueue? || a.Refuse? || a.AuthReceive? || a.Relay? {
      IntakeMoveWorks(s, a);
    } else {
      assert a.Upgrade? ==> ConnEntry(s, a.c);
      PhaseMoveWorks(s, a);
    }
  }

  lemma OtherShareStep(s: State, a: Action, c: ConnId, d: ConnId)
    requires Inv(s) && Enabled(s, a) && Touches(a, d) && d in s.conns && c in s.conns && d != c
    ensures d in Apply(s, a).conns
    ensures ConnShare(Apply(s, a).conns[d], d, c) + (if a == Upgrade(d, c) then 1 else 0)
         <= ConnShare(s.conns[d], d, c) + if Displaces(s, a, c) then 1 else 0
  {
    if a.Upgrade? {
      HandleDropped(s, d, a.loser, c);
    } else {
      ReplacingStep(s, a, c, d);
    }
  }

  lemma HandleDropped(s: State, d: ConnId, loser: ConnId, c: ConnId)
    requires Enabled(s, Upgrade(d, loser)) && d != c
    ensures var t := Apply(s, Upgrade(d, loser));
      ConnShare(t.conns[d], d, c) + (if loser == c then 1 else 0) <= ConnShare(s.conns[d], d, c)
  {
  }

  lemma ReplacingStep(s: State, a: Action, c: ConnId, d: ConnId)
    requires Enabled(s, a) && Touches(a, d) && d in s.conns && d != c && !a.Upgrade?
    ensures d in Apply(s, a).conns
    ensures Apply(s, a).conns[d].phase == Replacing(c) ==> s.conns[d].phase == Replacing(c) || Displaces(s, a, c)
  {
  }

  lemma ConnShareStep(s: State, a: Action, c: ConnId, d: ConnId)
    requires Inv(s) && Enabled(s, a) && Disconnecting(s, c) && d in s.conns
    ensures d in Apply(s, a).conns
    ensures ConnShare(Apply(s, a).conns[d], d, c) + (if LocalConn(a, c) && d == a.c then 1 else 0)
         <= ConnShare(s.conns[d], d, c)
            + (if a.Send? && a.c == c && d == c then 1 else 0) + if Displaces(s, a, c) && d == a.c then 1 else 0
  {
    if !Touches(a, d) {
      Untouched(s, a, d);
    } else if d == c {
      OwnShareStep(s, a, c);
    } else {
      OtherShareStep(s, a, c, d);
    }
  }

  lemma DispatchShareStep(s: State, a: Action, c: ConnId, rid: RequestId)
    requires Enabled(s, a) && !a.Admit? && rid in s.dispatches
    ensures rid in Apply(s, a).dispatches
    ensures DispatchShare(Apply(s, a).dispatches[rid], c)
            + (if LocalDispatch(s, a, c) && rid == a.rid then if a.Send? then 2 else 1 else 0)
         <= DispatchShare(s.dispatches[rid], c)
  {
    if MovesDispatch(a) {
      OnlyProgressWritten(s, a, rid);
    } else if a.Relay? || a.Cleanup? {
      OnlySlotsWritten(s, a);
    } else {
      DispatchesUntouched(s, a);
    }
  }

  lemma DisplaceableStep(s: State, a: Action, c: ConnId)
    requires Inv(s) && Enabled(s, a) && Disconnecting(s, c)
    ensures c in Apply(s, a).conns
    ensures Displaceable(Apply(s, a), c) + (if Displaces(s, a, c) then 1 else 0) <= Displaceable(s, c)
  {
    if a.Register? {
      RegisterDisplaces(s, a.c, a.service, c);
    } else if a.Cleanup? {
      CleanupDisplaces(s, a.c, a.service, c);
    } else {
      OthersDisplaceNobody(s, a, c);
    }
  }

  lemma RegisterDisplaces(s: State, winner: ConnId, service: string, c: ConnId)
    requires Inv(s) && Enabled(s, Register(winner, service)) && c in s.conns
    ensures var a := Register(winner, service);
      c in Apply(s, a).conns && Displaceable(Apply(s, a), c) + (if Displaces(s, a, c) then 1 else 0) <= Displaceable(s, c)
  {
    assert service in s.services ==> ServiceEntry(s, service);
  }

  lemma CleanupDisplaces(s: State, gone: ConnId, service: string, c: ConnId)
    requires Inv(s) && Enabled(s, Cleanup(gone, service)) && c in s.conns
    ensures var t := Apply(s, Cleanup(gone, service)); c in t.conns && Displaceable(t, c) <= Displaceable(s, c)
  {
  }

  lemma OthersDisplaceNobody(s: State, a: Action, c: ConnId)
    requires Inv(s) && Enabled(s, a) && Disconnecting(s, c) && !a.Register? && !a.Cleanup?
    ensures c in Apply(s, a).conns && Displaceable(Apply(s, a), c) <= Displaceable(s, c)
  {
    ServicesUntouched(s, a);
    if !Touches(a, c) {
      Untouched(s, a, c);
    } else if a.AuthReceive? {
      var verdict := AuthVerdict(s.secret, a.push.text);
      assert verdict.Ok? && verdict.value in s.services ==> ServiceEntry(s, verdict.value);
    }
  }

  // ---- The sums ----

  /** Connection k's share falls by `less` and rises by `more`; no other share rises. */
  lemma ConnTotals(before: map<ConnId, Conn>, after: map<ConnId, Conn>, c: ConnId, k: ConnId, less: nat, more: nat)
    requires after.Keys == before.Keys && k in before
    requires forall d <- before ::
      ConnShare(after[d], d, c) + (if d == k then less else 0) <= ConnShare(before[d], d, c) + if d == k then more else 0
    ensures Total(ConnShares(after, c)) + less <= Total(ConnShares(before, c)) + more
  {
    TotalStep(ConnShares(after, c), ConnShares(before, c), k, less, more);
  }

  lemma ConnTotalsQuiet(before: map<ConnId, Conn>, after: map<ConnId, Conn>, c: ConnId)
    requires after.Keys == before.Keys
    requires forall d <- before :: ConnShare(after[d], d, c) <= ConnShare(before[d], d, c)
    ensures Total(ConnShares(after, c)) <= Total(ConnShares(before, c))
  {
    TotalMonotone(ConnShares(after, c), ConnShares(before, c));
  }

  lemma ConnTotalsCreate(conns: map<ConnId, Conn>, c: ConnId, newId: ConnId)
    requires c in conns && newId !in conns
    ensures Total(ConnShares(conns[newId := NewConn()], c)) == Total(ConnShares(conns, c))
  {
    TotalInsert(ConnShares(conns, c), newId, 0);
    assert ConnShares(conns[newId := NewConn()], c) == ConnShares(conns, c)[newId := 0];
  }

  /** The step moves the work on c: by a local step, a send to c, or taking c's service. */
  ghost predicate Moves(s: State, a: Action, c: ConnId) {
    LocalConn(a, c) || Displaces(s, a, c) || (a.Send? && a.c == c)
  }

  lemma MovingTotal(s: State, a: Action, c: ConnId)
    requires Inv(s) && Enabled(s, a) && Disconnecting(s, c) && Moves(s, a, c)
    ensures Total(ConnShares(Apply(s, a).conns, c)) + (if LocalConn(a, c) then 1 else 0)
         <= Total(ConnShares(s.conns, c)) + (if a.Send? then 1 else 0) + if Displaces(s, a, c) then 1 else 0
  {
    ConnKeys(s, a);
    var after := Apply(s, a).conns;
    var less, more := if LocalConn(a, c) then 1 else 0, (if a.Send? then 1 else 0) + if Displaces(s, a, c) then 1 else 0;
    forall d <- s.conns
      ensures ConnShare(after[d], d, c) + (if d == a.c then less else 0)
           <= ConnShare(s.conns[d], d, c) + if d == a.c then more else 0
    {
      ConnShareStep(s, a, c, d);
    }
    ConnTotals(s.conns, after, c, a.c, less, more);
  }

  lemma QuietTotal(s: State, a: Action, c: ConnId)
    requires Inv(s) && Enabled(s, a) && Disconnecting(s, c) && !Moves(s, a, c) && !a.Create?
    ensures Total(ConnShares(Apply(s, a).conns, c)) <= Total(ConnShares(s.conns, c))
  {
    ConnKeys(s, a);
    var after := Apply(s, a).conns;
    forall d <- s.conns ensures ConnShare(after[d], d, c) <= ConnShare(s.conns[d], d, c) {
      ConnShareStep(s, a, c, d);
    }
    ConnTotalsQuiet(s.conns, after, c);
  }

  lemma ConnTotalStep(s: State, a: Action, c: ConnId)
    requires Inv(s) && Enabled(s, a) && Disconnecting(s, c)
    ensures Total(ConnShares(Apply(s, a).conns, c)) + (if LocalConn(a, c) then 1 else 0)
         <= Total(ConnShares(s.conns, c)) + (if a.Send? && a.c == c then 1 else 0) + if Displaces(s, a, c) then 1 else 0
  {
    if a.Create? {
      ConnTotalsCreate(s.conns, c, s.nextConnId);
    } else if Moves(s, a, c) {
      MovingTotal(s, a, c);
    } else {
      QuietTotal(s, a, c);
    }
  }

  lemma ConnKeys(s: State, a: Action)
    requires Enabled(s, a) && !a.Create?
    ensures Apply(s, a).conns.Keys == s.conns.Keys
    ensures (exists c :: LocalConn(a, c)) || a.Register? || a.Send? ==> a.c in s.conns
  {
  }

  lemma DispatchTotals(before: map<RequestId, Dispatch>, after: map<RequestId, Dispatch>, c: ConnId, rid: RequestId, less: nat)
    requires after.Keys == before.Keys && rid in before
    requires forall k <- before ::
      DispatchShare(after[k], c) + (if k == rid then less else 0) <= DispatchShare(before[k], c)
    ensures Total(DispatchShares(after, c)) + less <= Total(DispatchShares(before, c))
  {
    TotalStep(DispatchShares(after, c), DispatchShares(before, c), rid, less, 0);
  }

  lemma DispatchTotalsQuiet(before: map<RequestId, Dispatch>, after: map<RequestId, Dispatch>, c: ConnId)
    requires after.Keys == before.Keys
    requires forall k <- before :: DispatchShare(after[k], c) <= DispatchShare(before[k], c)
    ensures Total(DispatchShares(after, c)) <= Total(DispatchShares(before, c))
  {
    TotalMonotone(DispatchShares(after, c), DispatchShares(before, c));
  }

  lemma DispatchTotalsInsert(dispatches: map<RequestId, Dispatch>, c: ConnId, rid: RequestId, d: Dispatch)
    requires rid !in dispatches
    ensures Total(DispatchShares(dispatches[rid := d], c)) == Total(DispatchShares(dispatches, c)) + DispatchShare(d, c)
  {
    TotalInsert(DispatchShares(dispatches, c), rid, DispatchShare(d, c));
    assert DispatchShares(dispatches[rid := d], c) == DispatchShares(dispatches, c)[rid := DispatchShare(d, c)];
  }

  lemma AdmissionTotal(s: State, q: TunnelRequest, c: ConnId)
    requires Enabled(s, Admit(q))
    ensures Total(DispatchShares(Apply(s, Admit(q)).dispatches, c))
         == Total(DispatchShares(s.dispatches, c)) + if AdmitsTo(s, Admit(q), c) then 4 else 0
  {
    DispatchTotalsInsert(s.dispatches, c, q.requestId, Apply(s, Admit(q)).dispatches[q.requestId]);
  }

  lemma DispatchTotalStep(s: State, a: Action, c: ConnId)
    requires Enabled(s, a)
    ensures Total(DispatchShares(Apply(s, a).dispatches, c))
            + (if LocalDispatch(s, a, c) then if a.Send? then 2 else 1 else 0)
         <= Total(DispatchShares(s.dispatches, c)) + if AdmitsTo(s, a, c) then 4 else 0
  {
    if a.Admit? {
      AdmissionTotal(s, a.request, c);
    } else {
      DispatchKeys(s, a);
      var after := Apply(s, a).dispatches;
      forall rid <- s.dispatches
        ensures DispatchShare(after[rid], c)
                + (if LocalDispatch(s, a, c) && rid == a.rid then if a.Send? then 2 else 1 else 0)
             <= DispatchShare(s.dispatches[rid], c)
      {
        DispatchShareStep(s, a, c, rid);
      }
      if LocalDispatch(s, a, c) {
        DispatchTotals(s.dispatches, after, c, a.rid, if a.Send? then 2 else 1);
      } else {
        DispatchTotalsQuiet(s.dispatches, after, c);
      }
    }
  }

  lemma DispatchKeys(s: State, a: Action)
    requires Enabled(s, a) && !a.Admit?
    ensures Apply(s, a).dispatches.Keys == s.dispatches.Keys
  {
  }

  lemma SendIsLocal(s: State, a: Action, c: ConnId)
    requires Enabled(s, a) && a.Send? && a.c == c
    ensures LocalDispatch(s, a, c) && !LocalConn(a, c)
  {
  }

  /** Every local step uses work on c up. Of all other steps, only the admission of a request
      routed to c adds any. */
  lemma LocalWorkStep(s: State, a: Action, c: ConnId)
    requires Inv(s) && Enabled(s, a) && Disconnecting(s, c)
    ensures c in Apply(s, a).conns
    ensures LocalWork(Apply(s, a), c) + (if Local(s, a, c) then 1 else 0)
         <= LocalWork(s, c) + if AdmitsTo(s, a, c) then 4 else 0
  {
    ConnTotalStep(s, a, c);
    DispatchTotalStep(s, a, c);
    DisplaceableStep(s, a, c);
    if a.Send? && a.c == c {
      SendIsLocal(s, a, c);
    }
  }

  // ---- Whole runs ----

  ghost function LocalSteps(s: State, log: Log, c: ConnId): nat
    requires Run(s, log).Some?
  {
    if log == [] then 0
    else
      var n := |log| - 1;
      LocalSteps(s, log[..n], c) + if Local(Run(s, log[..n]).value, log[n], c) then 1 else 0
  }

  ghost function AdmissionsTo(s: State, log: Log, c: ConnId): nat
    requires Run(s, log).Some?
  {
    if log == [] then 0
    else
      var n := |log| - 1;
      AdmissionsTo(s, log[..n], c) + if AdmitsTo(Run(s, log[..n]).value, log[n], c) then 1 else 0
  }

  /** Whatever everybody else does in between, c's shutdown takes a bounded number of steps. */
  lemma {:induction false} LocalStepsBounded(s: State, log: Log, c: ConnId)
    requires Inv(s) && Disconnecting(s, c) && Run(s, log).Some?
    ensures var t := Run(s, log).value;
      && Inv(t) && Disconnecting(t, c)
      && LocalSteps(s, log, c) + LocalWork(t, c) <= LocalWork(s, c) + 4 * AdmissionsTo(s, log, c)
    decreases |log|
  {
    if log != [] {
      var n := |log| - 1;
      LocalStepsBounded(s, log[..n], c);
      var mid := Run(s, log[..n]).value;
      Preserved(mid, log[n]);
      StaysDisconnecting(mid, log[n], c);
      LocalWorkStep(mid, log[n], c);
    }
  }

  /** run() of c has returned, and so has every dispatch routed to c. */
  ghost predicate Disconnected(s: State, c: ConnId) {
    && c in s.conns && s.conns[c].phase.Returned?
    && forall rid <- s.dispatches :: !s.dispatches[rid].SentOn(c)
  }

  lemma ReturnedIsDisconnected(s: State, c: ConnId)
    requires Inv(s) && c in s.conns && s.conns[c].phase.Returned?
    ensures Disconnected(s, c)
  {
    assert ConnEntry(s, c);
    forall rid <- s.dispatches ensures !s.dispatches[rid].SentOn(c) {
      assert DispatchEntry(s, rid);
    }
  }

  ghost predicate LocalReady(s: State, c: ConnId) {
    exists a :: Local(s, a, c) && Enabled(s, a)
  }

  lemma DisconnectProgress(s: State, c: ConnId)
    requires Inv(s) && Disconnecting(s, c)
    ensures Disconnected(s, c) || LocalReady(s, c)
  {
    if s.conns[c].phase.Returned? {
      ReturnedIsDisconnected(s, c);
    } else {
      var a := RunProgress(s, c);
    }
  }

  /** Every step of the log is local where it is taken. */
  ghost predicate AllLocal(s: State, log: Log, c: ConnId)
    requires Run(s, log).Some?
  {
    LocalSteps(s, log, c) == |log|
  }

  /** c's shutdown needs nobody else: local steps alone complete it. */
  lemma {:induction false} DisconnectCompletes(s: State, c: ConnId) returns (log: Log)
    requires Inv(s) && Disconnecting(s, c)
    ensures Run(s, log).Some? && AllLocal(s, log, c) && |log| <= LocalWork(s, c)
    ensures Disconnected(Run(s, log).value, c)
    decreases LocalWork(s, c)
  {
    if s.conns[c].phase.Returned? {
      ReturnedIsDisconnected(s, c);
      log := [];
    } else {
      var a := RunProgress(s, c);
      LocalWorkStep(s, a, c);
      Preserved(s, a);
      StaysDisconnecting(s, a, c);
      var rest := DisconnectCompletes(Apply(s, a), c);
      RunFrom(s, a, Apply(s, a), rest);
      LocalStepsFrom(s, a, Apply(s, a), rest, c);
      log := [a] + rest;
    }
  }

  lemma {:induction false} RunFrom(s: State, a: Action, t: State, rest: Log)
    requires Enabled(s, a) && t == Apply(s, a) && Run(t, rest).Some?
    ensures Run(s, [a] + rest) == Run(t, rest)
    decreases |rest|
  {
    if rest == [] {
      RunStep(s, [], a);
      assert [a] + rest == [] + [a];
    } else {
      var n := |rest| - 1;
      RunFrom(s, a, t, rest[..n]);
      assert ([a] + rest)[..n + 1] == [a] + rest[..n];
    }
  }

  lemma {:induction false} LocalStepsFrom(s: State, a: Action, t: State, rest: Log, c: ConnId)
    requires Enabled(s, a) && t == Apply(s, a) && Run(t, rest).Some? && Run(s, [a] + rest).Some?
    ensures LocalSteps(s, [a] + rest, c) == LocalSteps(t, rest, c) + if Local(s, a, c) then 1 else 0
    decreases |rest|
  {
    var n := |rest| - 1;
    if rest == [] {
      assert ([a] + rest)[..0] == [];
    } else {
      RunFrom(s, a, t, rest[..n]);
      LocalStepsFrom(s, a, t, rest[..n], c);
      assert ([a] + rest)[..n + 1] == [a] + rest[..n];
    }
  }

  /** Disconnecting one connection. From every reachable state in which c has been closed, with
      any number of other connections open and any interleaving with their steps: the steps that
      concern c are bounded by the work left on it plus four for every request still admitted to
      it, one of them is possible until c's run() and every dispatch routed to c have returned,
      and by themselves they get there. */
  lemma DisconnectEnds(secret: string, history: Log, s: State, c: ConnId)
    requires Reaches(secret, history, s) && Disconnecting(s, c)
    ensures forall log | Run(s, log).Some? ::
              LocalSteps(s, log, c) <= LocalWork(s, c) + 4 * AdmissionsTo(s, log, c)
    ensures forall log | Run(s, log).Some? ::
              Disconnected(Run(s, log).value, c) || LocalReady(Run(s, log).value, c)
    ensures exists log :: Run(s, log).Some? && AllLocal(s, log, c) && Disconnected(Run(s, log).value, c)
  {
    Always(secret, history, s);
    forall log | Run(s, log).Some?
      ensures LocalSteps(s, log, c) <= LocalWork(s, c) + 4 * AdmissionsTo(s, log, c)
      ensures Disconnected(Run(s, log).value, c) || LocalReady(Run(s, log).value, c)
    {
      LocalStepsBounded(s, log, c);
      DisconnectProgress(Run(s, log).value, c);
    }
    var full := DisconnectCompletes(s, c);
  }
}
