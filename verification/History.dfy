/** The state as a function of history: who holds a service, and why each dispatch ended as it did. */
module History {
  import opened Wrappers
  import opened Protocol
  import opened Tunnel
  import opened Invariants

  // ---- Who holds a service ----

  /** The step ends c's hold on the service: a newer registration, or c's own cleanup. */
  ghost predicate EndsHold(a: Action, service: string, c: ConnId) {
    (a.Register? && a.service == service) || (a.Cleanup? && a.c == c)
  }

  /** c registered for the service at step i and nothing has ended that since. */
  ghost predicate HeldSince(log: Log, service: string, c: ConnId, i: nat) {
    && i < |log| && log[i] == Register(c, service)
    && forall j | i < j < |log| :: !EndsHold(log[j], service, c)
  }

  ghost predicate Holds(log: Log, service: string, c: ConnId) {
    exists i: nat :: HeldSince(log, service, c, i)
  }

  lemma HoldsStep(log: Log, a: Action, service: string, c: ConnId)
    ensures Holds(log + [a], service, c)
       <==> a == Register(c, service) || (Holds(log, service, c) && !EndsHold(a, service, c))
  {
    var more := log + [a];
    if Holds(more, service, c) {
      var i: nat :| HeldSince(more, service, c, i);
      if i < |log| {
        assert more[|log|] == a;
        forall j | i < j < |log| ensures !EndsHold(log[j], service, c) {
          assert more[j] == log[j];
        }
        assert HeldSince(log, service, c, i);
      }
    }
    if a == Register(c, service) {
      assert HeldSince(more, service, c, |log|);
    } else if Holds(log, service, c) && !EndsHold(a, service, c) {
      var i: nat :| HeldSince(log, service, c, i);
      assert HeldSince(more, service, c, i);
    }
  }

  ghost predicate HeldBy(s: State, service: string, c: ConnId) {
    service in s.services && s.services[service] == c
  }

  lemma HeldByStep(s: State, a: Action, service: string, c: ConnId)
    requires Enabled(s, a) && (service in s.services ==> ServiceEntry(s, service))
    ensures HeldBy(Apply(s, a), service, c)
       <==> a == Register(c, service) || (HeldBy(s, service, c) && !EndsHold(a, service, c))
  {
    if !a.Register? && !a.Cleanup? {
      ServicesUntouched(s, a);
    }
  }

  /** The services map is exactly this history: c holds the service iff the last registration
      for it was c's and c has not cleaned up since. A stale cleanup removes nothing newer. */
  lemma {:induction false} ServicesTellHistory(secret: string, log: Log, s: State, service: string, c: ConnId)
    requires Reaches(secret, log, s)
    ensures HeldBy(s, service, c) <==> Holds(log, service, c)
    decreases |log|
  {
    if log != [] {
      var n := |log| - 1;
      var mid := Run(Init(secret), log[..n]).value;
      assert log == log[..n] + [log[n]];
      ServicesTellHistory(secret, log[..n], mid, service, c);
      Always(secret, log[..n], mid);
      HoldsStep(log[..n], log[n], service, c);
      assert service in mid.services ==> ServiceEntry(mid, service);
      HeldByStep(mid, log[n], service, c);
    }
  }

  // ---- Once cleaned up, never seen again ----

  ghost predicate Gone(s: State, c: ConnId) {
    c in s.conns && s.conns[c].PastRegistration() && !s.conns[c].Registered()
  }

  lemma GoneStays(s: State, a: Action, c: ConnId)
    requires Enabled(s, a) && Gone(s, c)
    ensures Gone(Apply(s, a), c)
  {
    if !Touches(a, c) {
      Untouched(s, a, c);
    }
  }

  lemma {:induction false} CleanedUpIsGone(secret: string, log: Log, s: State, i: nat)
    requires Reaches(secret, log, s) && i < |log| && log[i].Cleanup?
    ensures Gone(s, log[i].c)
    decreases |log|
  {
    var n := |log| - 1;
    var mid := Run(Init(secret), log[..n]).value;
    if i < n {
      CleanedUpIsGone(secret, log[..n], mid, i);
      GoneStays(mid, log[n], log[i].c);
    }
  }

  /** After a connection's cleanup neither map ever names it again, whatever interleaves. */
  lemma CleanupIsFinal(secret: string, log: Log, s: State, i: nat)
    requires Reaches(secret, log, s) && i < |log| && log[i].Cleanup?
    ensures log[i].c !in s.services.Values && log[i].c !in s.pending.Values
  {
    CleanedUpIsGone(secret, log, s, i);
    Always(secret, log, s);
    forall service <- s.services ensures s.services[service] != log[i].c {
      assert ServiceEntry(s, service);
    }
    forall rid <- s.pending ensures s.pending[rid] != log[i].c {
      assert PendingEntry(s, rid);
    }
  }

  // ---- Replacement closes the loser ----

  /** other registered over c and has not closed it yet; it has not begun to relay either. */
  ghost predicate AboutToClose(s: State, other: ConnId, c: ConnId) {
    other in s.conns && (s.conns[other].phase == Replacing(c) || s.conns[other].phase == Closing(c))
  }

  /** c is registered but no longer holds its service. */
  ghost predicate Superseded(s: State, c: ConnId) {
    && c in s.conns && s.conns[c].Registered() && s.conns[c].service.Some?
    && !HeldBy(s, s.conns[c].service.value, c)
  }

  ghost predicate LosersClosed(s: State) {
    forall c {:trigger Superseded(s, c)} ::
      Superseded(s, c) ==> !s.conns[c].open || exists other :: AboutToClose(s, other, c)
  }

  lemma RegisterSupersedes(s: State, winner: ConnId, service: string, c: ConnId)
    requires Inv(s) && Enabled(s, Register(winner, service)) && Superseded(Apply(s, Register(winner, service)), c)
    ensures c in s.conns && Apply(s, Register(winner, service)).conns[c].open == s.conns[c].open
    ensures Superseded(s, c) || AboutToClose(Apply(s, Register(winner, service)), winner, c)
  {
  }

  lemma CleanupSupersedes(s: State, gone: ConnId, service: string, c: ConnId)
    requires Enabled(s, Cleanup(gone, service)) && Superseded(Apply(s, Cleanup(gone, service)), c)
    ensures Superseded(s, c) && Apply(s, Cleanup(gone, service)).conns[c].open == s.conns[c].open
  {
  }

  lemma OtherSupersedes(s: State, a: Action, c: ConnId)
    requires Inv(s) && Enabled(s, a) && !a.Register? && !a.Cleanup? && Superseded(Apply(s, a), c)
    ensures Superseded(s, c)
    ensures !s.conns[c].open ==> !Apply(s, a).conns[c].open
  {
    ServicesUntouched(s, a);
    if c in s.conns {
      assert ConnEntry(s, c);
      if !Touches(a, c) {
        Untouched(s, a, c);
      }
    }
  }

  lemma SupersededStep(s: State, a: Action, c: ConnId)
    requires Inv(s) && Enabled(s, a) && Superseded(Apply(s, a), c)
    ensures c in s.conns
    ensures Superseded(s, c) || (a.Register? && AboutToClose(Apply(s, a), a.c, c))
    ensures !s.conns[c].open ==> !Apply(s, a).conns[c].open
  {
    if a.Register? {
      RegisterSupersedes(s, a.c, a.service, c);
    } else if a.Cleanup? {
      CleanupSupersedes(s, a.c, a.service, c);
    } else {
      OtherSupersedes(s, a, c);
    }
  }

  lemma AboutToCloseStep(s: State, a: Action, other: ConnId, c: ConnId)
    requires Inv(s) && Enabled(s, a) && AboutToClose(s, other, c) && c in s.conns
    ensures AboutToClose(Apply(s, a), other, c) || (c in Apply(s, a).conns && !Apply(s, a).conns[c].open)
  {
    assert ConnEntry(s, other);
    if !Touches(a, other) {
      Untouched(s, a, other);
    } else if a.Upgrade? {
      UpgradeSucceeds(s, other);
    }
  }

  lemma LosersClosedStep(s: State, a: Action)
    requires Inv(s) && LosersClosed(s) && Enabled(s, a)
    ensures LosersClosed(Apply(s, a))
  {
    var t := Apply(s, a);
    forall c | Superseded(t, c) ensures !t.conns[c].open || exists other :: AboutToClose(t, other, c) {
      SupersededStep(s, a, c);
      if Superseded(s, c) && s.conns[c].open {
        var other :| AboutToClose(s, other, c);
        AboutToCloseStep(s, a, other, c);
      }
    }
  }

  /** In every reachable state a registered connection that no longer holds its service is
      closed already, or the connection that displaced it is about to close it. */
  lemma {:induction false} AlwaysLosersClosed(secret: string, log: Log, s: State)
    requires Reaches(secret, log, s)
    ensures LosersClosed(s)
    decreases |log|
  {
    if log != [] {
      var n := |log| - 1;
      var mid := Run(Init(secret), log[..n]).value;
      AlwaysLosersClosed(secret, log[..n], mid);
      Always(secret, log[..n], mid);
      LosersClosedStep(mid, log[n]);
    }
  }

  // ---- Results are final ----

  /** A dispatch returns at most once and nothing later changes its result, its request or its route. */
  lemma {:induction false} ResultsAreFinal(secret: string, log: Log, s: State, i: nat, rid: RequestId)
    requires Reaches(secret, log, s) && i <= |log|
    requires Run(Init(secret), log[..i]).Some? && rid in Run(Init(secret), log[..i]).value.dispatches
    ensures rid in s.dispatches
    ensures var d, e := Run(Init(secret), log[..i]).value.dispatches[rid], s.dispatches[rid];
      && e.request == d.request && e.route == d.route
      && (d.Settled() ==> e.progress == d.progress)
    decreases |log|
  {
    if i == |log| {
      assert log[..i] == log;
    } else {
      var n := |log| - 1;
      var mid := Run(Init(secret), log[..n]).value;
      assert log[..n][..i] == log[..i];
      ResultsAreFinal(secret, log[..n], mid, i, rid);
      DispatchKept(mid, log[n], rid);
    }
  }

  // ---- Each request is sent at most once ----

  lemma SentMovesOn(s: State, a: Action, rid: RequestId)
    requires Enabled(s, a) && rid in s.dispatches
    ensures rid in Apply(s, a).dispatches
    ensures !s.dispatches[rid].progress.Sending? ==> !Apply(s, a).dispatches[rid].progress.Sending?
    ensures a.Send? && a.rid == rid ==> !Apply(s, a).dispatches[rid].progress.Sending?
  {
    if MovesDispatch(a) {
      OnlyProgressWritten(s, a, rid);
    } else if a.Relay? || a.Cleanup? {
      OnlySlotsWritten(s, a);
    } else {
      DispatchesUntouched(s, a);
    }
  }

  lemma {:induction false} SentIsPastSending(secret: string, log: Log, s: State, i: nat)
    requires Reaches(secret, log, s) && i < |log| && log[i].Send?
    ensures log[i].rid in s.dispatches && !s.dispatches[log[i].rid].progress.Sending?
    decreases |log|
  {
    var n := |log| - 1;
    var mid := Run(Init(secret), log[..n]).value;
    if i < n {
      SentIsPastSending(secret, log[..n], mid, i);
    }
    SentMovesOn(mid, log[n], log[i].rid);
  }

  /** No request is put on any outgoing channel twice. */
  lemma SendsAreUnique(secret: string, log: Log, i: nat, j: nat)
    requires Run(Init(secret), log).Some? && i < j < |log| && log[i].Send? && log[j].Send?
    ensures log[i].rid != log[j].rid
  {
    RunEnabled(Init(secret), log, j);
    SentIsPastSending(secret, log[..j], Run(Init(secret), log[..j]).value, i);
  }

  // ---- What decided a dispatch ----

  /** The text is a response to rid. */
  ghost predicate Carries(text: Text, rid: RequestId) {
    ResponseIn(text).Some? && ResponseIn(text).value.requestId == rid
  }

  /** The step relays, on c, a response to rid. */
  ghost predicate Answers(a: Action, rid: RequestId, c: ConnId) {
    a.Relay? && a.c == c && Carries(a.push.text, rid)
  }

  /** The step takes rid's entry out of `pending` from c's side. */
  ghost predicate Decides(a: Action, rid: RequestId, c: ConnId) {
    Answers(a, rid, c) || (a.Cleanup? && a.c == c)
  }

  ghost predicate Undecided(log: Log, rid: RequestId, c: ConnId, from: nat, to: nat)
    requires to <= |log|
  {
    forall k | from < k < to :: !Decides(log[k], rid, c)
  }

  /** Step i is the first after the admission at step j that decides rid. */
  ghost predicate DecidedAt(log: Log, rid: RequestId, c: ConnId, j: nat, i: nat) {
    j < i < |log| && Decides(log[i], rid, c) && Undecided(log, rid, c, j, i)
  }

  ghost predicate AdmittedAt(log: Log, q: TunnelRequest, j: nat) {
    j < |log| && log[j] == Admit(q)
  }

  /** Why the dispatch's slot is what it is: a function of the log alone. */
  ghost predicate Explained(log: Log, rid: RequestId, d: Dispatch, j: nat) {
    && AdmittedAt(log, d.request, j) && d.request.requestId == rid
    && match d.route
       case None => forall c :: !Holds(log[..j], d.request.service, c)
       case Some(c) =>
         && Holds(log[..j], d.request.service, c)
         && SlotExplained(log, rid, d, c, j)
  }

  lemma SlotWritten(s: State, a: Action, rid: RequestId, c: ConnId)
    requires Enabled(s, a) && (a.Relay? || a.Cleanup?)
    requires rid in s.dispatches && (rid in s.pending ==> s.pending[rid] == c)
    ensures rid in Apply(s, a).dispatches
    ensures Apply(s, a).dispatches[rid].slot ==
      if rid in s.pending && Answers(a, rid, c) then Full(ResponseIn(a.push.text).value)
      else if rid in s.pending && a.Cleanup? && a.c == c then Dropped
      else s.dispatches[rid].slot
  {
  }

  lemma SlotStep(s: State, a: Action, rid: RequestId, c: ConnId)
    requires Inv(s) && Enabled(s, a) && rid in s.dispatches && s.dispatches[rid].route == Some(c)
    ensures rid in Apply(s, a).dispatches
    ensures Apply(s, a).dispatches[rid].slot ==
      if rid in s.pending && Answers(a, rid, c) then Full(ResponseIn(a.push.text).value)
      else if rid in s.pending && a.Cleanup? && a.c == c then Dropped
      else s.dispatches[rid].slot
  {
    if MovesDispatch(a) {
      OnlyProgressWritten(s, a, rid);
    } else if a.Relay? || a.Cleanup? {
      assert rid in s.pending ==> PendingEntry(s, rid);
      SlotWritten(s, a, rid, c);
    } else {
      DispatchesUntouched(s, a);
    }
  }

  lemma PendingIffOpen(s: State, rid: RequestId)
    requires Inv(s) && rid in s.dispatches
    ensures s.dispatches[rid].slot.Empty? && !s.dispatches[rid].progress.Done? ==> rid in s.pending
    ensures rid in s.pending ==> s.dispatches[rid].slot.Empty? && !s.dispatches[rid].progress.Done?
  {
    assert DispatchEntry(s, rid);
    assert rid in s.pending ==> PendingEntry(s, rid);
  }

  lemma DecidedAtExtends(log: Log, a: Action, rid: RequestId, c: ConnId, j: nat, i: nat)
    requires DecidedAt(log, rid, c, j, i)
    ensures DecidedAt(log + [a], rid, c, j, i) && (log + [a])[i] == log[i]
  {
  }

  lemma DecidesNow(log: Log, a: Action, rid: RequestId, c: ConnId, j: nat)
    requires j < |log| && Undecided(log, rid, c, j, |log|)
    ensures Decides(a, rid, c) ==> DecidedAt(log + [a], rid, c, j, |log|) && (log + [a])[|log|] == a
    ensures !Decides(a, rid, c) ==> Undecided(log + [a], rid, c, j, |log| + 1)
  {
  }

  /** The slot's explanation, for the route c and the admission at j. */
  ghost predicate SlotExplained(log: Log, rid: RequestId, d: Dispatch, c: ConnId, j: nat) {
    match d.slot
    case Empty => d.progress.Done? || Undecided(log, rid, c, j, |log|)
    case Full(r) => exists i: nat :: DecidedAt(log, rid, c, j, i) && Answers(log[i], rid, c)
                                     && ResponseIn(log[i].push.text) == Some(r)
    case Dropped => exists i: nat :: DecidedAt(log, rid, c, j, i) && log[i].Cleanup?
  }

  /** The explanation extends by a step that leaves the slot or decides it. */
  lemma SlotExplainedStep(log: Log, a: Action, rid: RequestId, d: Dispatch, e: Dispatch, c: ConnId, j: nat)
    requires j < |log| && SlotExplained(log, rid, d, c, j) && (d.progress.Done? ==> e.progress.Done?)
    requires e.slot ==
      if d.slot.Empty? && !d.progress.Done? && Answers(a, rid, c) then Full(ResponseIn(a.push.text).value)
      else if d.slot.Empty? && !d.progress.Done? && a.Cleanup? && a.c == c then Dropped
      else d.slot
    ensures SlotExplained(log + [a], rid, e, c, j)
  {
    match d.slot
    case Empty =>
      if !d.progress.Done? {
        DecidesNow(log, a, rid, c, j);
      }
    case Full(r) =>
      var i: nat :| DecidedAt(log, rid, c, j, i) && Answers(log[i], rid, c) && ResponseIn(log[i].push.text) == Some(r);
      DecidedAtExtends(log, a, rid, c, j, i);
    case Dropped =>
      var i: nat :| DecidedAt(log, rid, c, j, i) && log[i].Cleanup?;
      DecidedAtExtends(log, a, rid, c, j, i);
  }

  lemma ExplainedStep(log: Log, s: State, a: Action, rid: RequestId, j: nat)
    requires Inv(s) && Enabled(s, a) && rid in s.dispatches && Explained(log, rid, s.dispatches[rid], j)
    ensures rid in Apply(s, a).dispatches && Explained(log + [a], rid, Apply(s, a).dispatches[rid], j)
  {
    var d := s.dispatches[rid];
    DispatchKept(s, a, rid);
    assert (log + [a])[..j] == log[..j];
    if d.route.Some? {
      SlotStep(s, a, rid, d.route.value);
      PendingIffOpen(s, rid);
      SlotExplainedStep(log, a, rid, d, Apply(s, a).dispatches[rid], d.route.value, j);
    }
  }

  lemma ExplainedAtAdmission(secret: string, log: Log, s: State, q: TunnelRequest)
    requires Reaches(secret, log, s) && Enabled(s, Admit(q))
    ensures var t := Apply(s, Admit(q));
            q.requestId in t.dispatches && Explained(log + [Admit(q)], q.requestId, t.dispatches[q.requestId], |log|)
  {
    assert (log + [Admit(q)])[..|log|] == log;
    forall c {
      ServicesTellHistory(secret, log, s, q.service, c);
    }
  }

  lemma NewDispatch(s: State, a: Action, rid: RequestId)
    requires Enabled(s, a) && rid !in s.dispatches && rid in Apply(s, a).dispatches
    ensures a.Admit? && a.request.requestId == rid
  {
  }

  /** Every dispatch's state is explained by the log, from its one admission on. */
  lemma {:induction false} DispatchesTellHistory(secret: string, log: Log, s: State, rid: RequestId) returns (j: nat)
    requires Reaches(secret, log, s) && rid in s.dispatches
    ensures Explained(log, rid, s.dispatches[rid], j)
    decreases |log|
  {
    var n := |log| - 1;
    var pre, a := log[..n], log[n];
    var mid := Run(Init(secret), pre).value;
    assert log == pre + [a];
    if rid in mid.dispatches {
      j := DispatchesTellHistory(secret, pre, mid, rid);
      Always(secret, pre, mid);
      ExplainedStep(pre, mid, a, rid, j);
    } else {
      NewDispatch(mid, a, rid);
      ExplainedAtAdmission(secret, pre, mid, a.request);
      j := n;
    }
  }

  /** What each result says about the past. Ok(r): r is the first matching response the routed
      connection relayed after the admission, and that connection had not cleaned up before.
      Disconnected: its cleanup came before any matching response. NotConnected: at the
      admission nobody held the service. */
  lemma ResultsTellHistory(secret: string, log: Log, s: State, rid: RequestId) returns (j: nat)
    requires Reaches(secret, log, s) && rid in s.dispatches && s.dispatches[rid].progress.Done?
    ensures var d := s.dispatches[rid];
      && AdmittedAt(log, d.request, j)
      && match d.progress.result
         case Ok(r) =>
           && d.route.Some? && Holds(log[..j], d.request.service, d.route.value)
           && exists i: nat :: DecidedAt(log, rid, d.route.value, j, i) && Answers(log[i], rid, d.route.value)
                               && ResponseIn(log[i].push.text) == Some(r)
         case Err(NotConnected) => forall c :: !Holds(log[..j], d.request.service, c)
         case Err(Disconnected) =>
           && d.route.Some? && Holds(log[..j], d.request.service, d.route.value)
           && exists i: nat :: DecidedAt(log, rid, d.route.value, j, i) && log[i].Cleanup?
         case Err(Timeout) => d.route.Some? && Holds(log[..j], d.request.service, d.route.value)
         case Err(ConnectionLost) => false
  {
    j := DispatchesTellHistory(secret, log, s, rid);
    Always(secret, log, s);
    assert DispatchEntry(s, rid);
  }

  /** c's cleanup is among the steps taken. */
  ghost predicate CleanupIn(log: Log, c: ConnId) {
    exists i: nat :: i < |log| && log[i].Cleanup? && log[i].c == c
  }

  /** No lost wake-up: a dispatch that sends or waits is pending on its live route, or answered
      under its own id, or was dropped by its route's cleanup, and never two of these. */
  lemma NoLostWakeUp(secret: string, log: Log, s: State, rid: RequestId)
    requires Reaches(secret, log, s) && rid in s.dispatches
    requires s.dispatches[rid].progress.Sending? || s.dispatches[rid].progress.Waiting?
    ensures var d := s.dispatches[rid];
      && d.route.Some? && d.route.value in s.conns
      && match d.slot
         case Empty =>
           s.Owns(rid, d.route.value) && s.conns[d.route.value].Registered() && !CleanupIn(log, d.route.value)
         case Full(r) => rid !in s.pending && r.requestId == rid
         case Dropped => rid !in s.pending && CleanupIn(log, d.route.value)
  {
    Always(secret, log, s);
    assert DispatchEntry(s, rid);
    var c := s.dispatches[rid].route.value;
    var j := DispatchesTellHistory(secret, log, s, rid);
    if rid in s.pending {
      assert PendingEntry(s, rid);
      forall i: nat | i < |log| && log[i].Cleanup? ensures log[i].c != c {
        CleanedUpIsGone(secret, log, s, i);
      }
    }
  }

  // ---- No answer is lost ----

  lemma PastStays(s: State, a: Action, c: ConnId)
    requires Inv(s) && Enabled(s, a) && c in s.conns && s.conns[c].PastRegistration()
    ensures c in Apply(s, a).conns && Apply(s, a).conns[c].PastRegistration()
  {
    assert ConnEntry(s, c);
    if !Touches(a, c) {
      Untouched(s, a, c);
    }
  }

  /** Who holds a service at an admission has registered, then and ever after. */
  lemma {:induction false} RouteIsPast(secret: string, log: Log, s: State, j: nat, c: ConnId)
    requires Reaches(secret, log, s) && j < |log| && log[j].Admit? && Holds(log[..j], log[j].request.service, c)
    ensures c in s.conns && s.conns[c].PastRegistration()
    decreases |log|
  {
    var n := |log| - 1;
    var mid := Run(Init(secret), log[..n]).value;
    Always(secret, log[..n], mid);
    if j < n {
      assert log[..n][..j] == log[..j];
      RouteIsPast(secret, log[..n], mid, j, c);
    } else {
      var service := log[j].request.service;
      ServicesTellHistory(secret, log[..n], mid, service, c);
      assert ServiceEntry(mid, service);
    }
    PastStays(mid, log[n], c);
  }

  lemma EndedStays(s: State, a: Action, c: ConnId)
    requires Enabled(s, a) && c in s.conns && s.conns[c].IncomingEnded()
    ensures c in Apply(s, a).conns && Apply(s, a).conns[c].IncomingEnded()
  {
    ClosedStaysClosed(s, a, c);
    if Intake(a, c) {
      IntakeTouched(s, a);
    } else {
      IntakeUntouched(s, a, c);
    }
  }

  lemma {:induction false} CleanedUpHasEnded(secret: string, log: Log, s: State, i: nat)
    requires Reaches(secret, log, s) && i < |log| && log[i].Cleanup?
    ensures log[i].c in s.conns && s.conns[log[i].c].IncomingEnded()
    decreases |log|
  {
    var n := |log| - 1;
    var mid := Run(Init(secret), log[..n]).value;
    if i < n {
      CleanedUpHasEnded(secret, log[..n], mid, i);
    }
    EndedStays(mid, log[n], log[i].c);
  }

  /** The step takes p off c's incoming channel. */
  ghost predicate Consumes(a: Action, c: ConnId, p: Push) {
    a == Relay(c, p) || a == AuthReceive(c, p)
  }

  lemma ConsumedStep(s: State, a: Action, c: ConnId, p: Push)
    requires Enabled(s, a) && c in s.conns && p in s.conns[c].incoming
    ensures c in Apply(s, a).conns && (p in Apply(s, a).conns[c].incoming || Consumes(a, c, p))
  {
    if Intake(a, c) {
      IntakeTouched(s, a);
    } else {
      IntakeUntouched(s, a, c);
    }
  }

  /** What is enqueued on a connection stays in the channel until it is consumed. */
  lemma {:induction false} EnqueuedIsConsumed(secret: string, log: Log, s: State, k: nat)
    requires Reaches(secret, log, s) && k < |log| && log[k].Enqueue?
    ensures log[k].c in s.conns
    ensures log[k].push in s.conns[log[k].c].incoming
         || exists i :: k < i < |log| && Consumes(log[i], log[k].c, log[k].push)
    decreases |log|
  {
    var n := |log| - 1;
    var mid := Run(Init(secret), log[..n]).value;
    var c, p := log[k].c, log[k].push;
    if k < n {
      EnqueuedIsConsumed(secret, log[..n], mid, k);
      if p in mid.conns[c].incoming {
        ConsumedStep(mid, log[n], c, p);
      } else {
        var i :| k < i < n && Consumes(log[..n][i], c, p);
        assert Consumes(log[i], c, p);
        KeepsConns(mid, log[n]);
      }
    }
  }

  lemma KeepsConns(s: State, a: Action)
    requires Enabled(s, a)
    ensures s.conns.Keys <= Apply(s, a).conns.Keys
  {
  }

  /** A connection that was somebody's route does not authenticate any more. */
  lemma AuthIsOver(secret: string, log: Log, j: nat, m: nat, c: ConnId)
    requires Run(Init(secret), log).Some? && j < m < |log|
    requires log[j].Admit? && Holds(log[..j], log[j].request.service, c)
    ensures !(log[m].AuthReceive? && log[m].c == c)
  {
    RunEnabled(Init(secret), log, m);
    assert log[..m][..j] == log[..j];
    RouteIsPast(secret, log[..m], Run(Init(secret), log[..m]).value, j, c);
  }

  lemma CleanupFindsEmpty(s: State, a: Action)
    requires Enabled(s, a) && a.Cleanup?
    ensures a.c in s.conns && s.conns[a.c].incoming == []
  {
  }

  /** An answer enqueued after the admission and before the cleanup has been relayed by then. */
  lemma EnqueuedIsRelayed(secret: string, log: Log, rid: RequestId, c: ConnId, j: nat, k: nat, i: nat)
    requires Run(Init(secret), log).Some? && j < k < i < |log|
    requires log[j].Admit? && Holds(log[..j], log[j].request.service, c)
    requires log[i].Cleanup? && log[i].c == c
    requires log[k].Enqueue? && log[k].c == c && Carries(log[k].push.text, rid)
    ensures exists m :: k < m < i && Answers(log[m], rid, c)
  {
    var pre := log[..i];
    RunEnabled(Init(secret), log, i);
    CleanupFindsEmpty(Run(Init(secret), pre).value, log[i]);
    EnqueuedIsConsumed(secret, pre, Run(Init(secret), pre).value, k);
    var m :| k < m < |pre| && Consumes(pre[m], c, log[k].push);
    AuthIsOver(secret, log, j, m, c);
    assert Answers(log[m], rid, c);
  }

  lemma NothingAfterCleanup(secret: string, log: Log, i: nat, k: nat)
    requires Run(Init(secret), log).Some? && i < k < |log| && log[i].Cleanup?
    ensures !(log[k].Enqueue? && log[k].c == log[i].c)
  {
    RunEnabled(Init(secret), log, k);
    CleanedUpHasEnded(secret, log[..k], Run(Init(secret), log[..k]).value, i);
  }

  /** No accepted answer is lost: a dispatch that is told its client disconnected was not sent
      any answer. From its admission on nothing that answers it ever entered the incoming channel
      of its connection, since cleanup waits until that channel is empty and nobody can push. */
  lemma NoAnswerLost(secret: string, log: Log, s: State, rid: RequestId) returns (j: nat)
    requires Reaches(secret, log, s) && rid in s.dispatches && s.dispatches[rid].progress == Done(Err(Disconnected))
    ensures AdmittedAt(log, s.dispatches[rid].request, j) && s.dispatches[rid].route.Some?
    ensures forall k | j < k < |log| && log[k].Enqueue? && log[k].c == s.dispatches[rid].route.value ::
              !Carries(log[k].push.text, rid)
  {
    Always(secret, log, s);
    assert DispatchEntry(s, rid);
    j := DispatchesTellHistory(secret, log, s, rid);
    var c := s.dispatches[rid].route.value;
    var i: nat :| DecidedAt(log, rid, c, j, i) && log[i].Cleanup?;
    forall k | j < k < |log| && log[k].Enqueue? && log[k].c == c ensures !Carries(log[k].push.text, rid) {
      if k > i {
        NothingAfterCleanup(secret, log, i, k);
      } else if Carries(log[k].push.text, rid) {
        EnqueuedIsRelayed(secret, log, rid, c, j, k, i);
      }
    }
  }

  lemma {:induction false} AdmittedStays(secret: string, log: Log, s: State, i: nat)
    requires Reaches(secret, log, s) && i < |log| && log[i].Admit?
    ensures log[i].request.requestId in s.dispatches
    decreases |log|
  {
    var n := |log| - 1;
    var mid := Run(Init(secret), log[..n]).value;
    if i < n {
      AdmittedStays(secret, log[..n], mid, i);
      DispatchKept(mid, log[n], log[i].request.requestId);
    }
  }

  /** A request id is admitted once, so "the admission" of a dispatch is one step of the log. */
  lemma AdmittedOnce(secret: string, log: Log, i: nat, j: nat)
    requires Run(Init(secret), log).Some? && i < j < |log| && log[i].Admit? && log[j].Admit?
    ensures log[i].request.requestId != log[j].request.requestId
  {
    RunEnabled(Init(secret), log, j);
    AdmittedStays(secret, log[..j], Run(Init(secret), log[..j]).value, i);
  }

  ghost predicate TimedOut(d: Dispatch) {
    d.progress == Failing(Timeout) || d.progress == Done(Err(Timeout))
  }

  lemma TimedOutStep(s: State, a: Action, rid: RequestId)
    requires Enabled(s, a) && rid in Apply(s, a).dispatches && TimedOut(Apply(s, a).dispatches[rid])
    ensures a == TimeOut(rid) || (rid in s.dispatches && TimedOut(s.dispatches[rid]))
  {
    if rid !in s.dispatches {
      NewDispatch(s, a, rid);
    } else if MovesDispatch(a) {
      OnlyProgressWritten(s, a, rid);
    } else if a.Relay? || a.Cleanup? {
      OnlySlotsWritten(s, a);
    } else {
      DispatchesUntouched(s, a);
    }
  }

  /** Timeout is only reported when the clock ran out on this very dispatch. */
  lemma {:induction false} TimeoutTellsHistory(secret: string, log: Log, s: State, rid: RequestId)
    requires Reaches(secret, log, s) && rid in s.dispatches && TimedOut(s.dispatches[rid])
    ensures TimeOut(rid) in log
    decreases |log|
  {
    var n := |log| - 1;
    var mid := Run(Init(secret), log[..n]).value;
    TimedOutStep(mid, log[n], rid);
    if log[n] != TimeOut(rid) {
      TimeoutTellsHistory(secret, log[..n], mid, rid);
    }
  }

  // ---- After close() ----

  function Relays(log: Log, c: ConnId): nat {
    if log == [] then 0
    else
      var a := log[|log| - 1];
      Relays(log[..|log| - 1], c) + if a.Relay? && a.c == c then 1 else 0
  }

  /** What can still reach the relay loop of a closed connection. */
  ghost function Backlog(x: Conn): nat {
    |x.incoming| + |x.calls|
  }

  lemma ClosedStaysClosed(s: State, a: Action, c: ConnId)
    requires Enabled(s, a) && c in s.conns && !s.conns[c].open
    ensures c in Apply(s, a).conns && !Apply(s, a).conns[c].open
  {
    if !Touches(a, c) {
      Untouched(s, a, c);
    }
  }

  lemma BacklogStep(s: State, a: Action, c: ConnId)
    requires Enabled(s, a) && c in s.conns && !s.conns[c].open
    ensures c in Apply(s, a).conns
    ensures Backlog(Apply(s, a).conns[c]) + (if a.Relay? && a.c == c then 1 else 0) <= Backlog(s.conns[c])
  {
    if !Intake(a, c) {
      IntakeUntouched(s, a, c);
    } else {
      IntakeTouched(s, a);
      if a.Enqueue? || a.Refuse? || a.Abandon? {
        CallEnds(s.conns[c], a.push);
      }
    }
  }

  lemma CallEnds(x: Conn, p: Push)
    requires x.HasCall(p)
    ensures |x.EndPush(p).calls| == |x.calls| - 1
  {
    assert x.calls.Keys == x.EndPush(p).calls.Keys + {p.call};
    assert |x.calls.Keys| == |x.EndPush(p).calls.Keys| + 1;
  }

  /** After close() the relay loop runs at most once for every buffered message and every push
      that had already cloned the sender, whatever else happens. */
  lemma {:induction false} RelaysAfterClose(s: State, log: Log, c: ConnId)
    requires c in s.conns && !s.conns[c].open && Run(s, log).Some?
    ensures c in Run(s, log).value.conns && !Run(s, log).value.conns[c].open
    ensures Relays(log, c) + Backlog(Run(s, log).value.conns[c]) <= Backlog(s.conns[c])
    decreases |log|
  {
    if log != [] {
      var n := |log| - 1;
      RelaysAfterClose(s, log[..n], c);
      ClosedStaysClosed(Run(s, log[..n]).value, log[n], c);
      BacklogStep(Run(s, log[..n]).value, log[n], c);
    }
  }
}
