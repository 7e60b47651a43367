/** What those who wait can always do, and what they meet: a caller in dispatch, the first-message
    timer, a push into a full channel. */
module Callers {
  import opened Wrappers
  import opened Protocol
  import opened Tunnel
  import opened Invariants

  lemma TwoSteps(s: State, a: Action, b: Action)
    requires Enabled(s, a) && Enabled(Apply(s, a), b)
    ensures Run(s, [a, b]) == Some(Apply(Apply(s, a), b))
  {
    RunStep(s, [], a);
    RunStep(s, [a], b);
    assert [] + [a] == [a] && [a] + [b] == [a, b];
  }

  /** s with one dispatch moved on, and its entry removed when it failed. */
  ghost predicate Settles(s: State, rid: RequestId, progress: Progress, t: State)
    requires rid in s.dispatches
  {
    && t.secret == s.secret && t.nextConnId == s.nextConnId && t.services == s.services && t.conns == s.conns
    && t.dispatches == s.dispatches[rid := s.dispatches[rid].(progress := progress)]
    && t.pending == if progress.Done? && progress.result.Err? then s.pending - {rid} else s.pending
  }

  /** A failed dispatch removes its entry and tells its caller why. */
  lemma FailureTold(s: State, rid: RequestId, error: TunnelError)
    requires rid in s.dispatches && s.dispatches[rid].progress == Failing(error)
    ensures Enabled(s, Fail(rid)) && Settles(s, rid, Done(Err(error)), Apply(s, Fail(rid)))
  {
  }

  lemma SettlesBehind(s: State, rid: RequestId, before: Progress, progress: Progress, t: State)
    requires rid in s.dispatches && Settles(s.WithProgress(rid, before), rid, progress, t)
    ensures Settles(s, rid, progress, t)
  {
  }

  /** A dispatch's clock can run out while it waits for room or for the answer, and only then. The
      caller is told so, its entry is removed, and nothing else changes. */
  lemma TimeoutEnds(s: State, rid: RequestId)
    requires rid in s.dispatches
    ensures Enabled(s, TimeOut(rid)) <==> s.dispatches[rid].progress == Sending || s.dispatches[rid].progress == Waiting
    ensures Enabled(s, TimeOut(rid)) ==>
      Run(s, [TimeOut(rid), Fail(rid)]).Some?
      && Settles(s, rid, Done(Err(Timeout)), Run(s, [TimeOut(rid), Fail(rid)]).value)
  {
    if Enabled(s, TimeOut(rid)) {
      var mid := s.WithProgress(rid, Failing(Timeout));
      FailureTold(mid, rid, Timeout);
      TwoSteps(s, TimeOut(rid), Fail(rid));
      SettlesBehind(s, rid, Failing(Timeout), Done(Err(Timeout)), Apply(mid, Fail(rid)));
    }
  }

  /** A waiting dispatch wakes up exactly when its reply channel is filled or dropped. Filled, it
      returns the response. */
  lemma AnswerTaken(s: State, rid: RequestId)
    requires rid in s.dispatches && s.dispatches[rid].progress == Waiting
    ensures Enabled(s, Receive(rid)) <==> s.dispatches[rid].slot != Empty
    ensures forall r | s.dispatches[rid].slot == Full(r) :: Settles(s, rid, Done(Ok(r)), Apply(s, Receive(rid)))
  {
  }

  /** Dropped, it reports that the client is gone. */
  lemma LossNoticed(s: State, rid: RequestId)
    requires rid in s.dispatches && s.dispatches[rid].progress == Waiting && s.dispatches[rid].slot == Dropped
    ensures Run(s, [Receive(rid), Fail(rid)]).Some?
    ensures Settles(s, rid, Done(Err(Disconnected)), Run(s, [Receive(rid), Fail(rid)]).value)
  {
    var mid := s.WithProgress(rid, Failing(Disconnected));
    FailureTold(mid, rid, Disconnected);
    TwoSteps(s, Receive(rid), Fail(rid));
    SettlesBehind(s, rid, Failing(Disconnected), Done(Err(Disconnected)), Apply(mid, Fail(rid)));
  }

  /** A caller can leave until it has its result; its entry stays behind for the cleanup. */
  lemma CallerLeaves(s: State, rid: RequestId)
    requires rid in s.dispatches
    ensures Enabled(s, Cancel(rid)) <==> !s.dispatches[rid].progress.Done? && s.dispatches[rid].progress != Cancelled
    ensures Enabled(s, Cancel(rid)) ==> Settles(s, rid, Cancelled, Apply(s, Cancel(rid)))
  {
  }

  /** A request waits for room in its connection's channel and for nothing else. */
  lemma SendWaitsForRoom(secret: string, log: Log, s: State, rid: RequestId, c: ConnId, text: Text)
    requires Reaches(secret, log, s)
    requires rid in s.dispatches && s.dispatches[rid].progress == Sending && s.dispatches[rid].route == Some(c)
    ensures c in s.conns
    ensures Enabled(s, Send(rid, c, text)) <==> |s.conns[c].outgoing| < 64 && text == RequestText(s.dispatches[rid].request)
  {
    Always(secret, log, s);
    assert DispatchEntry(s, rid);
  }

  /** What is sent then is the request, field by field; the dispatch waits for the answer. */
  lemma RequestGoesOut(s: State, rid: RequestId, c: ConnId, text: Text)
    requires rid in s.dispatches && s.dispatches[rid].request.msgType == "request" && Enabled(s, Send(rid, c, text))
    ensures IsRequest(text, s.dispatches[rid].request)
    ensures var t := Apply(s, Send(rid, c, text));
      && t.services == s.services && t.pending == s.pending
      && t.conns == s.conns[c := s.conns[c].(outgoing := s.conns[c].outgoing + [text])]
      && t.dispatches == s.dispatches[rid := s.dispatches[rid].(progress := Waiting)]
  {
    WrittenOnWire(Request(s.dispatches[rid].request));
  }

  /** A push that has a sender waits for room and for nothing else, as long as run() goes on; it can
      always be dropped. */
  lemma PushWaitsForRoom(s: State, c: ConnId, p: Push)
    requires c in s.conns && s.conns[c].HasCall(p)
    ensures Enabled(s, Enqueue(c, p)) <==> s.conns[c].phase != Returned && |s.conns[c].incoming| < 64
    ensures Enabled(s, Refuse(c, p)) <==> s.conns[c].phase == Returned
    ensures Enabled(s, Abandon(c, p))
    ensures Enabled(s, Enqueue(c, p)) ==>
      Apply(s, Enqueue(c, p)).conns[c]
      == s.conns[c].(incoming := s.conns[c].incoming + [p], calls := s.conns[c].calls - {p.call})
    ensures Apply(s, Abandon(c, p)).conns[c] == s.conns[c].(calls := s.conns[c].calls - {p.call})
  {
  }

  /** While a connection waits for its first message its answer always has room: the timer can run
      out at any moment, a message is taken as soon as it is there, and an ended channel is noticed. */
  lemma FirstMessageAwaited(secret: string, log: Log, s: State, c: ConnId)
    requires Reaches(secret, log, s) && c in s.conns
    ensures Enabled(s, AuthTimeOut(c)) <==> s.conns[c].phase == Authenticating
    ensures forall p :: Enabled(s, AuthReceive(c, p)) <==>
      s.conns[c].phase == Authenticating && s.conns[c].incoming != [] && s.conns[c].incoming[0] == p
    ensures Enabled(s, AuthEnd(c)) <==>
      s.conns[c].phase == Authenticating && !s.conns[c].open && s.conns[c].calls == map[] && s.conns[c].incoming == []
  {
    Always(secret, log, s);
    assert ConnEntry(s, c);
  }
}
