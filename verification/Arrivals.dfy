/** A connection's messages are handled in the order in which they came in, and results follow it. */
module Arrivals {
  import opened Wrappers
  import opened Protocol
  import opened Tunnel
  import opened Streams
  import opened History
  import JunkErasure

  /** The messages taken off c's incoming channel, in the order in which they were taken. */
  ghost function Dequeued(log: Log, c: ConnId): seq<Push> {
    if log == [] then []
    else Dequeued(log[..|log| - 1], c) + DequeuedBy(log[|log| - 1], c)
  }

  ghost function DequeuedBy(a: Action, c: ConnId): seq<Push> {
    if (a.AuthReceive? || a.Relay?) && a.c == c then [a.push] else []
  }

  ghost function BroughtBy(a: Action, c: ConnId): seq<Push> {
    if a.Enqueue? && a.c == c then [a.push] else []
  }

  function TextsOf(pushes: seq<Push>): seq<Text> {
    seq(|pushes|, i requires 0 <= i < |pushes| => pushes[i].text)
  }

  // ---- First in, first out ----

  lemma ChannelStep(s: State, a: Action, c: ConnId)
    requires Enabled(s, a) && c in s.conns
    ensures c in Apply(s, a).conns
    ensures DequeuedBy(a, c) + Apply(s, a).conns[c].incoming == s.conns[c].incoming + BroughtBy(a, c)
  {
    if Intake(a, c) {
      IntakeTouched(s, a);
    } else {
      IntakeUntouched(s, a, c);
    }
  }

  lemma ChannelAbsent(s: State, a: Action, c: ConnId)
    requires Enabled(s, a) && c !in s.conns
    ensures DequeuedBy(a, c) == [] && BroughtBy(a, c) == []
    ensures c in Apply(s, a).conns ==> Apply(s, a).conns[c].incoming == []
  {
  }

  lemma FifoStep(arrived: seq<Push>, consumed: seq<Push>, queue: seq<Push>, taken: seq<Push>, brought: seq<Push>, next: seq<Push>)
    requires arrived == consumed + queue && taken + next == queue + brought
    ensures arrived + brought == (consumed + taken) + next
  {
    assert arrived + brought == consumed + (queue + brought) == (consumed + taken) + next;
  }

  /** What came in is what was taken out, in the same order, and then what is still waiting. */
  lemma {:induction false} FirstInFirstOut(secret: string, log: Log, s: State, c: ConnId)
    requires Reaches(secret, log, s)
    ensures Arrived(log, c) == Dequeued(log, c) + if c in s.conns then s.conns[c].incoming else []
    decreases |log|
  {
    if log != [] {
      var n := |log| - 1;
      var mid := Run(Init(secret), log[..n]).value;
      FirstInFirstOut(secret, log[..n], mid, c);
      if c in mid.conns {
        ChannelStep(mid, log[n], c);
        FifoStep(Arrived(log[..n], c), Dequeued(log[..n], c), mid.conns[c].incoming,
                 DequeuedBy(log[n], c), BroughtBy(log[n], c), s.conns[c].incoming);
      } else {
        ChannelAbsent(mid, log[n], c);
      }
    }
  }

  lemma {:induction false} ArrivedGrows(log: Log, c: ConnId, i: nat)
    requires i <= |log|
    ensures Arrived(log[..i], c) <= Arrived(log, c)
    decreases |log|
  {
    if i == |log| {
      assert log[..i] == log;
    } else {
      var n := |log| - 1;
      assert log[..n][..i] == log[..i];
      ArrivedGrows(log[..n], c, i);
    }
  }

  lemma {:induction false} DequeuedGrows(log: Log, c: ConnId, i: nat)
    requires i <= |log|
    ensures Dequeued(log[..i], c) <= Dequeued(log, c)
    decreases |log|
  {
    if i == |log| {
      assert log[..i] == log;
    } else {
      var n := |log| - 1;
      assert log[..n][..i] == log[..i];
      DequeuedGrows(log[..n], c, i);
    }
  }

  /** Message k, not consumed yet before step j, was consumed by a step from j on. */
  lemma {:induction false} DequeuedFrom(log: Log, c: ConnId, j: nat, k: nat) returns (i: nat)
    requires j <= |log| && |Dequeued(log[..j], c)| <= k < |Dequeued(log, c)|
    ensures j <= i < |log| && Consumes(log[i], c, Dequeued(log, c)[k])
    decreases |log|
  {
    assert log[..|log|] == log;
    var n := |log| - 1;
    assert log[..n][..j] == log[..j];
    if k < |Dequeued(log[..n], c)| {
      i := DequeuedFrom(log[..n], c, j, k);
    } else {
      i := n;
    }
  }

  // ---- Results follow the order of arrival ----

  /** Where the messages begin that c had not handled yet when step j was taken. */
  ghost function Unread(log: Log, c: ConnId, j: nat): nat
    requires j <= |log|
  {
    |Dequeued(log[..j], c)|
  }

  /** No message from position m up to, not including, position n answers rid. */
  ghost predicate NoneAnswers(arrived: seq<Push>, rid: RequestId, m: nat, n: nat)
    requires n <= |arrived|
  {
    forall k | m <= k < n :: !Carries(arrived[k].text, rid)
  }

  /** What is consumed between the admission and the step that decides does not answer. */
  lemma UndecidedByThese(secret: string, log: Log, rid: RequestId, c: ConnId, j: nat, i: nat)
    requires Run(Init(secret), log).Some? && j < i <= |log|
    requires log[j].Admit? && Holds(log[..j], log[j].request.service, c) && Undecided(log, rid, c, j, i)
    ensures NoneAnswers(Dequeued(log[..i], c), rid, Unread(log, c, j), |Dequeued(log[..i], c)|)
  {
    var pre := log[..i];
    assert pre[..j] == log[..j];
    forall k | Unread(log, c, j) <= k < |Dequeued(pre, c)| ensures !Carries(Dequeued(pre, c)[k].text, rid) {
      var l := DequeuedFrom(pre, c, j, k);
      assert log[l] == pre[l];
      if l > j {
        AuthIsOver(secret, log, j, l, c);
        assert !Decides(log[l], rid, c);
      }
    }
  }

  lemma PrefixAt(log: Log, c: ConnId, s: State, secret: string, i: nat)
    requires Reaches(secret, log, s) && i <= |log|
    ensures Run(Init(secret), log[..i]).Some?
    ensures Dequeued(log[..i], c) <= Arrived(log[..i], c) <= Arrived(log, c)
  {
    RunPrefix(Init(secret), log, i);
    FirstInFirstOut(secret, log[..i], Run(Init(secret), log[..i]).value, c);
    ArrivedGrows(log, c, i);
  }

  /** The deciding relay step takes the first answer not handled at the admission. */
  lemma AnswerIsFirst(secret: string, log: Log, s: State, rid: RequestId, c: ConnId, j: nat, i: nat) returns (n: nat)
    requires Reaches(secret, log, s) && j < |log| && DecidedAt(log, rid, c, j, i) && Answers(log[i], rid, c)
    requires log[j].Admit? && Holds(log[..j], log[j].request.service, c)
    ensures Unread(log, c, j) <= n < |Arrived(log, c)| && Arrived(log, c)[n] == log[i].push
    ensures NoneAnswers(Arrived(log, c), rid, Unread(log, c, j), n)
  {
    n := |Dequeued(log[..i], c)|;
    DequeuedHasArrived(secret, log, s, c, i);
    UnreadGrows(log, c, j, i);
    UndecidedByThese(secret, log, rid, c, j, i);
    StillNone(Dequeued(log[..i], c), log[i].push, Arrived(log, c), rid, Unread(log, c, j));
  }

  lemma RelayTakes(log: Log, c: ConnId, i: nat)
    requires i < |log| && log[i].Relay? && log[i].c == c
    ensures Dequeued(log[..i + 1], c) == Dequeued(log[..i], c) + [log[i].push]
  {
    assert log[..i + 1][..i] == log[..i];
  }

  lemma DequeuedHasArrived(secret: string, log: Log, s: State, c: ConnId, i: nat)
    requires Reaches(secret, log, s) && i < |log| && log[i].Relay? && log[i].c == c
    ensures Dequeued(log[..i], c) + [log[i].push] <= Arrived(log, c)
  {
    RelayTakes(log, c, i);
    var later := log[..i + 1];
    RunPrefix(Init(secret), log, i + 1);
    FirstInFirstOut(secret, later, Run(Init(secret), later).value, c);
    ArrivedGrows(log, c, i + 1);
    PrefixOfPrefix(Dequeued(later, c), Arrived(later, c), Arrived(log, c));
  }

  lemma PrefixOfPrefix(a: seq<Push>, b: seq<Push>, c: seq<Push>)
    requires a <= b <= c
    ensures a <= c
  {
  }

  lemma UnreadGrows(log: Log, c: ConnId, j: nat, i: nat)
    requires j <= i <= |log|
    ensures Unread(log, c, j) <= |Dequeued(log[..i], c)|
  {
    assert log[..i][..j] == log[..j];
    DequeuedGrows(log[..i], c, j);
  }

  lemma StillNone(taken: seq<Push>, p: Push, arrived: seq<Push>, rid: RequestId, m: nat)
    requires taken + [p] <= arrived && NoneAnswers(taken, rid, m, |taken|)
    ensures |taken| < |arrived| && arrived[|taken|] == p && NoneAnswers(arrived, rid, m, |taken|)
  {
    assert (taken + [p])[|taken|] == p;
    forall k | m <= k < |taken| ensures !Carries(arrived[k].text, rid) {
      assert arrived[k] == (taken + [p])[k] == taken[k];
    }
  }

  lemma {:induction false} NothingArrivesAfterCleanup(secret: string, log: Log, s: State, i: nat)
    requires Reaches(secret, log, s) && i < |log| && log[i].Cleanup?
    ensures Arrived(log, log[i].c) == Arrived(log[..i], log[i].c)
    decreases |log|
  {
    var n := |log| - 1;
    if i < n {
      var mid := Run(Init(secret), log[..n]).value;
      assert log[..n][..i] == log[..i];
      NothingArrivesAfterCleanup(secret, log[..n], mid, i);
      NothingAfterCleanup(secret, log, i, n);
    }
  }

  /** When cleanup decides, no message at all answered, from the admission to the end. */
  lemma CleanupMeansNone(secret: string, log: Log, s: State, rid: RequestId, c: ConnId, j: nat, i: nat)
    requires Reaches(secret, log, s) && j < |log| && DecidedAt(log, rid, c, j, i) && log[i].Cleanup?
    requires log[j].Admit? && Holds(log[..j], log[j].request.service, c)
    ensures NoneAnswers(Arrived(log, c), rid, Unread(log, c, j), |Arrived(log, c)|)
  {
    RunEnabled(Init(secret), log, i);
    var mid := Run(Init(secret), log[..i]).value;
    CleanupFindsEmpty(mid, log[i]);
    FirstInFirstOut(secret, log[..i], mid, c);
    UndecidedByThese(secret, log, rid, c, j, i);
    NothingArrivesAfterCleanup(secret, log, s, i);
  }

  /** Results follow the order in which messages reached the connection. Ok(r): of the messages
      the route had not handled yet at the admission, or that came later, the first that answers
      carries r. Disconnected: none of them answers. */
  lemma ResultsFollowArrivals(secret: string, log: Log, s: State, rid: RequestId) returns (j: nat)
    requires Reaches(secret, log, s) && rid in s.dispatches && s.dispatches[rid].progress.Done?
    ensures AdmittedAt(log, s.dispatches[rid].request, j)
    ensures match s.dispatches[rid].progress.result
      case Ok(r) =>
        && s.dispatches[rid].route.Some?
        && var c := s.dispatches[rid].route.value;
        exists n: nat :: Unread(log, c, j) <= n < |Arrived(log, c)|
                         && ResponseIn(Arrived(log, c)[n].text) == Some(r)
                         && NoneAnswers(Arrived(log, c), rid, Unread(log, c, j), n)
      case Err(Disconnected) =>
        && s.dispatches[rid].route.Some?
        && var c := s.dispatches[rid].route.value;
        NoneAnswers(Arrived(log, c), rid, Unread(log, c, j), |Arrived(log, c)|)
      case _ => true
  {
    j := ResultsTellHistory(secret, log, s, rid);
    var d := s.dispatches[rid];
    match d.progress.result
    case Ok(r) =>
      var c := d.route.value;
      var i: nat :| DecidedAt(log, rid, c, j, i) && Answers(log[i], rid, c) && ResponseIn(log[i].push.text) == Some(r);
      var n := AnswerIsFirst(secret, log, s, rid, c, j, i);
    case Err(Disconnected) =>
      var c := d.route.value;
      var i: nat :| DecidedAt(log, rid, c, j, i) && log[i].Cleanup?;
      CleanupMeansNone(secret, log, s, rid, c, j, i);
    case _ =>
  }

  // ---- Each push call ends at most once ----

  /** The step ends the push call id on c, one way or another. */
  ghost predicate EndsCall(a: Action, c: ConnId, id: CallId) {
    (a.Enqueue? || a.Refuse? || a.Abandon?) && a.c == c && a.push.call == id
  }

  lemma CallOrigin(s: State, a: Action, c: ConnId, id: CallId)
    requires Enabled(s, a) && c in Apply(s, a).conns && id in Apply(s, a).conns[c].calls
    ensures var text := Apply(s, a).conns[c].calls[id];
      a == BeginPush(c, Push(id, text)) || (c in s.conns && id in s.conns[c].calls && s.conns[c].calls[id] == text)
  {
    if c !in s.conns {
      SecretKept(s, a);
    } else if Intake(a, c) {
      IntakeTouched(s, a);
    } else {
      IntakeUntouched(s, a, c);
    }
  }

  /** What is being pushed was begun to be pushed, with the same text. */
  lemma {:induction false} CallBegun(secret: string, log: Log, s: State, c: ConnId, id: CallId)
    requires Reaches(secret, log, s) && c in s.conns && id in s.conns[c].calls
    ensures BeginPush(c, Push(id, s.conns[c].calls[id])) in log
    decreases |log|
  {
    var n := |log| - 1;
    var mid := Run(Init(secret), log[..n]).value;
    CallOrigin(mid, log[n], c, id);
    if log[n] != BeginPush(c, Push(id, s.conns[c].calls[id])) {
      CallBegun(secret, log[..n], mid, c, id);
    }
  }

  /** The call has been used and is not in flight. */
  ghost predicate CallOver(s: State, c: ConnId, id: CallId) {
    c in s.conns && id in s.conns[c].used && id !in s.conns[c].calls
  }

  lemma CallStaysOver(s: State, a: Action, c: ConnId, id: CallId)
    requires Enabled(s, a) && CallOver(s, c, id)
    ensures CallOver(Apply(s, a), c, id)
  {
    if Intake(a, c) {
      IntakeTouched(s, a);
    } else {
      IntakeUntouched(s, a, c);
    }
  }

  lemma CallEndsNow(s: State, a: Action, c: ConnId, id: CallId)
    requires Enabled(s, a) && EndsCall(a, c, id)
    ensures c in s.conns && id in s.conns[c].calls && s.conns[c].calls[id] == a.push.text
    ensures s.conns[c].calls.Keys <= s.conns[c].used ==> CallOver(Apply(s, a), c, id)
  {
    assert Intake(a, c);
    IntakeTouched(s, a);
  }

  lemma {:induction false} EndedIsOver(secret: string, log: Log, s: State, i: nat, c: ConnId, id: CallId)
    requires Reaches(secret, log, s) && i < |log| && EndsCall(log[i], c, id)
    ensures CallOver(s, c, id)
    decreases |log|
  {
    var n := |log| - 1;
    var mid := Run(Init(secret), log[..n]).value;
    if i < n {
      EndedIsOver(secret, log[..n], mid, i, c, id);
      CallStaysOver(mid, log[n], c, id);
    } else {
      CallEndsNow(mid, log[n], c, id);
      JunkErasure.AlwaysOnceEach(secret, log[..n], mid, c);
    }
  }

  /** A push ends once: what was delivered or given up is not delivered again. */
  lemma EndsOnce(secret: string, log: Log, i: nat, j: nat, c: ConnId, id: CallId)
    requires Run(Init(secret), log).Some? && i < j < |log| && EndsCall(log[i], c, id)
    ensures !EndsCall(log[j], c, id)
  {
    RunEnabled(Init(secret), log, j);
    var mid := Run(Init(secret), log[..j]).value;
    EndedIsOver(secret, log[..j], mid, i, c, id);
    if EndsCall(log[j], c, id) {
      CallEndsNow(mid, log[j], c, id);
    }
  }

  /** What ends was begun before, with the same text. */
  lemma EndWasBegun(secret: string, log: Log, i: nat) returns (b: nat)
    requires Run(Init(secret), log).Some? && i < |log| && (log[i].Enqueue? || log[i].Refuse? || log[i].Abandon?)
    ensures b < i && log[b] == BeginPush(log[i].c, log[i].push)
  {
    RunEnabled(Init(secret), log, i);
    var mid := Run(Init(secret), log[..i]).value;
    CallEndsNow(mid, log[i], log[i].c, log[i].push.call);
    CallBegun(secret, log[..i], mid, log[i].c, log[i].push.call);
    b :| 0 <= b < i && log[..i][b] == BeginPush(log[i].c, log[i].push);
  }
}
