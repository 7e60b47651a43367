/** From the client's WebSocket to the server: what an adapter does with each text, however often
    its pushes are interrupted and made again. */
module Pushing {
  import opened Wrappers
  import opened Protocol
  import opened Tunnel
  import opened Streams
  import opened History
  import opened Arrivals
  import opened EndToEnd
  import opened NetHistory

  // ---- Counting the texts that answer one request ----

  ghost function Carriers(texts: seq<Text>, rid: RequestId): nat {
    if texts == [] then 0
    else Carriers(texts[..|texts| - 1], rid) + One(texts[|texts| - 1], rid)
  }

  ghost function One(text: Text, rid: RequestId): nat {
    if Carries(text, rid) then 1 else 0
  }

  lemma {:induction false} CarriersAppend(a: seq<Text>, b: seq<Text>, rid: RequestId)
    ensures Carriers(a + b, rid) == Carriers(a, rid) + Carriers(b, rid)
    decreases |b|
  {
    if b == [] {
      assert a + b == a;
    } else {
      var n := |b| - 1;
      assert (a + b)[..|a| + n] == a + b[..n];
      CarriersAppend(a, b[..n], rid);
    }
  }

  lemma CarriersOne(text: Text, rid: RequestId)
    ensures Carriers([text], rid) == One(text, rid)
  {
    assert [text][..0] == [];
  }

  lemma CarriersPlus(texts: seq<Text>, text: Text, rid: RequestId)
    ensures Carriers(texts + [text], rid) == Carriers(texts, rid) + One(text, rid)
  {
    CarriersAppend(texts, [text], rid);
    CarriersOne(text, rid);
  }

  lemma CarriersNext(texts: seq<Text>, k: nat, rid: RequestId)
    requires k < |texts|
    ensures Carriers(texts[..k + 1], rid) == Carriers(texts[..k], rid) + One(texts[k], rid)
  {
    assert texts[..k + 1] == texts[..k] + [texts[k]];
    CarriersPlus(texts[..k], texts[k], rid);
  }

  lemma CarriersWithout(texts: seq<Text>, i: nat, rid: RequestId)
    requires i < |texts|
    ensures Carriers(Without(texts, i), rid) + One(texts[i], rid) == Carriers(texts, rid)
  {
    assert texts == texts[..i] + [texts[i]] + texts[i + 1..];
    CarriersPlus(texts[..i], texts[i], rid);
    CarriersAppend(texts[..i] + [texts[i]], texts[i + 1..], rid);
    CarriersAppend(texts[..i], texts[i + 1..], rid);
  }

  lemma {:induction false} CarrierFound(texts: seq<Text>, rid: RequestId) returns (i: nat)
    requires Carriers(texts, rid) > 0
    ensures i < |texts| && Carries(texts[i], rid)
    decreases |texts|
  {
    var n := |texts| - 1;
    if Carries(texts[n], rid) {
      i := n;
    } else {
      i := CarrierFound(texts[..n], rid);
    }
  }

  lemma CarrierCounts(texts: seq<Text>, rid: RequestId, i: nat)
    requires i < |texts| && Carries(texts[i], rid)
    ensures Carriers(texts, rid) > 0
  {
    CarriersWithout(texts, i, rid);
  }

  lemma CarriersPrefix(texts: seq<Text>, k: nat, rid: RequestId)
    requires k <= |texts|
    ensures Carriers(texts[..k], rid) <= Carriers(texts, rid)
  {
    assert texts == texts[..k] + texts[k..];
    CarriersAppend(texts[..k], texts[k..], rid);
  }

  /** A single text at most carries an answer. */
  lemma {:induction false} CarriersUnique(texts: seq<Text>, rid: RequestId)
    requires forall k, l | 0 <= k < l < |texts| :: Carries(texts[k], rid) ==> !Carries(texts[l], rid)
    ensures Carriers(texts, rid) <= 1
    decreases |texts|
  {
    if texts != [] {
      var n := |texts| - 1;
      CarriersUnique(texts[..n], rid);
      if Carriers(texts[..n], rid) > 0 {
        var i := CarrierFound(texts[..n], rid);
      }
    }
  }

  // ---- Where an answer can be ----

  /** The pushes in flight that carry an answer to rid. */
  ghost function CarryingCalls(x: Conn, rid: RequestId): set<CallId> {
    set id | id in x.calls && Carries(x.calls[id], rid)
  }

  /** How many texts answering rid are held, being pushed, arrived or given up. */
  ghost function Somewhere(x: Conn, link: Link, arrived: seq<Push>, rid: RequestId): nat {
    Carriers(link.held, rid) + |CarryingCalls(x, rid)| + Carriers(TextsOf(arrived), rid) + Carriers(link.dropped, rid)
  }

  /** Conservation: of the texts taken up from the client no answer is ever in two places at once,
      and while the connection is open none is lost. */
  ghost predicate Conserves(x: Conn, link: Link, arrived: seq<Push>, rid: RequestId) {
    && link.taken <= |link.sink|
    && Somewhere(x, link, arrived, rid) <= Carriers(link.sink[..link.taken], rid)
    && (x.open && !x.phase.Returned? ==> Somewhere(x, link, arrived, rid) == Carriers(link.sink[..link.taken], rid))
  }

  // ---- What a server step does to the pushes in flight ----

  /** One push that carries an answer to rid begins, or ends. */
  ghost function Begun(s: State, a: Action, c: ConnId, rid: RequestId): nat {
    if a.BeginPush? && a.c == c && c in s.conns && s.conns[c].open then One(a.push.text, rid) else 0
  }

  ghost function Ended(a: Action, c: ConnId, rid: RequestId): nat {
    if (a.Enqueue? || a.Refuse? || a.Abandon?) && a.c == c then One(a.push.text, rid) else 0
  }

  lemma BeginCounts(x: Conn, p: Push, rid: RequestId)
    requires x.open && p.call !in x.calls
    ensures |CarryingCalls(x.BeginPush(p), rid)| == |CarryingCalls(x, rid)| + One(p.text, rid)
  {
    var before, after := CarryingCalls(x, rid), CarryingCalls(x.BeginPush(p), rid);
    if Carries(p.text, rid) {
      assert after == before + {p.call};
    } else {
      assert after == before;
    }
  }

  lemma EndCounts(x: Conn, p: Push, rid: RequestId)
    requires x.HasCall(p)
    ensures |CarryingCalls(x.EndPush(p), rid)| + One(p.text, rid) == |CarryingCalls(x, rid)|
  {
    EndCarries(x, p, rid);
    var after := CarryingCalls(x.EndPush(p), rid);
    if Carries(p.text, rid) {
      assert |after + {p.call}| == |after| + 1;
    }
  }

  lemma EndCarries(x: Conn, p: Push, rid: RequestId)
    requires x.HasCall(p)
    ensures p.call !in CarryingCalls(x.EndPush(p), rid)
    ensures CarryingCalls(x, rid)
         == CarryingCalls(x.EndPush(p), rid) + if Carries(p.text, rid) then {p.call} else {}
  {
  }

  lemma SameCalls(x: Conn, y: Conn, rid: RequestId)
    requires x.calls == y.calls
    ensures CarryingCalls(x, rid) == CarryingCalls(y, rid)
  {
  }

  lemma PushesBalance(s: State, a: Action, c: ConnId, rid: RequestId)
    requires Enabled(s, a) && c in s.conns && s.conns[c].calls.Keys <= s.conns[c].used
    ensures c in Apply(s, a).conns
    ensures |CarryingCalls(Apply(s, a).conns[c], rid)| + Ended(a, c, rid)
         == |CarryingCalls(s.conns[c], rid)| + Begun(s, a, c, rid)
  {
    var x := s.conns[c];
    if !Intake(a, c) {
      IntakeUntouched(s, a, c);
      SameCalls(x, Apply(s, a).conns[c], rid);
    } else {
      IntakeTouched(s, a);
      if a.BeginPush? && x.open {
        BeginCounts(x, a.push, rid);
        SameCalls(x.BeginPush(a.push), Apply(s, a).conns[c], rid);
      } else if a.Enqueue? || a.Refuse? || a.Abandon? {
        EndCounts(x, a.push, rid);
        SameCalls(x.EndPush(a.push), Apply(s, a).conns[c], rid);
      } else {
        SameCalls(x, Apply(s, a).conns[c], rid);
      }
    }
  }

  lemma ArrivalsBalance(arrived: seq<Push>, a: Action, c: ConnId, rid: RequestId)
    ensures Carriers(TextsOf(arrived + BroughtBy(a, c)), rid)
         == Carriers(TextsOf(arrived), rid) + if a.Enqueue? && a.c == c then One(a.push.text, rid) else 0
  {
    if BroughtBy(a, c) == [] {
      assert arrived + BroughtBy(a, c) == arrived;
    } else {
      assert TextsOf(arrived + [a.push]) == TextsOf(arrived) + [a.push.text];
      CarriersPlus(TextsOf(arrived), a.push.text, rid);
    }
  }

  // ---- Conservation along network runs ----

  /** What a step adds on one side it adds on the other, and nothing goes while the connection
      stays open. */
  lemma Rebalance(x: Conn, link: Link, arrived: seq<Push>, y: Conn, next: Link, later: seq<Push>, rid: RequestId)
    requires Conserves(x, link, arrived, rid) && next.taken <= |next.sink|
    requires y.open && !y.phase.Returned? ==> x.open && !x.phase.Returned?
    requires var was, now := Somewhere(x, link, arrived, rid), Somewhere(y, next, later, rid);
      var had, has := Carriers(link.sink[..link.taken], rid), Carriers(next.sink[..next.taken], rid);
      now + had <= was + has && (y.open && !y.phase.Returned? ==> now + had == was + has)
    ensures Conserves(y, next, later, rid)
  {
  }

  lemma NotReturnedBefore(s: State, a: Action, c: ConnId)
    requires Enabled(s, a) && c in s.conns && c in Apply(s, a).conns
    requires Apply(s, a).conns[c].open && !Apply(s, a).conns[c].phase.Returned?
    ensures s.conns[c].open && !s.conns[c].phase.Returned?
  {
    if !Touches(a, c) {
      Untouched(s, a, c);
    }
  }

  lemma RefusedOnlyThen(s: State, a: Action)
    requires Enabled(s, a) && a.Refuse?
    ensures a.c in Apply(s, a).conns && Apply(s, a).conns[a.c].phase.Returned?
  {
  }

  /** A server step that neither begins a push on c nor gives one up. */
  lemma ServerConserves(s: State, a: Action, c: ConnId, link: Link, next: Link, arrived: seq<Push>, rid: RequestId)
    requires Enabled(s, a) && c in s.conns && s.conns[c].calls.Keys <= s.conns[c].used
    requires !((a.BeginPush? || a.Abandon?) && a.c == c)
    requires Conserves(s.conns[c], link, arrived, rid) && SameHoldings(link, next)
    ensures c in Apply(s, a).conns && Conserves(Apply(s, a).conns[c], next, arrived + BroughtBy(a, c), rid)
  {
    PushesBalance(s, a, c, rid);
    ArrivalsBalance(arrived, a, c, rid);
    SameTaken(link, next);
    var y := Apply(s, a).conns[c];
    if y.open && !y.phase.Returned? {
      NotReturnedBefore(s, a, c);
      if a.Refuse? {
        RefusedOnlyThen(s, a);
      }
    }
    Rebalance(s.conns[c], link, arrived, y, next, arrived + BroughtBy(a, c), rid);
  }

  /** The adapter holds what it held; the client may have written more. */
  ghost predicate SameHoldings(link: Link, next: Link) {
    && next.held == link.held && next.dropped == link.dropped && next.taken == link.taken
    && link.sink <= next.sink
  }

  lemma SameTaken(link: Link, next: Link)
    requires SameHoldings(link, next) && link.taken <= |link.sink|
    ensures next.taken <= |next.sink| && next.sink[..next.taken] == link.sink[..link.taken]
  {
  }

  lemma IdleConserves(x: Conn, link: Link, next: Link, arrived: seq<Push>, rid: RequestId)
    requires Conserves(x, link, arrived, rid) && SameHoldings(link, next)
    ensures Conserves(x, next, arrived, rid)
  {
    SameTaken(link, next);
  }

  lemma TakeConserves(x: Conn, link: Link, arrived: seq<Push>, rid: RequestId)
    requires Conserves(x, link, arrived, rid) && link.taken < |link.sink|
    ensures Conserves(x, link.(taken := link.taken + 1, held := link.held + [link.sink[link.taken]]), arrived, rid)
  {
    CarriersPlus(link.held, link.sink[link.taken], rid);
    CarriersNext(link.sink, link.taken, rid);
  }

  lemma RaiseConserves(x: Conn, link: Link, i: nat, arrived: seq<Push>, rid: RequestId)
    requires Conserves(x, link, arrived, rid) && i < |link.held|
    ensures Conserves(x, link.(held := Without(link.held, i), dropped := link.dropped + [link.held[i]]), arrived, rid)
  {
    CarriersWithout(link.held, i, rid);
    CarriersPlus(link.dropped, link.held[i], rid);
  }

  lemma TransmitConserves(s: State, c: ConnId, p: Push, link: Link, i: nat, arrived: seq<Push>, rid: RequestId)
    requires Enabled(s, BeginPush(c, p)) && c in s.conns && s.conns[c].calls.Keys <= s.conns[c].used
    requires Conserves(s.conns[c], link, arrived, rid) && i < |link.held| && p.text == link.held[i]
    ensures c in Apply(s, BeginPush(c, p)).conns
    ensures Conserves(Apply(s, BeginPush(c, p)).conns[c], link.(held := Without(link.held, i)), arrived, rid)
  {
    var a := BeginPush(c, p);
    PushesBalance(s, a, c, rid);
    CarriersWithout(link.held, i, rid);
    var y := Apply(s, a).conns[c];
    if y.open && !y.phase.Returned? {
      NotReturnedBefore(s, a, c);
    }
    Rebalance(s.conns[c], link, arrived, y, link.(held := Without(link.held, i)), arrived, rid);
  }

  lemma CutShortConserves(s: State, c: ConnId, p: Push, link: Link, arrived: seq<Push>, rid: RequestId)
    requires Enabled(s, Abandon(c, p)) && c in s.conns && s.conns[c].calls.Keys <= s.conns[c].used
    requires Conserves(s.conns[c], link, arrived, rid)
    ensures c in Apply(s, Abandon(c, p)).conns
    ensures Conserves(Apply(s, Abandon(c, p)).conns[c], link.(held := link.held + [p.text]), arrived, rid)
  {
    var a := Abandon(c, p);
    PushesBalance(s, a, c, rid);
    CarriersPlus(link.held, p.text, rid);
    var y := Apply(s, a).conns[c];
    if y.open && !y.phase.Returned? {
      NotReturnedBefore(s, a, c);
    }
    Rebalance(s.conns[c], link, arrived, y, link.(held := link.held + [p.text]), arrived, rid);
  }

  /** The step is the adapter's, on c. */
  ghost predicate Adapts(a: NetAction, c: ConnId) {
    (a.Take? || a.Transmit? || a.CutShort? || a.Raise?) && a.c == c
  }

  lemma HoldingsKept(n: Net, a: NetAction, c: ConnId)
    requires NetInv(n) && Possible(n, a) && c in n.links && !Adapts(a, c)
    ensures c in Advance(n, a).links && SameHoldings(n.links[c], Advance(n, a).links[c])
  {
    LinksKept(n, a, c);
    if a.Connect? {
      ServerPartEnabled(n, a);
    }
  }

  lemma AdapterConserves(n: Net, a: NetAction, c: ConnId, arrived: seq<Push>, rid: RequestId)
    requires Possible(n, a) && Adapts(a, c) && c in n.server.conns && n.server.conns[c].calls.Keys <= n.server.conns[c].used
    requires Conserves(n.server.conns[c], n.links[c], arrived, rid)
    ensures c in Advance(n, a).links && c in Advance(n, a).server.conns
    ensures Conserves(Advance(n, a).server.conns[c], Advance(n, a).links[c], arrived, rid)
  {
    var x, link := n.server.conns[c], n.links[c];
    if a.Take? {
      TakeConserves(x, link, arrived, rid);
    } else if a.Raise? {
      RaiseConserves(x, link, a.i, arrived, rid);
    } else {
      ServerPartEnabled(n, a);
      if a.Transmit? {
        TransmitConserves(n.server, c, a.push, link, a.i, arrived, rid);
      } else {
        CutShortConserves(n.server, c, a.push, link, arrived, rid);
      }
    }
  }

  lemma OtherConserves(n: Net, a: NetAction, c: ConnId, arrived: seq<Push>, rid: RequestId)
    requires NetInv(n) && Possible(n, a) && !Adapts(a, c) && c in n.links && c in n.server.conns
    requires n.server.conns[c].calls.Keys <= n.server.conns[c].used
    requires Conserves(n.server.conns[c], n.links[c], arrived, rid)
    ensures c in Advance(n, a).links && c in Advance(n, a).server.conns
    ensures Conserves(Advance(n, a).server.conns[c], Advance(n, a).links[c],
                      arrived + if ServerPart(a) == [] then [] else BroughtBy(ServerPart(a)[0], c), rid)
  {
    HoldingsKept(n, a, c);
    ServerAdvances(n, a);
    if ServerPart(a) == [] {
      IdleConserves(n.server.conns[c], n.links[c], Advance(n, a).links[c], arrived, rid);
      assert arrived + [] == arrived;
    } else {
      ServerPartEnabled(n, a);
      ServerConserves(n.server, ServerPart(a)[0], c, n.links[c], Advance(n, a).links[c], arrived, rid);
    }
  }

  lemma ConservesStep(n: Net, a: NetAction, c: ConnId, log: Log, rid: RequestId)
    requires NetInv(n) && Possible(n, a) && c in n.links && c in n.server.conns
    requires n.server.conns[c].calls.Keys <= n.server.conns[c].used
    requires Conserves(n.server.conns[c], n.links[c], Arrived(log, c), rid)
    ensures c in Advance(n, a).links && c in Advance(n, a).server.conns
    ensures Conserves(Advance(n, a).server.conns[c], Advance(n, a).links[c], Arrived(log + ServerPart(a), c), rid)
  {
    if Adapts(a, c) {
      AdapterBringsNothing(a, c, log);
      AdapterConserves(n, a, c, Arrived(log, c), rid);
    } else {
      ArrivedExtends(log, ServerPart(a), c);
      OtherConserves(n, a, c, Arrived(log, c), rid);
    }
  }

  lemma AdapterBringsNothing(a: NetAction, c: ConnId, log: Log)
    requires Adapts(a, c)
    ensures Arrived(log + ServerPart(a), c) == Arrived(log, c)
  {
    ArrivedExtends(log, ServerPart(a), c);
    assert Arrived(log, c) + [] == Arrived(log, c);
  }

  lemma LinkStartsEmpty(n: Net, a: NetAction, c: ConnId, log: Log, rid: RequestId)
    requires NetInv(n) && Possible(n, a) && c !in n.links && c in Advance(n, a).links && Arrived(log, c) == []
    ensures c in Advance(n, a).server.conns
    ensures Conserves(Advance(n, a).server.conns[c], Advance(n, a).links[c], Arrived(log + ServerPart(a), c), rid)
  {
    LinksCreated(n, a, c);
    ServerPartEnabled(n, a);
    ArrivedExtends(log, ServerPart(a), c);
    assert CarryingCalls(NewConn(), rid) == {};
  }

  /** In every network run and for every request: of what the adapter has taken up, each answer is
      in exactly one place while the connection is open, and never in two. */
  lemma {:induction false} AlwaysConserved(secret: string, log: NetLog, n: Net, c: ConnId, rid: RequestId)
    requires NetRun(secret, log) == Some(n) && c in n.links
    ensures c in n.server.conns && Conserves(n.server.conns[c], n.links[c], Arrived(ServerLog(log), c), rid)
    decreases |log|
  {
    var k := |log| - 1;
    var mid := NetRun(secret, log[..k]).value;
    NetAlways(secret, log[..k], mid);
    if c in mid.links {
      NetRunsAreServerRuns(secret, log[..k], mid);
      JunkErasure.AlwaysOnceEach(secret, ServerLog(log[..k]), mid.server, c);
      AlwaysConserved(secret, log[..k], mid, c, rid);
      ConservesStep(mid, log[k], c, ServerLog(log[..k]), rid);
    } else {
      ArrivedFromClient(secret, log[..k], mid, c);
      LinkStartsEmpty(mid, log[k], c, ServerLog(log[..k]), rid);
    }
  }
}
