/** The Ruby binding's native calls under thread interrupts.

    Every call into the core runs with the GVL released and can be interrupted. The loops below
    try again until the call has run or Ruby raises; they must neither repeat nor drop it. */
module RubyBinding {
  import opened Wrappers
  import opened Protocol
  import opened Tunnel
  import opened Invariants

  /** One rb_thread_call_without_gvl2 call. An interrupt keeps the native function from being
      called, or makes it give up early; handling that interrupt may raise. One that comes as
      the function completes is not looked at: it stays pending, for the next call to meet. */
  datatype Attempt =
    | NotRun(raises: bool)
    | CutShort(raises: bool)
    | Finished
    | FinishedLate(pending: bool)   // whether handling the interrupt left pending will raise
  {
    predicate Completes() {
      Finished? || FinishedLate?
    }

    predicate Raises() {
      (NotRun? || CutShort?) && raises
    }
  }

  /** The attempts to come; once it is used up, every attempt finishes. */
  type Schedule = seq<Attempt>

  // ---- Which attempt decides ----

  datatype Stop = Ran | GaveUp | Raised

  /** What is left once the first attempt is over. */
  function Rest(schedule: Schedule): Schedule {
    if schedule == [] then []
    else if schedule[0].FinishedLate? then [NotRun(schedule[0].pending)] + schedule[1..]
    else schedule[1..]
  }

  /** One without_gvl call against a schedule: how it ends, and what is left. */
  function GvlStop(schedule: Schedule): (r: (Stop, Schedule))
    ensures !r.0.Ran? ==> |r.1| < |schedule|
  {
    if schedule == [] || schedule[0].Completes() then (Ran, Rest(schedule))
    else if schedule[0].raises then (Raised, Rest(schedule))
    else if schedule[0].CutShort? then (GaveUp, Rest(schedule))
    else GvlStop(Rest(schedule))
  }

  /** The retry loop around it: true when the call ran, false when Ruby raised. */
  function RetryStop(schedule: Schedule): (bool, Schedule)
    decreases |schedule|
  {
    match GvlStop(schedule)
    case (Ran, rest) => (true, rest)
    case (Raised, rest) => (false, rest)
    case (GaveUp, rest) => RetryStop(rest)
  }

  /** The index of the first attempt that completes or raises, or the length. */
  function Decisive(schedule: Schedule): (i: nat)
    ensures i <= |schedule| && forall j | 0 <= j < i :: !schedule[j].Completes() && !schedule[j].Raises()
    ensures i < |schedule| ==> schedule[i].Completes() || schedule[i].Raises()
  {
    if schedule == [] || schedule[0].Completes() || schedule[0].Raises() then 0 else 1 + Decisive(schedule[1..])
  }

  /** The decisive attempt completes. */
  predicate CallCompletes(schedule: Schedule) {
    Decisive(schedule) < |schedule| ==> schedule[Decisive(schedule)].Completes()
  }

  lemma {:induction false} RetrySkips(e: Attempt, rest: Schedule)
    requires !e.Completes() && !e.Raises()
    ensures RetryStop([e] + rest) == RetryStop(rest)
  {
    assert ([e] + rest)[1..] == rest;
  }

  /** An interrupt that raises nothing is invisible: the loop stops at the first attempt that
      completes or raises, and leaves everything after it, with an interrupt that came too
      late put first. */
  lemma {:induction false} RetryStopsAtDecisive(schedule: Schedule)
    ensures RetryStop(schedule) == (CallCompletes(schedule), Rest(schedule[Decisive(schedule)..]))
    decreases |schedule|
  {
    if schedule != [] && !schedule[0].Completes() && !schedule[0].Raises() {
      var rest := schedule[1..];
      assert schedule == [schedule[0]] + rest;
      RetrySkips(schedule[0], rest);
      RetryStopsAtDecisive(rest);
      assert schedule[Decisive(schedule)..] == rest[Decisive(rest)..];
    } else {
      assert schedule[0..] == schedule;
    }
  }

  /** The attempt neither ran to its end nor raised. */
  ghost predicate Undecided(e: Attempt) {
    e == NotRun(false) || e == CutShort(false)
  }

  /** Behind any number of undecided attempts the next one decides: finished, the call completes
      and an interrupt that came too late is the first thing the next call meets; otherwise it raises. */
  lemma CallDecided(schedule: Schedule, i: nat)
    requires i < |schedule| && (forall j | 0 <= j < i :: Undecided(schedule[j])) && !Undecided(schedule[i])
    ensures RetryStop(schedule) ==
      match schedule[i]
      case Finished => (true, schedule[i + 1..])
      case FinishedLate(pending) => (true, [NotRun(pending)] + schedule[i + 1..])
      case _ => (false, schedule[i + 1..])
    ensures CallCompletes(schedule) <==> schedule[i].Finished? || schedule[i].FinishedLate?
  {
    RetryStopsAtDecisive(schedule);
    assert Decisive(schedule) == i;
    assert schedule[i..][1..] == schedule[i + 1..];
  }

  /** With nothing but undecided attempts the call completes behind them. */
  lemma CallUndisturbed(schedule: Schedule)
    requires forall j | 0 <= j < |schedule| :: Undecided(schedule[j])
    ensures CallCompletes(schedule) && RetryStop(schedule) == (true, [])
  {
    RetryStopsAtDecisive(schedule);
  }

  /** How many exceptions the interrupts of a schedule carry. */
  function Exceptions(schedule: Schedule): nat {
    if schedule == [] then 0
    else
      var e := schedule[0];
      (if e.Raises() || (e.FinishedLate? && e.pending) then 1 else 0) + Exceptions(schedule[1..])
  }

  /** No exception is swallowed or raised twice: the loop raises one and leaves the others, or
      leaves them all. */
  lemma {:induction false} NoExceptionIsLost(schedule: Schedule)
    ensures Exceptions(schedule) == Exceptions(RetryStop(schedule).1) + if RetryStop(schedule).0 then 0 else 1
    decreases |schedule|
  {
    if schedule != [] {
      var e, rest := schedule[0], schedule[1..];
      if e.FinishedLate? {
        assert ([NotRun(e.pending)] + rest)[1..] == rest;
      } else if !e.Finished? && !e.raises {
        assert schedule == [e] + rest;
        RetrySkips(e, rest);
        NoExceptionIsLost(rest);
      }
    }
  }

  // ---- Any number of calls, one after another ----

  /** What is left of the schedule after n calls. */
  function Left(schedule: Schedule, n: nat): Schedule {
    if n == 0 then schedule else RetryStop(Left(schedule, n - 1)).1
  }

  /** How many of the first n calls raise. */
  function RaisedCalls(schedule: Schedule, n: nat): (r: nat)
    ensures r <= n
  {
    if n == 0 then 0
    else RaisedCalls(schedule, n - 1) + if CallCompletes(Left(schedule, n - 1)) then 0 else 1
  }

  /** Over any number of calls every exception is raised exactly once or still to come, none
      sooner than its interrupt is handled. */
  lemma {:induction false} ExceptionsAccounted(schedule: Schedule, n: nat)
    ensures Exceptions(schedule) == RaisedCalls(schedule, n) + Exceptions(Left(schedule, n))
  {
    if n > 0 {
      ExceptionsAccounted(schedule, n - 1);
      RetryStopsAtDecisive(Left(schedule, n - 1));
      NoExceptionIsLost(Left(schedule, n - 1));
    }
  }

  // ---- The core behind the binding ----

  /** The closures handed to without_gvl. */
  datatype Native =
    | PushText(text: Text)
    | TakeOutgoing
    | JoinTask
    | AskConnected(service: string)

  datatype Reply =
    | Pushed
    | Outgoing(message: Option<Text>)
    | Joined
    | Connected(yes: bool)

  /** What the core has seen of this binding object. */
  datatype Core = Core(
    pushed: seq<Text>,         // texts push_message completed, in order
    stream: seq<Text>,         // every message the core ever hands to the callback
    taken: nat,                // how many of them next_outgoing has returned
    spawned: seq<IncomingRequest>,
    runs: nat,                 // how often the core's run() was spawned
    closed: bool,
    aborted: nat,
    joined: nat,
    services: set<string>)
  {
    predicate Valid() {
      taken <= |stream|
    }

    /** Running a closure to completion. An interrupted one leaves the core alone: the channel
        operations it waits in are cancel-safe. */
    function After(op: Native): Core
      requires Valid()
    {
      match op
      case PushText(text) => this.(pushed := pushed + [text])
      case TakeOutgoing => if taken < |stream| then this.(taken := taken + 1) else this
      case JoinTask => this.(joined := joined + 1)
      case AskConnected(_) => this
    }

    function Answer(op: Native): Reply
      requires Valid()
    {
      match op
      case PushText(_) => Pushed
      case TakeOutgoing => Outgoing(if taken < |stream| then Some(stream[taken]) else None)
      case JoinTask => Joined
      case AskConnected(service) => Connected(service in services)
    }
  }

  /** The argument block of one rb_thread_call_without_gvl2 call. */
  class Call {
    var func: Option<Native>
    var result: Option<Option<Reply>>

    constructor (op: Native)
      ensures func == Some(op) && result == None
    {
      func, result := Some(op), None;
    }

    /** The trampoline: take the function, so that it runs at most once, and keep its result. */
    method Trampoline(core: Core, cutShort: bool) returns (after: Core)
      requires core.Valid()
      modifies this
      ensures func == None && after.Valid()
      ensures if old(func) == None then result == old(result) && after == core
              else if cutShort then result == Some(None) && after == core
              else result == Some(Some(core.Answer(old(func).value))) && after == core.After(old(func).value)
    {
      after := core;
      if func.Some? {
        var op := func.value;
        func := None;
        if cutShort {
          result := Some(None);
        } else {
          result := Some(Some(core.Answer(op)));
          after := core.After(op);
        }
      }
    }
  }

  datatype RubyError = InterruptRaised | NotConnectedError | TunnelTimeoutError | OtherTunnelError(error: TunnelError)

  /** The request asks for exactly what the call asks for. */
  ghost predicate Carries(q: TunnelRequest, incoming: IncomingRequest) {
    && q.msgType == "request" && q.service == incoming.service && q.verb == incoming.verb && q.path == incoming.path
    && q.query == incoming.query && q.headers == incoming.headers && q.body == incoming.body
  }

  /** In a run of the server, the dispatch of the request of this call returned result. */
  ghost predicate Spawned(secret: string, log: Log, s: State, rid: RequestId, incoming: IncomingRequest,
                          result: Result<TunnelResponse, TunnelError>)
  {
    && Reaches(secret, log, s) && rid in s.dispatches
    && s.dispatches[rid].request.requestId == rid && Carries(s.dispatches[rid].request, incoming)
    && s.dispatches[rid].progress == Done(result)
  }

  lemma SpawnedResult(secret: string, log: Log, s: State, rid: RequestId, incoming: IncomingRequest,
                      result: Result<TunnelResponse, TunnelError>)
    requires Spawned(secret, log, s, rid, incoming, result)
    ensures result.Ok? ==> result.value.requestId == rid
    ensures result != Err(ConnectionLost)
  {
    Always(secret, log, s);
    assert DispatchEntry(s, rid);
  }

  class Binding {
    var core: Core
    var schedule: Schedule

    constructor (core: Core, schedule: Schedule)
      requires core.Valid()
      ensures this.core == core && this.schedule == schedule
    {
      this.core, this.schedule := core, schedule;
    }

    /** One rb_thread_call_without_gvl2 call; the interrupt that kept the function from
        completing, if any, is then handled. */
    method CallWithoutGvl2(call: Call) returns (raises: bool)
      requires core.Valid() && call.func.Some? && call.result == None
      modifies this, call
      ensures core.Valid()
      ensures raises <==> old(schedule) != [] && old(schedule)[0].Raises()
      ensures schedule == Rest(old(schedule))
      ensures if old(schedule) == [] || old(schedule)[0].Completes() then
                core == old(core).After(old(call.func).value)
                && call.result == Some(Some(old(core).Answer(old(call.func).value)))
              else
                core == old(core)
                && call.result == if old(schedule)[0].NotRun? then None else Some(None)
    {
      var e := if schedule == [] then Finished else schedule[0];
      schedule := Rest(schedule);
      raises := e.Raises();
      if !e.NotRun? {
        core := call.Trampoline(core, e.CutShort?);
      }
    }

    /** without_gvl: attempts are repeated as long as the function was not reached. Ok(None) tells
        the caller that one was reached but gave up, with nothing for Ruby to raise. */
    method WithoutGvl(op: Native) returns (r: Result<Option<Reply>, RubyError>)
      requires core.Valid()
      modifies this
      ensures core.Valid() && schedule == GvlStop(old(schedule)).1
      ensures match GvlStop(old(schedule)).0
              case Ran => r == Ok(Some(old(core).Answer(op))) && core == old(core).After(op)
              case GaveUp => r == Ok(None) && core == old(core)
              case Raised => r == Err(InterruptRaised) && core == old(core)
    {
      while true
        invariant core == old(core)
        invariant GvlStop(schedule) == GvlStop(old(schedule))
        decreases |schedule|
      {
        var call := new Call(op);
        var raises := CallWithoutGvl2(call);
        match call.result {
          case Some(Some(reply)) => return Ok(Some(reply));
          case Some(None) =>
            if raises {
              return Err(InterruptRaised);
            }
            return Ok(None);
          case None =>
            if raises {
              return Err(InterruptRaised);
            }
        }
      }
    }

    /** The loop every native method wraps around without_gvl. The function completes exactly
        once, or Ruby raises and it has not run at all. */
    method Retry(op: Native) returns (r: Result<Reply, RubyError>)
      requires core.Valid()
      modifies this
      ensures core.Valid() && schedule == RetryStop(old(schedule)).1
      ensures if CallCompletes(old(schedule))
              then r == Ok(old(core).Answer(op)) && core == old(core).After(op)
              else r == Err(InterruptRaised) && core == old(core)
    {
      RetryStopsAtDecisive(schedule);
      while true
        invariant core == old(core)
        invariant RetryStop(schedule) == RetryStop(old(schedule))
        decreases |schedule|
      {
        var attempt := WithoutGvl(op);
        match attempt {
          case Err(e) => return Err(e);
          case Ok(Some(reply)) => return Ok(reply);
          case Ok(None) =>
        }
      }
    }

    /** push_message: Ok means the text went in exactly once, Err that it did not go in. */
    method PushMessage(text: Text) returns (r: Result<(), RubyError>)
      requires core.Valid()
      modifies this
      ensures core.Valid() && schedule == RetryStop(old(schedule)).1
      ensures r.Ok? <==> CallCompletes(old(schedule))
      ensures core == if r.Ok? then old(core).(pushed := old(core).pushed + [text]) else old(core)
    {
      var sent := Retry(PushText(text));
      match sent {
        case Ok(_) => r := Ok(());
        case Err(e) => r := Err(e);
      }
    }

    /** next_outgoing: the next message in order, or nil once the stream has ended; on Err
        nothing was taken. */
    method NextOutgoing() returns (r: Result<Option<Text>, RubyError>)
      requires core.Valid()
      modifies this
      ensures core.Valid() && schedule == RetryStop(old(schedule)).1
      ensures r.Ok? <==> CallCompletes(old(schedule))
      ensures match r
              case Ok(Some(message)) =>
                old(core).taken < |core.stream| && message == core.stream[old(core).taken]
                && core == old(core).(taken := old(core).taken + 1)
              case Ok(None) => old(core).taken == |core.stream| && core == old(core)
              case Err(_) => core == old(core)
    {
      var taken := Retry(TakeOutgoing);
      match taken {
        case Ok(Outgoing(message)) => r := Ok(message);
        case Err(e) => r := Err(e);
      }
    }

    method IsConnected(service: string) returns (r: Result<bool, RubyError>)
      requires core.Valid()
      modifies this
      ensures core == old(core) && schedule == RetryStop(old(schedule)).1
      ensures r == if CallCompletes(old(schedule)) then Ok(service in core.services) else Err(InterruptRaised)
    {
      var asked := Retry(AskConnected(service));
      match asked {
        case Ok(Connected(yes)) => r := Ok(yes);
        case Err(e) => r := Err(e);
      }
    }

    /** handle_request: the dispatch is spawned once, whatever happens; it is joined once and
        its result translated, or aborted once when Ruby raises. What the join yields is what the
        spawned dispatch rid returned in a run of the server. */
    method HandleRequest(incoming: IncomingRequest, result: Result<TunnelResponse, TunnelError>,
                         ghost secret: string, ghost log: Log, ghost s: State, ghost rid: RequestId)
      returns (r: Result<TunnelResponse, RubyError>)
      requires core.Valid()
      requires CallCompletes(schedule) ==> Spawned(secret, log, s, rid, incoming, result)
      modifies this
      ensures core.Valid() && core.spawned == old(core).spawned + [incoming]
      ensures core.pushed == old(core).pushed && core.taken == old(core).taken
      ensures schedule == RetryStop(old(schedule)).1
      ensures if CallCompletes(old(schedule))
              then core.joined == old(core).joined + 1 && core.aborted == old(core).aborted
                   && r == match result
                           case Ok(response) => Ok(response)
                           case Err(NotConnected) => Err(NotConnectedError)
                           case Err(Timeout) => Err(TunnelTimeoutError)
                           case Err(e) => Err(OtherTunnelError(e))
              else r == Err(InterruptRaised)
                   && core.joined == old(core).joined && core.aborted == old(core).aborted + 1
      ensures r.Ok? ==> r.value.requestId == rid
      ensures r.Err? && r.error.OtherTunnelError? ==> r.error.error.Disconnected?
    {
      if CallCompletes(schedule) {
        SpawnedResult(secret, log, s, rid, incoming, result);
      }
      core := core.(spawned := core.spawned + [incoming]);
      var waited := Retry(JoinTask);
      match waited {
        case Err(e) =>
          core := core.(aborted := core.aborted + 1);
          r := Err(e);
        case Ok(_) =>
          match result {
            case Ok(response) => r := Ok(response);
            case Err(NotConnected) => r := Err(NotConnectedError);
            case Err(Timeout) => r := Err(TunnelTimeoutError);
            case Err(e) => r := Err(OtherTunnelError(e));
          }
      }
    }

    /** run: the core's run() is spawned once and has returned when this returns. When Ruby
        raises, the connection is closed first, which is what makes run() return. */
    method RunConnection() returns (r: Result<(), RubyError>)
      requires core.Valid()
      modifies this
      ensures core == old(core).(runs := old(core).runs + 1, joined := old(core).joined + 1,
                                 closed := old(core).closed || r.Err?)
      ensures schedule == RetryStop(old(schedule)).1
      ensures r.Ok? <==> CallCompletes(old(schedule))
    {
      core := core.(runs := core.runs + 1);
      var waited := Retry(JoinTask);
      match waited {
        case Ok(_) => r := Ok(());
        case Err(e) =>
          core := core.(closed := true);
          core := core.After(JoinTask);
          r := Err(e);
      }
    }

    method PumpOne(messages: seq<Text>, ghost first: nat) returns (more: seq<Text>)
      requires core.Valid() && first <= core.taken && messages == core.stream[first..core.taken]
      modifies this
      ensures core == old(core).(taken := Reached(old(core), if CallCompletes(old(schedule)) then 1 else 0))
      ensures core.Valid() && more == core.stream[first..core.taken]
      ensures schedule == RetryStop(old(schedule)).1
    {
      StretchGrows(core.stream, first, core.taken);
      var next := NextOutgoing();
      more := if next.Ok? && next.value.Some? then messages + [next.value.value] else messages;
    }

    /** Any number of next_outgoing calls, whichever of them are raised into: every other call
        takes one message while there is one, and what they return is a stretch of the core's
        stream without gaps or repetition. */
    method PumpOutgoing(calls: nat) returns (messages: seq<Text>)
      requires core.Valid()
      modifies this
      ensures core == old(core).(taken := Reached(old(core), calls - RaisedCalls(old(schedule), calls)))
      ensures core.Valid() && old(core).taken <= core.taken
      ensures messages == core.stream[old(core).taken..core.taken]
      ensures schedule == Left(old(schedule), calls)
    {
      messages := [];
      for n := 0 to calls
        invariant core == old(core).(taken := Reached(old(core), n - RaisedCalls(old(schedule), n)))
        invariant core.Valid() && old(core).taken <= core.taken
        invariant messages == core.stream[old(core).taken..core.taken]
        invariant schedule == Left(old(schedule), n)
      {
        ReachedOn(old(core), n - RaisedCalls(old(schedule), n), if CallCompletes(schedule) then 1 else 0);
        messages := PumpOne(messages, old(core).taken);
      }
    }

    /** Any number of push_message calls: the core gets exactly the texts whose call was not
        raised into, once each and in order. */
    method PushAll(texts: seq<Text>)
      requires core.Valid()
      modifies this
      ensures core == old(core).(pushed := old(core).pushed + Accepted(texts, old(schedule)))
      ensures schedule == Left(old(schedule), |texts|)
    {
      for n := 0 to |texts|
        invariant core == old(core).(pushed := old(core).pushed + Accepted(texts[..n], old(schedule)))
        invariant schedule == Left(old(schedule), n)
      {
        AcceptedNext(texts, n, old(schedule));
        var sent := PushMessage(texts[n]);
      }
      assert texts[..|texts|] == texts;
    }
  }

  lemma StretchGrows(stream: seq<Text>, first: nat, next: nat)
    requires first <= next <= |stream|
    ensures next < |stream| ==> stream[first..next + 1] == stream[first..next] + [stream[next]]
  {
  }

  /** Where the reader is after so many completed calls. */
  function Reached(core: Core, completed: nat): nat {
    if core.taken + completed <= |core.stream| then core.taken + completed else |core.stream|
  }

  lemma ReachedOn(core: Core, before: nat, more: nat)
    requires core.Valid()
    ensures Reached(core.(taken := Reached(core, before)), more) == Reached(core, before + more)
  {
  }

  /** The texts whose call completes, in order. */
  function Accepted(texts: seq<Text>, schedule: Schedule): seq<Text> {
    if texts == [] then []
    else
      var n := |texts| - 1;
      Accepted(texts[..n], schedule) + if CallCompletes(Left(schedule, n)) then [texts[n]] else []
  }

  lemma AcceptedNext(texts: seq<Text>, n: nat, schedule: Schedule)
    requires n < |texts|
    ensures Accepted(texts[..n + 1], schedule)
         == Accepted(texts[..n], schedule) + if CallCompletes(Left(schedule, n)) then [texts[n]] else []
  {
    assert texts[..n + 1][..n] == texts[..n];
  }

  /** Every exception is raised into exactly one push, and that push loses exactly its text. */
  lemma PushesLostAreRaises(texts: seq<Text>, schedule: Schedule)
    ensures |texts| == |Accepted(texts, schedule)| + RaisedCalls(schedule, |texts|)
    ensures Exceptions(schedule) == RaisedCalls(schedule, |texts|) + Exceptions(Left(schedule, |texts|))
  {
    ExceptionsAccounted(schedule, |texts|);
    AcceptedOrRaised(texts, schedule);
  }

  lemma {:induction false} AcceptedOrRaised(texts: seq<Text>, schedule: Schedule)
    ensures |texts| == |Accepted(texts, schedule)| + RaisedCalls(schedule, |texts|)
    decreases |texts|
  {
    if texts != [] {
      AcceptedOrRaised(texts[..|texts| - 1], schedule);
    }
  }
}
