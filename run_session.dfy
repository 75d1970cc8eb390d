/** The outcome logic of `start` (run_graph.js:162-207). The client library's
    calls are not modelled; what they did is an input: whether connecting,
    loading or uploading failed, how `network.start` ended, and the signals
    `observer.until` returned. */
module RunSession {
  import opened JsValues

  /** A signal's payload; `graph` names the run it belongs to. */
  datatype Payload = Payload(graph: Option<string>, id: Option<string>, data: Json)

  /** A runtime signal: `{command, payload}`. */
  datatype Signal = Signal(command: string, payload: Payload)

  /** The rejection `network.start` raises when its acknowledgement is late;
      the network still starts. */
  const StartTimeoutMessage: string := "Error: network:start timed out"

  /** Why the promise returned by `start` was rejected. */
  datatype Reason =
    | ClientFailed(message: string)   // `fbpClient` or `connect` rejected, so the async `start` rejects
    | LoadFailed(message: string)     // `loadJSON` reported an error
    | StartFailed(message: string)    // `network.start` failed otherwise than by timing out
    | SignalFailed(signal: Signal)    // the `error`, else `processerror`, signal for this graph
    | NoReason                        // `reject(undefined)`

  /** How the promise returned by `start` ends. `Pending` is a promise that
      never settles: an exception thrown inside the `loadJSON` callback is lost. */
  datatype Settlement = Resolved | Rejected(reason: Reason) | Pending

  /** What the library calls did during one session. */
  datatype Runtime = Runtime(
    clientFailed: Option<string>,     // `fbpClient` or `connect` rejected
    loadError: Option<string>,
    sendFailed: bool,                 // `graph.send` rejected
    startError: Option<string>,       // `network.start` rejected with this `e.toString()`
    observed: Option<seq<Signal>>)    // `observer.until` resolved with these, or rejected

  /** The first returned signal with the given command whose payload names
      this graph, if any. */
  function FindSignal(signals: seq<Signal>, command: string, name: string): (r: Option<Signal>)
    ensures r.None? <==> forall i :: 0 <= i < |signals| ==>
      !(signals[i].command == command && signals[i].payload.graph == Some(name))
    ensures r.Some? ==> r.value in signals
    ensures r.Some? ==> r.value.command == command && r.value.payload.graph == Some(name)
  {
    if signals == [] then None
    else if signals[0].command == command && signals[0].payload.graph == Some(name) then Some(signals[0])
    else FindSignal(signals[1..], command, name)
  }

  /** The search returns the first matching signal. */
  lemma {:induction false} FindSignalFirst(signals: seq<Signal>, command: string, name: string, i: nat)
    requires i < |signals|
    requires signals[i].command == command && signals[i].payload.graph == Some(name)
    requires forall j :: 0 <= j < i ==> !(signals[j].command == command && signals[j].payload.graph == Some(name))
    ensures FindSignal(signals, command, name) == Some(signals[i])
    decreases i
  {
    if i > 0 {
      FindSignalFirst(signals[1..], command, name, i - 1);
    }
  }

  /** The decision once `until` returns: success on this graph's `stopped`
      signal; otherwise failure with its `error` signal, else its
      `processerror` signal, else no reason. */
  function TerminalDecision(signals: seq<Signal>, name: string): (s: Settlement)
    ensures s != Pending
    ensures s == Resolved <==> FindSignal(signals, "stopped", name).Some?
  {
    var stopped := FindSignal(signals, "stopped", name);
    var error := FindSignal(signals, "error", name);
    var processError := FindSignal(signals, "processerror", name);
    if stopped.Some? then Resolved
    else if error.Some? then Rejected(SignalFailed(error.value))
    else if processError.Some? then Rejected(SignalFailed(processError.value))
    else Rejected(NoReason)
  }

  /** The `catch` around `network.start`: the timeout is swallowed, any other
      error rejects. */
  function StartRejection(startError: Option<string>): (r: Option<Reason>)
    ensures r.None? <==> (startError.None? || startError.value == StartTimeoutMessage)
    ensures r.Some? ==> r.value == StartFailed(startError.value)
  {
    if startError.Some? && startError.value != StartTimeoutMessage then Some(StartFailed(startError.value))
    else None
  }

  /** A promise settles once: a later `resolve` or `reject` has no effect. */
  function Then(first: Settlement, later: Settlement): (s: Settlement)
    ensures first != Pending ==> s == first
    ensures first == Pending ==> s == later
  {
    if first.Pending? then later else first
  }

  /** What `start(jsonGraph, ...)` does for a graph named `name`. */
  function Start(rt: Runtime, name: string): (s: Settlement)
    ensures rt.clientFailed.Some? ==> s == Rejected(ClientFailed(rt.clientFailed.value))
    ensures rt.clientFailed.None? && rt.loadError.Some? ==> s == Rejected(LoadFailed(rt.loadError.value))
    ensures rt.clientFailed.None? && rt.loadError.None? && rt.sendFailed ==> s == Pending
  {
    if rt.clientFailed.Some? then Rejected(ClientFailed(rt.clientFailed.value))
    else if rt.loadError.Some? then Rejected(LoadFailed(rt.loadError.value))
    else if rt.sendFailed then Pending
    else
      var early := match StartRejection(rt.startError)
        case Some(reason) => Rejected(reason)
        case None => Pending;
      var late := match rt.observed
        case Some(signals) => TerminalDecision(signals, name)
        case None => Pending;
      Then(early, late)
  }

  /** The listener on `network`: the payloads of this graph's `data` signals, in order. */
  function Forwarded(events: seq<Signal>, name: string): (r: seq<Payload>)
    ensures |r| <= |events|
    ensures forall i :: 0 <= i < |r| ==> r[i].graph == Some(name)
  {
    if events == [] then []
    else
      var rest := Forwarded(events[1..], name);
      if events[0].command == "data" && events[0].payload.graph == Some(name)
      then [events[0].payload] + rest
      else rest
  }

  /** A clean session: the client connected, the graph loaded and uploaded,
      and `network.start` either succeeded or only timed out. */
  predicate CleanStart(rt: Runtime)
  {
    rt.clientFailed.None? && rt.loadError.None? && !rt.sendFailed && StartRejection(rt.startError).None?
  }

  /** After a clean start whose `until` returned, the session settles exactly
      as the terminal decision on the returned signals says. */
  lemma StartIsTerminalDecision(rt: Runtime, name: string)
    requires CleanStart(rt) && rt.observed.Some?
    ensures Start(rt, name) == TerminalDecision(rt.observed.value, name)
  {
  }

  /** A session succeeds exactly when it started cleanly and `until` returned
      a `stopped` signal of its own graph. */
  lemma StartResolvedOnlyOnOwnStop(rt: Runtime, name: string)
    ensures Start(rt, name) == Resolved <==>
      CleanStart(rt) && rt.observed.Some? && FindSignal(rt.observed.value, "stopped", name).Some?
  {
  }

  /** A `stopped` signal for this graph means success, even beside error signals. */
  lemma StoppedWins(rt: Runtime, name: string, i: nat)
    requires CleanStart(rt) && rt.observed.Some?
    requires i < |rt.observed.value|
    requires rt.observed.value[i].command == "stopped" && rt.observed.value[i].payload.graph == Some(name)
    ensures Start(rt, name) == Resolved
  {
  }

  /** Without a `stopped` signal the session fails with the first `error`
      signal, else the first `processerror`, else with no reason. */
  lemma ErrorPrecedence(signals: seq<Signal>, name: string)
    requires FindSignal(signals, "stopped", name).None?
    ensures FindSignal(signals, "error", name).Some? ==>
      TerminalDecision(signals, name) == Rejected(SignalFailed(FindSignal(signals, "error", name).value))
    ensures FindSignal(signals, "error", name).None? && FindSignal(signals, "processerror", name).Some? ==>
      TerminalDecision(signals, name) == Rejected(SignalFailed(FindSignal(signals, "processerror", name).value))
    ensures FindSignal(signals, "error", name).None? && FindSignal(signals, "processerror", name).None? ==>
      TerminalDecision(signals, name) == Rejected(NoReason)
  {
  }

  /** Inserting a signal that belongs to another graph changes no search. */
  lemma {:induction false} FindIgnoresForeign(a: seq<Signal>, s: Signal, b: seq<Signal>, command: string, name: string)
    requires s.payload.graph != Some(name)
    ensures FindSignal(a + [s] + b, command, name) == FindSignal(a + b, command, name)
    decreases |a|
  {
    if a == [] {
      assert a + [s] + b == [s] + b;
      assert ([s] + b)[1..] == b;
      assert a + b == b;
    } else {
      FindIgnoresForeign(a[1..], s, b, command, name);
      assert (a + [s] + b)[1..] == a[1..] + [s] + b;
      assert (a + b)[1..] == a[1..] + b;
    }
  }

  /** Signals naming other graphs are ignored by the terminal decision. */
  lemma ForeignSignalsIgnored(a: seq<Signal>, s: Signal, b: seq<Signal>, name: string)
    requires s.payload.graph != Some(name)
    ensures TerminalDecision(a + [s] + b, name) == TerminalDecision(a + b, name)
  {
    FindIgnoresForeign(a, s, b, "stopped", name);
    FindIgnoresForeign(a, s, b, "error", name);
    FindIgnoresForeign(a, s, b, "processerror", name);
  }

  /** `observer.until` also returns on another graph's `stopped`; with nothing
      of this graph's own among the signals, the session is rejected without
      a reason rather than succeeding. */
  lemma OtherGraphStopIsNotSuccess(other: Signal, name: string)
    requires other.command == "stopped" && other.payload.graph != Some(name)
    ensures TerminalDecision([other], name) == Rejected(NoReason)
  {
    ForeignSignalsIgnored([], other, [], name);
    assert [] + [other] + [] == [other];
  }

  /** The start timeout is swallowed: the session ends as if `network.start` had succeeded. */
  lemma StartTimeoutSwallowed(rt: Runtime, name: string)
    requires rt.startError == Some(StartTimeoutMessage)
    ensures Start(rt, name) == Start(rt.(startError := None), name)
  {
  }

  /** Any other start error decides the outcome, whatever signals follow. */
  lemma OtherStartErrorDecides(rt: Runtime, name: string)
    requires rt.clientFailed.None? && rt.loadError.None? && !rt.sendFailed
    requires rt.startError.Some? && rt.startError.value != StartTimeoutMessage
    ensures Start(rt, name) == Rejected(StartFailed(rt.startError.value))
  {
  }

  /** After a clean start the session settles exactly when `observer.until` returns. */
  lemma CleanStartSettlesOnSignals(rt: Runtime, name: string)
    requires CleanStart(rt)
    ensures Start(rt, name) == Pending <==> rt.observed.None?
  {
  }

  /** Forwarding proceeds signal by signal: the payloads forwarded from two
      stretches of the stream are those of each, in order. */
  lemma {:induction false} ForwardedAppend(a: seq<Signal>, b: seq<Signal>, name: string)
    ensures Forwarded(a + b, name) == Forwarded(a, name) + Forwarded(b, name)
    decreases |a|
  {
    if a == [] {
      assert a + b == b;
    } else {
      ForwardedAppend(a[1..], b, name);
      assert (a + b)[1..] == a[1..] + b;
    }
  }

  /** A single signal is forwarded exactly when it is a `data` signal of this graph. */
  lemma ForwardedOne(s: Signal, name: string)
    ensures Forwarded([s], name) == (if s.command == "data" && s.payload.graph == Some(name) then [s.payload] else [])
  {
    assert [s][1..] == [];
  }

  /** Every payload of this graph's `data` signals is forwarded. */
  lemma {:induction false} AllOwnDataForwarded(events: seq<Signal>, name: string, i: nat)
    requires i < |events|
    requires events[i].command == "data" && events[i].payload.graph == Some(name)
    ensures events[i].payload in Forwarded(events, name)
  {
    ForwardedAppend(events[..i], events[i..], name);
    assert events[..i] + events[i..] == events;
    assert events[i..] == [events[i]] + events[i + 1..];
    ForwardedAppend([events[i]], events[i + 1..], name);
    ForwardedOne(events[i], name);
  }
}
