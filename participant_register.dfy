/** The registration collector (src/participant_register.ts): a one-shot
    acceptor of form submissions bounded by a capacity and a deadline.

    `Collector` is the closure state of `standUpRegisterPageAndGetResults` as a
    value and `Step` is what one event does to it; the class
    `RegistrationPage` holds the same state in mutable fields and its methods
    are proved to perform exactly those steps. The lemmas about `Step` and
    `Run` state what the collector promises over any sequence of events. */
module ParticipantRegister {
  import opened JsValues
  import opened JsNumber
  import Constants

  /** One accepted registration (`ContactableConfig`); `kind` is the `type` field. */
  datatype Participant = Participant(id: string, kind: string, name: Option<string>)

  /** The fields of a submitted registration form. */
  datatype Submission = Submission(id: Option<string>, kind: Option<string>, name: Option<string>)

  /** `maxParticipants` as the collector receives it: an integral number, a
      string (what the configuration form always supplies), or any other value
      (a fraction, `undefined`, ...). */
  datatype MaxParticipants = Count(n: int) | Text(s: string) | OtherValue

  /** The answer of the form-post handler. */
  datatype Response =
    | Forbidden          // status 403: registration is closed
    | RedirectFailure    // redirect to `${mountPoint}?failure`
    | RedirectSuccess    // redirect to `${mountPoint}?success`

  /** `validInput`: a submission is accepted exactly when both `id` and `type`
      are present and non-empty; nothing else about them is checked. */
  function ValidInput(input: Submission): (ok: bool)
    ensures ok <==> input.id.Some? && input.id.value != "" && input.kind.Some? && input.kind.value != ""
  {
    if !Truthy(input.kind) || !Truthy(input.id) then false else true
  }

  /** `remainingTime(maxTime, startTime)` at the instant `now` (milliseconds):
      `maxTime - (now - startTime) / 1000` seconds, rounded by `toFixed()`;
      `None` when `maxTime` is `NaN`. */
  function RemainingTime(maxTime: Number, startTime: int, now: int): (r: Option<int>)
    ensures r.None? <==> maxTime.NaN?
    ensures maxTime.Finite? ==>
      var den := 1000 * Pow10(maxTime.exponent);
      var num := 1000 * maxTime.mantissa - (now - startTime) * Pow10(maxTime.exponent);
      -den <= 2 * (num - r.value * den) <= den
  {
    match maxTime
    case NaN => None
    case Finite(m, e) =>
      Some(RoundHalfAwayFromZero(1000 * m - (now - startTime) * Pow10(e), 1000 * Pow10(e)))
  }

  /** As time passes the remaining time never grows. */
  lemma RemainingTimeNonIncreasing(maxTime: Number, startTime: int, now1: int, now2: int)
    requires maxTime.Finite? && now1 <= now2
    ensures RemainingTime(maxTime, startTime, now2).value <= RemainingTime(maxTime, startTime, now1).value
  {
    var p := Pow10(maxTime.exponent);
    assert (now1 - startTime) * p <= (now2 - startTime) * p;
    RoundMonotone(1000 * maxTime.mantissa - (now2 - startTime) * p,
                  1000 * maxTime.mantissa - (now1 - startTime) * p, 1000 * p);
  }

  /** At the start, a whole number of seconds is shown as it is. */
  lemma RemainingTimeAtStart(seconds: int, startTime: int)
    ensures RemainingTime(Finite(seconds, 0), startTime, startTime) == Some(seconds)
  {
    RoundExact(seconds, 1000);
  }

  /** At the deadline the remaining time is zero. */
  lemma RemainingTimeAtDeadline(seconds: int, startTime: int)
    ensures RemainingTime(Finite(seconds, 0), startTime, startTime + 1000 * seconds) == Some(0)
  {
    RoundExact(0, 1000);
  }

  /** The closure state of one collector: the result list, the `calledComplete`
      latch, whether the deadline timer is still pending, and the value the
      returned promise was resolved with. */
  datatype Collector = Collector(
    maxParticipants: MaxParticipants,
    results: seq<Participant>,
    calledComplete: bool,
    timerPending: bool,
    resolved: Option<seq<Participant>>)

  /** The state right after stand-up: no results, open, timer armed. */
  function Open(maxParticipants: MaxParticipants): (c: Collector)
    ensures Invariant(c) && c.results == [] && !c.calledComplete
  {
    Collector(maxParticipants, [], false, true, None)
  }

  /** What every reachable collector state satisfies. */
  predicate Invariant(c: Collector)
  {
    && (c.calledComplete <==> c.resolved.Some?)
    && (c.resolved.Some? ==> c.resolved.value == c.results)
    && (c.timerPending <==> !c.calledComplete)
    && (c.maxParticipants.Count? && c.maxParticipants.n >= 1 ==>
          |c.results| <= c.maxParticipants.n
          && (!c.calledComplete ==> |c.results| < c.maxParticipants.n))
  }

  /** `results.length === maxParticipants`: only an integral number can be equal. */
  predicate CapacityReached(count: nat, max: MaxParticipants)
  {
    max.Count? && max.n == count
  }

  /** The effects of one event: the new state, the HTTP answer (for a
      submission), the copy handed to `eachNew`, and whether `resolve` ran. */
  datatype Outcome = Outcome(
    next: Collector,
    response: Option<Response>,
    notified: Option<Participant>,
    resolvedNow: bool)

  /** `complete()`: the first call sets the latch, clears the timer and
      resolves with the results; every later call does nothing. */
  function CompleteStep(c: Collector): (r: (Collector, bool))
    ensures r.1 <==> !c.calledComplete
    ensures c.calledComplete ==> r.0 == c
    ensures !c.calledComplete ==>
      r.0 == c.(calledComplete := true, timerPending := false, resolved := Some(c.results))
  {
    if c.calledComplete then (c, false)
    else (c.(calledComplete := true, timerPending := false, resolved := Some(c.results)), true)
  }

  /** The two things that can happen to a collector. */
  datatype Event = Post(input: Submission) | Timeout

  /** One event: the form-post handler, or the timer firing. */
  function Step(c: Collector, e: Event): (o: Outcome)
    ensures e.Timeout? ==> o.response.None? && o.notified.None?
    ensures e.Post? ==> o.response.Some?
    ensures o.next.maxParticipants == c.maxParticipants
  {
    match e
    case Timeout =>
      var (next, fired) := CompleteStep(c);
      Outcome(next, None, None, fired)
    case Post(input) =>
      if c.calledComplete then Outcome(c, Some(Forbidden), None, false)
      else if !ValidInput(input) then Outcome(c, Some(RedirectFailure), None, false)
      else
        var p := Participant(input.id.value, input.kind.value, input.name);
        var added := c.(results := c.results + [p]);
        if CapacityReached(|added.results|, c.maxParticipants) then
          var (next, fired) := CompleteStep(added);
          Outcome(next, Some(RedirectSuccess), Some(p), fired)
        else Outcome(added, Some(RedirectSuccess), Some(p), false)
  }

  /** Once closed, a submission gets 403 and changes nothing. */
  lemma SubmitWhenClosed(c: Collector, input: Submission)
    requires c.calledComplete
    ensures Step(c, Post(input)) == Outcome(c, Some(Forbidden), None, false)
  {
  }

  /** While open, an invalid submission is redirected to `?failure` and changes nothing. */
  lemma SubmitInvalid(c: Collector, input: Submission)
    requires !c.calledComplete && !ValidInput(input)
    ensures Step(c, Post(input)) == Outcome(c, Some(RedirectFailure), None, false)
  {
  }

  /** While open, a valid submission appends exactly `{id, type, name}`,
      hands an equal copy to `eachNew` once, and closes the collector exactly
      when the new count equals the maximum. */
  lemma SubmitValid(c: Collector, input: Submission)
    requires Invariant(c) && !c.calledComplete && ValidInput(input)
    ensures var o := Step(c, Post(input));
      var p := Participant(input.id.value, input.kind.value, input.name);
      && o.next.results == c.results + [p]
      && o.notified == Some(p)
      && o.response == Some(RedirectSuccess)
      && (o.next.calledComplete <==> CapacityReached(|c.results| + 1, c.maxParticipants))
      && o.resolvedNow == o.next.calledComplete
      && (o.next.calledComplete ==> !o.next.timerPending && o.next.resolved == Some(o.next.results))
  {
  }

  /** The deadline closes the collector whatever the count; it does nothing
      to one already closed. */
  lemma DeadlineCloses(c: Collector)
    requires Invariant(c)
    ensures var o := Step(c, Timeout);
      && o.next.calledComplete
      && o.next.results == c.results
      && o.next.resolved == Some(c.results)
      && (o.resolvedNow <==> !c.calledComplete)
      && (c.calledComplete ==> o.next == c)
  {
  }

  /** Every event keeps the collector valid; in particular an integral
      maximum of at least one is never exceeded. */
  lemma StepKeepsValid(c: Collector, e: Event)
    requires Invariant(c)
    ensures Invariant(Step(c, e).next)
  {
  }

  /** The state after a sequence of events. */
  function Run(c: Collector, es: seq<Event>): (r: Collector)
    ensures r.maxParticipants == c.maxParticipants
    decreases |es|
  {
    if es == [] then c else Run(Step(c, es[0]).next, es[1..])
  }

  /** How many times `resolve` is called during a sequence of events. */
  function ResolveCalls(c: Collector, es: seq<Event>): nat
    decreases |es|
  {
    if es == [] then 0
    else
      var o := Step(c, es[0]);
      (if o.resolvedNow then 1 else 0) + ResolveCalls(o.next, es[1..])
  }

  /** The participants handed to `eachNew` during a sequence of events, in order. */
  function Notifications(c: Collector, es: seq<Event>): seq<Participant>
    decreases |es|
  {
    if es == [] then []
    else
      var o := Step(c, es[0]);
      (if o.notified.Some? then [o.notified.value] else []) + Notifications(o.next, es[1..])
  }

  /** The HTTP answers given during a sequence of events, in order. */
  function Responses(c: Collector, es: seq<Event>): seq<Response>
    decreases |es|
  {
    if es == [] then []
    else
      var o := Step(c, es[0]);
      (if o.response.Some? then [o.response.value] else []) + Responses(o.next, es[1..])
  }

  /** Any sequence of events keeps the collector valid. */
  lemma {:induction false} RunKeepsValid(c: Collector, es: seq<Event>)
    requires Invariant(c)
    ensures Invariant(Run(c, es))
    decreases |es|
  {
    if es != [] {
      StepKeepsValid(c, es[0]);
      RunKeepsValid(Step(c, es[0]).next, es[1..]);
    }
  }

  /** With an integral maximum `n >= 1`, no interleaving of submissions and
      the deadline ever collects more than `n` participants. */
  lemma NeverAboveCapacity(n: int, es: seq<Event>)
    requires n >= 1
    ensures |Run(Open(Count(n)), es).results| <= n
  {
    RunKeepsValid(Open(Count(n)), es);
  }

  /** The completion latch: `resolve` runs at most once over any interleaving
      of submissions and the deadline, and never again once closed. */
  lemma {:induction false} ResolvedAtMostOnce(c: Collector, es: seq<Event>)
    requires Invariant(c)
    ensures ResolveCalls(c, es) <= (if c.calledComplete then 0 else 1)
    ensures Run(c, es).calledComplete ==> c.calledComplete || ResolveCalls(c, es) == 1
    decreases |es|
  {
    if es != [] {
      var o := Step(c, es[0]);
      StepKeepsValid(c, es[0]);
      ResolvedAtMostOnce(o.next, es[1..]);
    }
  }

  /** A closed collector is frozen: every later submission is refused with
      403, nothing is appended and nobody is notified. */
  lemma {:induction false} ClosedIsFrozen(c: Collector, es: seq<Event>)
    requires c.calledComplete
    ensures Run(c, es) == c
    ensures Notifications(c, es) == []
    ensures forall i :: 0 <= i < |Responses(c, es)| ==> Responses(c, es)[i] == Forbidden
    decreases |es|
  {
    if es != [] {
      ClosedIsFrozen(c, es[1..]);
    }
  }

  /** The result list only grows at its end, and what it gains is exactly the
      sequence of copies handed to `eachNew`. */
  lemma {:induction false} ResultsAreNotifications(c: Collector, es: seq<Event>)
    ensures Run(c, es).results == c.results + Notifications(c, es)
    decreases |es|
  {
    if es != [] {
      var o := Step(c, es[0]);
      ResultsAreNotifications(o.next, es[1..]);
      if o.notified.Some? {
        assert o.next.results == c.results + [o.notified.value];
      } else {
        assert o.next.results == c.results;
      }
    }
  }

  /** A maximum that is not an integral number (the form's `'*'` or `'3'`)
      never closes the collector by capacity: only the deadline does. */
  lemma {:induction false} NonNumberNeverFills(c: Collector, es: seq<Event>)
    requires !c.calledComplete && !c.maxParticipants.Count?
    requires forall i :: 0 <= i < |es| ==> es[i].Post?
    ensures !Run(c, es).calledComplete
    decreases |es|
  {
    if es != [] {
      NonNumberNeverFills(Step(c, es[0]).next, es[1..]);
    }
  }

  /** Once the deadline is among the events the collector ends closed, and
      it resolved with the very results it ends with. */
  lemma {:induction false} DeadlineEventuallyCloses(c: Collector, es: seq<Event>)
    requires Invariant(c)
    requires Timeout in es
    ensures Run(c, es).calledComplete
    ensures Run(c, es).resolved == Some(Run(c, es).results)
    decreases |es|
  {
    var o := Step(c, es[0]);
    StepKeepsValid(c, es[0]);
    if es[0] == Timeout {
      ClosedIsFrozen(o.next, es[1..]);
    } else {
      DeadlineEventuallyCloses(o.next, es[1..]);
    }
  }

  /** A collector whose maximum is one closes on its first valid submission,
      with that single entry, without waiting for the deadline. */
  lemma SingleSlotClosesAtOnce(input: Submission)
    requires ValidInput(input)
    ensures var o := Step(Open(Count(1)), Post(input));
      o.next.calledComplete && o.resolvedNow && |o.next.results| == 1
      && o.next.resolved == Some([Participant(input.id.value, input.kind.value, input.name)])
  {
    var p := Participant(input.id.value, input.kind.value, input.name);
    assert [] + [p] == [p];
  }

  /** `standUpRegisterPageAndGetResults`: the collector's closure state as an object. */
  class RegistrationPage {
    const mountPoint: string
    const formHandler: string
    const maxTime: Number
    const maxParticipants: MaxParticipants
    const processDescription: string
    const startTime: int
    var results: seq<Participant>
    var calledComplete: bool
    var timerPending: bool
    var resolved: Option<seq<Participant>>

    /** The fields as a `Collector` value. */
    function State(): Collector
      reads this
    {
      Collector(maxParticipants, results, calledComplete, timerPending, resolved)
    }

    ghost predicate Valid()
      reads this
    {
      Invariant(State())
    }

    /** Stand-up: capture the start time, arm the timer, derive the form-post route. */
    constructor (mountPoint: string, maxTime: Number, maxParticipants: MaxParticipants,
                 processDescription: string, startTime: int)
      ensures Valid() && State() == Open(maxParticipants)
      ensures this.mountPoint == mountPoint && this.maxTime == maxTime
      ensures this.processDescription == processDescription && this.startTime == startTime
      ensures formHandler == Constants.HandleRegister(mountPoint)
    {
      this.mountPoint := mountPoint;
      this.formHandler := Constants.HandleRegister(mountPoint);
      this.maxTime := maxTime;
      this.maxParticipants := maxParticipants;
      this.processDescription := processDescription;
      this.startTime := startTime;
      results := [];
      calledComplete := false;
      timerPending := true;
      resolved := None;
    }

    /** The one-shot `complete` handler. */
    method Complete() returns (resolvedNow: bool)
      modifies this
      ensures (State(), resolvedNow) == CompleteStep(old(State()))
      ensures old(Valid()) ==> Valid()
    {
      resolvedNow := false;
      if !calledComplete {
        calledComplete := true;
        timerPending := false;   // the deadline timer is cancelled
        resolved := Some(results);
        resolvedNow := true;
      }
    }

    /** The form-post handler. */
    method Submit(input: Submission) returns (response: Response, notified: Option<Participant>)
      requires Valid()
      modifies this
      ensures Valid()
      ensures var o := Step(old(State()), Post(input));
        State() == o.next && o.response == Some(response) && notified == o.notified
    {
      if calledComplete {
        return Forbidden, None;
      }
      if !ValidInput(input) {
        return RedirectFailure, None;
      }
      var p := Participant(input.id.value, input.kind.value, input.name);
      results := results + [p];
      notified := Some(p);   // the callback receives a copy of the new entry
      if CapacityReached(|results|, maxParticipants) {
        var _ := Complete();
      }
      response := RedirectSuccess;
    }

    /** The deadline timer firing. */
    method Deadline()
      requires Valid()
      modifies this
      ensures Valid()
      ensures State() == Step(old(State()), Timeout).next
    {
      var _ := Complete();
    }

    /** The remaining time the registration page shows at instant `now`. */
    function RemainingTimeAt(now: int): (r: Option<int>)
      reads this
      ensures r.None? <==> maxTime.NaN?
    {
      RemainingTime(maxTime, startTime, now)
    }
  }
}
