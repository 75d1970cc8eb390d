/** The `processes` table of run_graph.js (lines 17, 26-48 and 51-122): one
    record per launched process, moved through its lifecycle by the
    collectors' callbacks, the join of the three collectors, the run's data
    signals and the run's settlement. `Apply` is the pure transition; the
    class `ProcessTable` holds the table and its methods perform `Apply` in place. */
module ProcessStore {
  import opened JsValues
  import opened JsNumber
  import Constants
  import PR = ParticipantRegister
  import opened ParticipantConfigs
  import opened SheetInputs
  import opened GraphOverride
  import opened RunSession

  /** The three collector stages, in order. */
  datatype Stage = Ideation | Reaction | Summary

  function StageIndex(s: Stage): (i: nat)
    ensures i < 3
  {
    match s
    case Ideation => 0
    case Reaction => 1
    case Summary => 2
  }

  /** The id of the connection whose data signal carries the final results. */
  const ResultsMarker: string := "rsf/FormatReactionsList_cukq9() FORMATTED -> IN core/MakeFunction_lsxgf()"

  /** One entry of `processes`. `running` and `complete` start absent (falsy);
      `error` is `None` until the run's promise rejects, and `Some(NoReason)`
      is the `undefined` that `reject(undefined)` stores. */
  datatype ProcessRecord = ProcessRecord(
    processId: string,
    startTime: int,
    participantConfigs: seq<ParticipantConfig>,
    paths: seq<string>,
    inputs: Form,
    configuring: bool,
    running: bool,
    complete: bool,
    error: Option<Reason>,
    ideationParticipants: seq<PR.Participant>,
    reactionParticipants: seq<PR.Participant>,
    summaryParticipants: seq<PR.Participant>,
    results: Option<Json>)

  /** `config[`${stage}Participants`]`. */
  function StageList(r: ProcessRecord, s: Stage): seq<PR.Participant>
  {
    match s
    case Ideation => r.ideationParticipants
    case Reaction => r.reactionParticipants
    case Summary => r.summaryParticipants
  }

  /** The record with one stage list replaced and everything else kept. */
  function WithStageList(r: ProcessRecord, s: Stage, list: seq<PR.Participant>): (r': ProcessRecord)
    ensures StageList(r', s) == list
    ensures forall t :: t != s ==> StageList(r', t) == StageList(r, t)
    ensures r'.configuring == r.configuring && r'.running == r.running
    ensures r'.complete == r.complete && r'.error == r.error && r'.results == r.results
    ensures r'.participantConfigs == r.participantConfigs && r'.paths == r.paths
    ensures r'.startTime == r.startTime && r'.inputs == r.inputs && r'.processId == r.processId
  {
    match s
    case Ideation => r.(ideationParticipants := list)
    case Reaction => r.(reactionParticipants := list)
    case Summary => r.(summaryParticipants := list)
  }

  /** The record saved by the launch handler (run_graph.js:65-75). */
  function NewRecord(processId: string, startTime: int, form: Form, paths: seq<string>): (r: ProcessRecord)
    ensures r.configuring && !r.running && !r.complete && r.error.None? && r.results.None?
    ensures forall s :: StageList(r, s) == []
    ensures r.participantConfigs == GetParticipantConfigs(form) && r.paths == paths && r.inputs == form
  {
    ProcessRecord(processId, startTime, GetParticipantConfigs(form), paths, form,
      true, false, false, None, [], [], [], None)
  }

  /** What can happen to a record. */
  datatype ProcessEvent =
    | Registered(stage: Stage, p: PR.Participant)            // the stage's per-entry callback
    | StageResolved(stage: Stage, list: seq<PR.Participant>) // the stage's promise resolved
    | AllResolved                                            // `Promise.all(promises)` resolved
    | Data(payload: Payload)                                 // `dataWatcher` got a forwarded payload
    | RunSettled(outcome: Settlement)                        // the promise returned by `start` settled

  /** The effect of one event on a record (run_graph.js:80-116). The
      identity, start time, configurations, paths and form of a record never
      change after launch, and only the join and the run's settlement touch
      the phase flags. */
  function Apply(r: ProcessRecord, e: ProcessEvent): (r': ProcessRecord)
    ensures && r'.processId == r.processId && r'.startTime == r.startTime
            && r'.participantConfigs == r.participantConfigs && r'.paths == r.paths
            && r'.inputs == r.inputs
    ensures !e.AllResolved? && !e.RunSettled? ==>
      && r'.configuring == r.configuring && r'.running == r.running
      && r'.complete == r.complete && r'.error == r.error
  {
    match e
    case Registered(s, p) => WithStageList(r, s, StageList(r, s) + [p])
    case StageResolved(s, list) => WithStageList(r, s, list)
    case AllResolved => r.(configuring := false, running := true)
    case Data(payload) =>
      if payload.id == Some(ResultsMarker) then r.(results := Some(payload.data)) else r
    case RunSettled(outcome) =>
      match outcome
      case Resolved => r.(running := false, complete := true)
      case Rejected(reason) => r.(running := false, error := Some(reason))
      case Pending => r
  }

  /** Where a record is in its lifecycle. */
  datatype Phase = Configuring | Running | Complete | Failed

  /** Exactly one phase flag is set, and there are three stages. */
  predicate WellFormed(r: ProcessRecord)
  {
    && |r.participantConfigs| == 3 && |r.paths| == 3
    && (if r.configuring then !r.running && !r.complete && r.error.None?
        else if r.running then !r.complete && r.error.None?
        else if r.complete then r.error.None?
        else r.error.Some?)
  }

  function PhaseOf(r: ProcessRecord): Phase
  {
    if r.configuring then Configuring
    else if r.running then Running
    else if r.complete then Complete
    else Failed
  }

  function Rank(p: Phase): nat
  {
    match p
    case Configuring => 0
    case Running => 1
    case Complete => 2
    case Failed => 2
  }

  /** The orders the program's callbacks can run in: the collectors report
      only while configuring, the join fires once, data and settlement come
      from the run, and the run settles while it is running. */
  predicate Allowed(r: ProcessRecord, e: ProcessEvent)
  {
    match e
    case Registered(_, _) => r.configuring
    case StageResolved(_, _) => r.configuring
    case AllResolved => r.configuring
    case Data(_) => !r.configuring
    case RunSettled(_) => r.running
  }

  /** A fresh record is configuring, with three stages. */
  lemma NewRecordWellFormed(processId: string, startTime: int, form: Form, paths: seq<string>)
    requires |paths| == 3
    ensures WellFormed(NewRecord(processId, startTime, form, paths))
    ensures PhaseOf(NewRecord(processId, startTime, form, paths)) == Configuring
  {
  }

  /** An allowed event keeps exactly one phase flag set and never moves the phase back. */
  lemma ApplyKeepsWellFormed(r: ProcessRecord, e: ProcessEvent)
    requires WellFormed(r) && Allowed(r, e)
    ensures WellFormed(Apply(r, e))
    ensures Rank(PhaseOf(r)) <= Rank(PhaseOf(Apply(r, e)))
    ensures PhaseOf(r) == Complete || PhaseOf(r) == Failed ==> PhaseOf(Apply(r, e)) == PhaseOf(r)
  {
  }

  /** A per-entry callback appends to its own stage list and touches nothing else. */
  lemma RegisteredAppendsToOwnStage(r: ProcessRecord, s: Stage, p: PR.Participant)
    ensures StageList(Apply(r, Registered(s, p)), s) == StageList(r, s) + [p]
    ensures forall t :: t != s ==> StageList(Apply(r, Registered(s, p)), t) == StageList(r, t)
    ensures PhaseOf(Apply(r, Registered(s, p))) == PhaseOf(r)
  {
  }

  /** The join of the three collectors moves a configuring record to running. */
  lemma AllResolvedStartsRunning(r: ProcessRecord)
    requires WellFormed(r) && r.configuring
    ensures var r' := Apply(r, AllResolved);
      !r'.configuring && r'.running && PhaseOf(r') == Running
      && forall s :: StageList(r', s) == StageList(r, s)
  {
  }

  /** A run that resolves leaves the record complete; one that rejects leaves
      it failed with that reason; a run that never settles leaves it running. */
  lemma RunSettlement(r: ProcessRecord, outcome: Settlement)
    requires WellFormed(r) && r.running
    ensures var r' := Apply(r, RunSettled(outcome));
      && (outcome == Resolved ==> !r'.running && r'.complete && r'.error.None? && PhaseOf(r') == Complete)
      && (outcome.Rejected? ==> !r'.running && !r'.complete && r'.error == Some(outcome.reason) && PhaseOf(r') == Failed)
      && (outcome == Pending ==> r' == r)
  {
  }

  /** Replays events in order. */
  function Replay(r: ProcessRecord, es: seq<ProcessEvent>): ProcessRecord
    decreases |es|
  {
    if es == [] then r else Replay(Apply(r, es[0]), es[1..])
  }

  /** Every event is allowed in the state it meets. */
  predicate AllowedTrace(r: ProcessRecord, es: seq<ProcessEvent>)
    decreases |es|
  {
    es == [] || (Allowed(r, es[0]) && AllowedTrace(Apply(r, es[0]), es[1..]))
  }

  /** Along any allowed trace the record stays well formed, its phase never
      moves back, and a finished record stays finished in the same way. */
  lemma {:induction false} TraceKeepsWellFormed(r: ProcessRecord, es: seq<ProcessEvent>)
    requires WellFormed(r) && AllowedTrace(r, es)
    ensures WellFormed(Replay(r, es))
    ensures Rank(PhaseOf(r)) <= Rank(PhaseOf(Replay(r, es)))
    ensures PhaseOf(r) == Complete || PhaseOf(r) == Failed ==> PhaseOf(Replay(r, es)) == PhaseOf(r)
    decreases |es|
  {
    if es != [] {
      ApplyKeepsWellFormed(r, es[0]);
      TraceKeepsWellFormed(Apply(r, es[0]), es[1..]);
    }
  }

  /** The per-entry callbacks for one stage, one after the other. */
  function RegisterAll(r: ProcessRecord, s: Stage, ps: seq<PR.Participant>): ProcessRecord
    decreases |ps|
  {
    if ps == [] then r else RegisterAll(Apply(r, Registered(s, ps[0])), s, ps[1..])
  }

  lemma {:induction false} RegisterAllAppends(r: ProcessRecord, s: Stage, ps: seq<PR.Participant>)
    ensures StageList(RegisterAll(r, s, ps), s) == StageList(r, s) + ps
    ensures RegisterAll(r, s, ps) == WithStageList(r, s, StageList(r, s) + ps)
    decreases |ps|
  {
    if ps != [] {
      var r1 := Apply(r, Registered(s, ps[0]));
      RegisterAllAppends(r1, s, ps[1..]);
      assert StageList(r, s) + [ps[0]] + ps[1..] == StageList(r, s) + ps;
      assert WithStageList(r1, s, StageList(r, s) + ps) == WithStageList(r, s, StageList(r, s) + ps) by {
        match s
        case Ideation =>
        case Reaction =>
        case Summary =>
      }
    }
  }

  /** Starting from an empty stage list, once the collector has closed (by
      its deadline or by capacity) the list the per-entry callbacks build is
      exactly the list the collector resolves with, so replacing it
      by the resolved list (run_graph.js:86-94) changes nothing. */
  lemma LiveListMatchesResolved(r: ProcessRecord, s: Stage, max: PR.MaxParticipants, es: seq<PR.Event>)
    requires StageList(r, s) == []
    requires PR.Run(PR.Open(max), es).calledComplete
    ensures var live := RegisterAll(r, s, PR.Notifications(PR.Open(max), es));
      var final := PR.Run(PR.Open(max), es);
      && final.resolved.Some?
      && StageList(live, s) == final.resolved.value
      && Apply(live, StageResolved(s, final.resolved.value)) == live
  {
    var c := PR.Open(max);
    var ns := PR.Notifications(c, es);
    var final := PR.Run(c, es);
    PR.ResultsAreNotifications(c, es);
    PR.RunKeepsValid(c, es);
    assert final.resolved == Some(final.results);
    assert final.results == ns by {
      assert c.results + ns == [] + ns == ns;
    }
    RegisterAllAppends(r, s, ns);
    var live := RegisterAll(r, s, ns);
    assert StageList(live, s) == ns by {
      assert StageList(r, s) + ns == [] + ns == ns;
    }
    StageResolvedWithOwnList(live, s);
  }

  /** Resolving a stage with the list it already holds changes nothing. */
  lemma StageResolvedWithOwnList(r: ProcessRecord, s: Stage)
    ensures Apply(r, StageResolved(s, StageList(r, s))) == r
  {
    match s
    case Ideation =>
    case Reaction =>
    case Summary =>
  }

  /** The forwarded payloads handed to `dataWatcher`, one after the other. */
  function RecordAll(r: ProcessRecord, ps: seq<Payload>): ProcessRecord
    decreases |ps|
  {
    if ps == [] then r else RecordAll(Apply(r, Data(ps[0])), ps[1..])
  }

  /** Payloads without the marker id leave the record as it was. */
  lemma {:induction false} UnmarkedDataIgnored(r: ProcessRecord, ps: seq<Payload>)
    requires forall j :: 0 <= j < |ps| ==> ps[j].id != Some(ResultsMarker)
    ensures RecordAll(r, ps) == r
    decreases |ps|
  {
    if ps != [] {
      UnmarkedDataIgnored(r, ps[1..]);
    }
  }

  /** The saved results are the data of the last payload with the marker id,
      and nothing else in the record changes. */
  lemma {:induction false} LastMarkedResultsKept(r: ProcessRecord, ps: seq<Payload>, i: nat)
    requires i < |ps| && ps[i].id == Some(ResultsMarker)
    requires forall j :: i < j < |ps| ==> ps[j].id != Some(ResultsMarker)
    ensures RecordAll(r, ps) == r.(results := Some(ps[i].data))
    decreases |ps|
  {
    if i == 0 {
      UnmarkedDataIgnored(Apply(r, Data(ps[0])), ps[1..]);
    } else {
      var r1 := Apply(r, Data(ps[0]));
      LastMarkedResultsKept(r1, ps[1..], i - 1);
      assert r1.(results := Some(ps[i].data)) == r.(results := Some(ps[i].data));
    }
  }

  /** The keys computed for one stage of the configuration page (run_graph.js:30-40). */
  datatype StageView = StageView(
    isFacilitator: bool,
    showParticipants: bool,
    url: string,
    remainingTime: Option<int>,
    formHandler: string,
    showForm: bool)

  /** The view keys of stage `s` for a page rendered at `now`, with `baseUrl` for `process.env.URL`. */
  function StageViewOf(r: ProcessRecord, s: Stage, baseUrl: string, now: int): (v: StageView)
    requires WellFormed(r)
    ensures v.isFacilitator == r.participantConfigs[StageIndex(s)].isFacilitator
    ensures v.showForm ==> v.isFacilitator && !v.showParticipants
    ensures v.remainingTime.None? <==> r.participantConfigs[StageIndex(s)].maxTime.NaN?
  {
    var i := StageIndex(s);
    var config := r.participantConfigs[i];
    StageView(
      config.isFacilitator,
      |StageList(r, s)| != 0,
      baseUrl + r.paths[i],
      PR.RemainingTime(config.maxTime, r.startTime, now),
      Constants.HandleRegister(r.paths[i]),
      config.isFacilitator && |StageList(r, s)| == 0)
  }

  /** The facilitator's form is shown exactly when the stage is facilitated and
      nobody is registered yet; the form and the participant list never show together. */
  lemma ShowFormExactly(r: ProcessRecord, s: Stage, baseUrl: string, now: int)
    requires WellFormed(r)
    ensures var v := StageViewOf(r, s, baseUrl, now);
      && (v.showForm <==> v.isFacilitator && StageList(r, s) == [])
      && (v.showParticipants <==> StageList(r, s) != [])
      && !(v.showForm && v.showParticipants)
  {
  }

  /** The stage's form posts below its own page route, and the link is that
      route under the site's address. */
  lemma StageRoutes(r: ProcessRecord, s: Stage, baseUrl: string, now: int)
    requires WellFormed(r)
    ensures var v := StageViewOf(r, s, baseUrl, now);
      var path := r.paths[StageIndex(s)];
      && v.formHandler == path + Constants.HandleRegisterSuffix
      && v.formHandler != path
      && v.url[..|baseUrl|] == baseUrl && v.url[|baseUrl|..] == path
  {
    Constants.HandleRegisterIsBelowPage(r.paths[StageIndex(s)]);
  }

  /** At the process start, a stage whose maximum time is a whole number of
      seconds shows that full time. */
  lemma ViewAtStartShowsFullTime(r: ProcessRecord, s: Stage, baseUrl: string, seconds: int)
    requires WellFormed(r)
    requires r.participantConfigs[StageIndex(s)].maxTime == Finite(seconds, 0)
    ensures StageViewOf(r, s, baseUrl, r.startTime).remainingTime == Some(seconds)
  {
    PR.RemainingTimeAtStart(seconds, r.startTime);
  }

  /** The members every plain JavaScript object inherits from
      `Object.prototype`: `processes[id]` finds them for an id the table does
      not hold. */
  const InheritedNames: set<string> := {
    "constructor", "__proto__", "__defineGetter__", "__defineSetter__",
    "__lookupGetter__", "__lookupSetter__", "hasOwnProperty", "isPrototypeOf",
    "propertyIsEnumerable", "toLocaleString", "toString", "valueOf"
  }

  /** The answer of the configuration page route. */
  datatype Page =
    | NotFound                        // 404
    | ServerError                     // a `TypeError` in the handler: Express answers 500
    | Views(stages: seq<StageView>)   // the rendered page

  /** `const processes = {}` and the handlers that update it. */
  class ProcessTable {
    var processes: map<string, ProcessRecord>

    ghost predicate Valid()
      reads this
    {
      forall id :: id in processes ==> WellFormed(processes[id])
    }

    constructor ()
      ensures processes == map[] && Valid()
    {
      processes := map[];
    }

    /** The launch handler saves a new record (run_graph.js:65-75). */
    method Launch(processId: string, startTime: int, form: Form, paths: seq<string>)
      requires Valid() && |paths| == 3
      modifies this
      ensures Valid()
      ensures processes == old(processes)[processId := NewRecord(processId, startTime, form, paths)]
    {
      processes := processes[processId := NewRecord(processId, startTime, form, paths)];
    }

    /** A stage's per-entry callback: `push(newP)` onto that stage's list (run_graph.js:80-82). */
    method AddParticipant(processId: string, s: Stage, p: PR.Participant)
      requires processId in processes
      modifies this
      ensures processes == old(processes)[processId := Apply(old(processes)[processId], Registered(s, p))]
      ensures old(Valid()) && Allowed(old(processes)[processId], Registered(s, p)) ==> Valid()
    {
      var r := processes[processId];
      match s {
        case Ideation => r := r.(ideationParticipants := r.ideationParticipants + [p]);
        case Reaction => r := r.(reactionParticipants := r.reactionParticipants + [p]);
        case Summary => r := r.(summaryParticipants := r.summaryParticipants + [p]);
      }
      processes := processes[processId := r];
    }

    /** A stage's promise resolved: its list is replaced by the resolved one (run_graph.js:86-94). */
    method ReplaceStage(processId: string, s: Stage, list: seq<PR.Participant>)
      requires processId in processes
      modifies this
      ensures processes == old(processes)[processId := Apply(old(processes)[processId], StageResolved(s, list))]
      ensures old(Valid()) && Allowed(old(processes)[processId], StageResolved(s, list)) ==> Valid()
    {
      var r := processes[processId];
      match s {
        case Ideation => r := r.(ideationParticipants := list);
        case Reaction => r := r.(reactionParticipants := list);
        case Summary => r := r.(summaryParticipants := list);
      }
      processes := processes[processId := r];
    }

    /** The join of the three collectors: mark the record running, then
        compile the bindings and the graph to run (run_graph.js:96-101).
        When the options field is missing the conversion throws and no graph
        is produced; the record has been marked running already. */
    method BeginRun(processId: string, lists: seq<seq<PR.Participant>>, template: Graph, randomPart: string)
      returns (graph: Result<Graph, ConvertError>)
      requires processId in processes && |lists| == 3
      modifies this
      ensures processes == old(processes)[processId := Apply(old(processes)[processId], AllResolved)]
      ensures old(Valid()) && Allowed(old(processes)[processId], AllResolved) ==> Valid()
      ensures var converted := ConvertDataFromSheetToRSF(old(processes)[processId].inputs, lists[0], lists[1], lists[2]);
        && (graph.Failure? <==> converted.Failure?)
        && (graph.Success? ==> graph.value == OverrideJsonGraph(converted.value, template, randomPart))
    {
      var r := processes[processId];
      processes := processes[processId := r.(configuring := false, running := true)];
      var converted := ConvertDataFromSheetToRSF(r.inputs, lists[0], lists[1], lists[2]);
      if converted.Failure? {
        graph := Failure(converted.error);
      } else {
        graph := Success(OverrideJsonGraph(converted.value, template, randomPart));
      }
    }

    /** `dataWatcher`: a payload from the marked connection becomes the results (run_graph.js:102-107). */
    method RecordData(processId: string, payload: Payload)
      requires processId in processes
      modifies this
      ensures processes == old(processes)[processId := Apply(old(processes)[processId], Data(payload))]
      ensures old(Valid()) && Allowed(old(processes)[processId], Data(payload)) ==> Valid()
    {
      if payload.id == Some(ResultsMarker) {
        var r := processes[processId];
        processes := processes[processId := r.(results := Some(payload.data))];
      }
    }

    /** The run's promise settled (run_graph.js:109-116). */
    method Settle(processId: string, outcome: Settlement)
      requires processId in processes
      modifies this
      ensures processes == old(processes)[processId := Apply(old(processes)[processId], RunSettled(outcome))]
      ensures old(Valid()) && Allowed(old(processes)[processId], RunSettled(outcome)) ==> Valid()
    {
      var r := processes[processId];
      match outcome {
        case Resolved =>
          processes := processes[processId := r.(running := false, complete := true)];
        case Rejected(reason) =>
          processes := processes[processId := r.(running := false, error := Some(reason))];
        case Pending =>
      }
    }

    /** The configuration page of a process (run_graph.js:26-48): its stage
        views; 404 for an id the table does not hold; 500 for an id naming an
        inherited member of the plain-object table, whose truthy value has no
        `participantConfigs`, so the handler throws a `TypeError`. */
    function ConfigurePage(processId: string, baseUrl: string, now: int): (page: Page)
      reads this
      requires Valid()
      ensures page.NotFound? <==> processId !in processes && processId !in InheritedNames
      ensures page.ServerError? <==> processId !in processes && processId in InheritedNames
      ensures page.Views? ==>
        && processId in processes
        && |page.stages| == 3
        && page.stages[0] == StageViewOf(processes[processId], Ideation, baseUrl, now)
        && page.stages[1] == StageViewOf(processes[processId], Reaction, baseUrl, now)
        && page.stages[2] == StageViewOf(processes[processId], Summary, baseUrl, now)
    {
      if processId in processes then
        var r := processes[processId];
        Views([StageViewOf(r, Ideation, baseUrl, now), StageViewOf(r, Reaction, baseUrl, now),
               StageViewOf(r, Summary, baseUrl, now)])
      else if processId in InheritedNames then ServerError
      else NotFound
    }
  }
}
