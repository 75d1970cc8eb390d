/** `getParticipantConfigs` (run_graph.js:127-141): the three stage
    configurations read from the configuration form, with their defaults. */
module ParticipantConfigs {
  import opened JsValues
  import opened JsNumber
  import opened ParticipantRegister

  datatype ParticipantConfig = ParticipantConfig(
    stage: string,
    isFacilitator: bool,
    processContext: string,
    maxTime: Number,                   // seconds
    maxParticipants: MaxParticipants)

  /** The three stages, in order. */
  const Stages: seq<string> := ["CollectResponses", "ResponseForEach", "SendMessageToAll"]

  /** The process context each stage falls back to. */
  const DefaultContexts: seq<string> := ["Ideation", "Reaction", "Summary"]

  /** Five minutes, the default `maxTime`, in seconds. */
  const DefaultMaxTime: Number := Finite(300, 0)

  function FacilitatorKey(stage: string): string { stage + "-check-facil_register" }
  function ContextKey(stage: string): string { stage + "-ParticipantRegister-process_context" }
  function MaxTimeKey(stage: string): string { stage + "-ParticipantRegister-max_time" }
  function MaxParticipantsKey(stage: string): string { stage + "-ParticipantRegister-max_participants" }

  /** The configuration of stage `index`. */
  function StageConfig(form: Form, index: nat): (c: ParticipantConfig)
    requires index < 3
    ensures c.stage == Stages[index]
    ensures c.isFacilitator <==> Lookup(form, FacilitatorKey(Stages[index])) == Some("facil_register")
    ensures c.processContext == OrElse(Lookup(form, ContextKey(Stages[index])), DefaultContexts[index])
    ensures !Truthy(Lookup(form, MaxTimeKey(Stages[index]))) ==> c.maxTime == DefaultMaxTime
    ensures Truthy(Lookup(form, MaxTimeKey(Stages[index]))) ==>
      c.maxTime == Times(ToNumber(form[MaxTimeKey(Stages[index])]), 60)
    ensures c.maxParticipants == Text(OrElse(Lookup(form, MaxParticipantsKey(Stages[index])), "*"))
  {
    var s := Stages[index];
    var time := Lookup(form, MaxTimeKey(s));
    ParticipantConfig(
      s,
      Lookup(form, FacilitatorKey(s)) == Some("facil_register"),
      OrElse(Lookup(form, ContextKey(s)), DefaultContexts[index]),
      if Truthy(time) then Times(ToNumber(time.value), 60) else DefaultMaxTime,
      Text(OrElse(Lookup(form, MaxParticipantsKey(s)), "*")))
  }

  /** `getParticipantConfigs(formInput)`: one configuration per stage, in stage order. */
  function GetParticipantConfigs(form: Form): (r: seq<ParticipantConfig>)
    ensures |r| == 3
    ensures forall i :: 0 <= i < 3 ==> r[i] == StageConfig(form, i)
  {
    [StageConfig(form, 0), StageConfig(form, 1), StageConfig(form, 2)]
  }

  /** An empty form gives the defaults: not facilitated, the stage's own
      context, five minutes and the unlimited marker `'*'`. */
  lemma EmptyFormDefaults(i: nat)
    requires i < 3
    ensures GetParticipantConfigs(map[])[i]
      == ParticipantConfig(Stages[i], false, DefaultContexts[i], DefaultMaxTime, Text("*"))
  {
  }

  /** A whole number of minutes typed into the form becomes that many minutes in seconds. */
  lemma WholeMinutes(form: Form, i: nat, minutes: nat)
    requires i < 3
    requires Lookup(form, MaxTimeKey(Stages[i])) == Some(DecimalString(minutes))
    ensures GetParticipantConfigs(form)[i].maxTime == Finite(60 * minutes, 0)
  {
    ToNumberOfDecimal(minutes);
  }

  /** The form always supplies the maximum as text, so `results.length ===
      maxParticipants` can never hold and a collector configured from the form
      is closed by its deadline alone, whatever is submitted. */
  lemma FormCollectorsNeverFill(form: Form, i: nat, es: seq<Event>)
    requires i < 3
    requires forall k :: 0 <= k < |es| ==> es[k].Post?
    ensures !Run(Open(GetParticipantConfigs(form)[i].maxParticipants), es).calledComplete
  {
    NonNumberNeverFills(Open(GetParticipantConfigs(form)[i].maxParticipants), es);
  }
}
