/** `convertDataFromSheetToRSF` (run_graph.js:225-301): the eight graph input
    bindings compiled from the configuration form and the three collected
    participant lists. */
module SheetInputs {
  import opened JsValues
  import opened JsNumber
  import opened OptionsData
  import ParticipantRegister

  /** A graph inport: `{process, port}`. */
  datatype InputType = InputType(process: string, port: string)

  /** What a binding carries into the graph. */
  datatype Value =
    | Contactables(list: seq<ParticipantRegister.Participant>)
    | FieldText(text: Option<string>)     // a form field passed through, `undefined` when absent
    | Integer(n: Option<int>)             // `parseInt`; `None` is `NaN`
    | Seconds(x: Number)                  // `parseFloat(...) * 60`
    | Options(groups: seq<OptionGroup>)   // `handleOptionsData`
    | Literal(json: Json)                 // data already present in a graph template

  /** `{inputType, inputData}`. */
  datatype Binding = Binding(inputType: InputType, inputData: Value)

  /** `handleOptionsData(undefined)` throws: the options field was not submitted. */
  datatype ConvertError = OptionsMissing

  const CollectResponses: string := "rsf/CollectResponses_lctpp"
  const ResponseForEach: string := "rsf/ResponseForEach_cd3dx"
  const SendMessageToAll: string := "rsf/SendMessageToAll_xil86"

  /** `inputsNeeded`, indexed 0 to 7. */
  const InputsNeeded: seq<InputType> := [
    InputType(CollectResponses, "contactable_configs"),
    InputType(CollectResponses, "prompt"),
    InputType(CollectResponses, "max_responses"),
    InputType(CollectResponses, "max_time"),
    InputType(ResponseForEach, "contactable_configs"),
    InputType(ResponseForEach, "max_time"),
    InputType(ResponseForEach, "options"),
    InputType(SendMessageToAll, "contactable_configs")
  ]

  /** The form field that feeds an inport: `${process}--${port}`. */
  function FieldKey(t: InputType): string
  {
    t.process + "--" + t.port
  }

  /** `parseInt(inputs[key])`: an absent field is read as the text `"undefined"`, which is `NaN`. */
  function IntegerField(v: Option<string>): (r: Option<int>)
    ensures v.None? ==> r.None?
  {
    if v.Some? then ParseInt(v.value) else None
  }

  /** `parseFloat(inputs[key]) * 60`: minutes to seconds; an absent field is `NaN`. */
  function SecondsField(v: Option<string>): (r: Number)
    ensures v.None? ==> r.NaN?
  {
    if v.Some? then Times(ParseFloat(v.value), 60) else NaN
  }

  /** The inport targets are pairwise distinct, so each one is bound once. */
  lemma InputsNeededDistinct(i: nat, j: nat)
    requires i < j < |InputsNeeded|
    ensures InputsNeeded[i] != InputsNeeded[j]
  {
  }

  /** `convertDataFromSheetToRSF(inputs, [ideation, reaction, summary])`. */
  function ConvertDataFromSheetToRSF(
    inputs: Form,
    ideation: seq<ParticipantRegister.Participant>,
    reaction: seq<ParticipantRegister.Participant>,
    summary: seq<ParticipantRegister.Participant>): (r: Result<seq<Binding>, ConvertError>)
    ensures r.Failure? <==> FieldKey(InputsNeeded[6]) !in inputs
    ensures r.Success? ==>
      var bs := r.value;
      && |bs| == 8
      && (forall i :: 0 <= i < 8 ==> bs[i].inputType == InputsNeeded[i])
      && bs[0].inputData == Contactables(ideation)
      && bs[1].inputData == FieldText(Lookup(inputs, FieldKey(InputsNeeded[1])))
      && bs[2].inputData == Integer(IntegerField(Lookup(inputs, FieldKey(InputsNeeded[2]))))
      && bs[3].inputData == Seconds(SecondsField(Lookup(inputs, FieldKey(InputsNeeded[3]))))
      && bs[4].inputData == Contactables(reaction)
      && bs[5].inputData == Seconds(SecondsField(Lookup(inputs, FieldKey(InputsNeeded[5]))))
      && bs[6].inputData == Options(HandleOptionsData(inputs[FieldKey(InputsNeeded[6])]))
      && bs[7].inputData == Contactables(summary)
  {
    var field := (i: nat) requires i < 8 => Lookup(inputs, FieldKey(InputsNeeded[i]));
    var options := field(6);
    if options.None? then Failure(OptionsMissing)
    else
      Success([
        Binding(InputsNeeded[0], Contactables(ideation)),
        Binding(InputsNeeded[1], FieldText(field(1))),
        Binding(InputsNeeded[2], Integer(IntegerField(field(2)))),
        Binding(InputsNeeded[3], Seconds(SecondsField(field(3)))),
        Binding(InputsNeeded[4], Contactables(reaction)),
        Binding(InputsNeeded[5], Seconds(SecondsField(field(5)))),
        Binding(InputsNeeded[6], Options(HandleOptionsData(options.value))),
        Binding(InputsNeeded[7], Contactables(summary))
      ])
  }

  /** `parseInt("3")` is three. */
  lemma ParseIntThree()
    ensures IntegerField(Some("3")) == Some(3)
  {
    assert DecimalString(3) == "3";
    ParseIntReadsDecimal(3, "");
    assert DecimalString(3) + "" == "3";
  }

  /** `parseFloat("1") * 60` is sixty. */
  lemma OneMinute()
    ensures SecondsField(Some("1")) == Finite(60, 0)
  {
    assert DecimalString(1) == "1";
    ParseFloatOfDecimal(1);
  }

  /** A form filled as in the repository's live-run script: the prompt passes
      through, three responses, and one minute is sixty seconds in both stages. */
  lemma SampleConversion(form: Form, p: seq<ParticipantRegister.Participant>)
    requires Lookup(form, FieldKey(InputsNeeded[1])) == Some("npm run test prompt")
    requires Lookup(form, FieldKey(InputsNeeded[2])) == Some("3")
    requires Lookup(form, FieldKey(InputsNeeded[3])) == Some("1")
    requires Lookup(form, FieldKey(InputsNeeded[5])) == Some("1")
    requires FieldKey(InputsNeeded[6]) in form
    ensures var r := ConvertDataFromSheetToRSF(form, p, p, p);
      && r.Success?
      && r.value[1].inputData == FieldText(Some("npm run test prompt"))
      && r.value[2].inputData == Integer(Some(3))
      && r.value[3].inputData == Seconds(Finite(60, 0))
      && r.value[5].inputData == Seconds(Finite(60, 0))
  {
    ParseIntThree();
    OneMinute();
  }
}
