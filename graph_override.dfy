/** `overrideJsonGraph` (run_graph.js:304-335): the template graph with its
    inport connections replaced by the compiled bindings and a fresh name.
    The template and the random part of the name are parameters. */
module GraphOverride {
  import opened JsValues
  import opened SheetInputs

  /** A connection end inside the graph: `{process, port, index?}`. */
  datatype Target = Target(process: string, port: string, index: Option<int>)

  /** A graph connection: an edge from `src`, or an initial packet `data`,
      into `tgt`. Template data is kept as `Literal` JSON. */
  datatype Connection = Connection(
    src: Option<Json>,
    tgt: Target,
    data: Option<Value>,
    metadata: Option<Json>)

  /** A graph document: its `properties`, its `connections` and every other
      top-level field (`processes`, `inports`, `outports`, `groups`, ...). */
  datatype Graph = Graph(
    properties: map<string, Json>,
    connections: seq<Connection>,
    others: map<string, Json>)

  const NameSuffix: string := "randomid"

  /** The binding feeds this connection: same process and same port. */
  predicate Feeds(b: Binding, t: Target)
  {
    b.inputType.process == t.process && b.inputType.port == t.port
  }

  /** `inputs.find(...)`, as an index: the first binding feeding `t`. */
  function FindOverride(bs: seq<Binding>, t: Target): (r: Option<nat>)
    ensures r.None? <==> forall j :: 0 <= j < |bs| ==> !Feeds(bs[j], t)
    ensures r.Some? ==> r.value < |bs| && Feeds(bs[r.value], t)
    ensures r.Some? ==> forall j :: 0 <= j < r.value ==> !Feeds(bs[j], t)
  {
    if bs == [] then None
    else if Feeds(bs[0], t) then Some(0)
    else
      match FindOverride(bs[1..], t)
      case None => None
      case Some(k) => Some(k + 1)
  }

  /** One connection of `originalGraph.connections.map(...)`: the target is
      always kept; a changed connection carries data and no source. */
  function OverrideConnection(bs: seq<Binding>, c: Connection): (r: Connection)
    ensures r.tgt == c.tgt
    ensures r != c ==> r.data.Some? && r.src.None?
  {
    match FindOverride(bs, c.tgt)
    case None => c
    case Some(k) => Connection(None, c.tgt, Some(bs[k].inputData), None)
  }

  /** `overrideJsonGraph(inputs, template)` with `Math.random() * 100` rendered as `randomPart`. */
  function OverrideJsonGraph(bs: seq<Binding>, template: Graph, randomPart: string): (g: Graph)
    ensures |g.connections| == |template.connections|
    ensures forall i :: 0 <= i < |g.connections| ==>
      g.connections[i] == OverrideConnection(bs, template.connections[i])
    ensures g.others == template.others
    ensures "name" in g.properties && g.properties["name"] == JStr(randomPart + NameSuffix)
    ensures forall k :: k != "name" ==>
      (k in g.properties <==> k in template.properties)
    ensures forall k :: k != "name" && k in template.properties ==>
      g.properties[k] == template.properties[k]
  {
    Graph(
      template.properties["name" := JStr(randomPart + NameSuffix)],
      seq(|template.connections|, i requires 0 <= i < |template.connections| =>
        OverrideConnection(bs, template.connections[i])),
      template.others)
  }

  /** A connection fed by no binding is returned as it was. */
  lemma UnmatchedUnchanged(bs: seq<Binding>, template: Graph, randomPart: string, i: nat)
    requires i < |template.connections|
    requires forall j :: 0 <= j < |bs| ==> !Feeds(bs[j], template.connections[i].tgt)
    ensures OverrideJsonGraph(bs, template, randomPart).connections[i] == template.connections[i]
  {
  }

  /** A connection fed by a binding keeps a copy of its target, carries the
      data of the first such binding, and loses its source and metadata. */
  lemma MatchedReplaced(bs: seq<Binding>, template: Graph, randomPart: string, i: nat, k: nat)
    requires i < |template.connections| && k < |bs|
    requires Feeds(bs[k], template.connections[i].tgt)
    requires forall j :: 0 <= j < k ==> !Feeds(bs[j], template.connections[i].tgt)
    ensures OverrideJsonGraph(bs, template, randomPart).connections[i]
      == Connection(None, template.connections[i].tgt, Some(bs[k].inputData), None)
  {
  }

  /** Overriding a second time with the same bindings changes no connection:
      the replaced connections keep their targets and so select the same data. */
  lemma {:induction false} OverrideIdempotent(bs: seq<Binding>, template: Graph, r1: string, r2: string)
    ensures var once := OverrideJsonGraph(bs, template, r1);
      OverrideJsonGraph(bs, once, r2).connections == once.connections
  {
    var once := OverrideJsonGraph(bs, template, r1);
    var twice := OverrideJsonGraph(bs, once, r2);
    forall i | 0 <= i < |twice.connections|
      ensures twice.connections[i] == once.connections[i]
    {
      var c := template.connections[i];
      assert once.connections[i].tgt == c.tgt;
    }
  }

  /** The eight compiled bindings reach their own inports: a connection into
      the `i`-th needed inport carries the `i`-th binding's data. */
  lemma SheetBindingsReachTheirPorts(
    bs: seq<Binding>, template: Graph, randomPart: string, c: nat, i: nat)
    requires |bs| == 8 && forall j :: 0 <= j < 8 ==> bs[j].inputType == InputsNeeded[j]
    requires c < |template.connections| && i < 8
    requires template.connections[c].tgt.process == InputsNeeded[i].process
    requires template.connections[c].tgt.port == InputsNeeded[i].port
    ensures OverrideJsonGraph(bs, template, randomPart).connections[c].data == Some(bs[i].inputData)
    ensures OverrideJsonGraph(bs, template, randomPart).connections[c].src.None?
  {
    forall j | 0 <= j < i
      ensures !Feeds(bs[j], template.connections[c].tgt)
    {
      InputsNeededDistinct(j, i);
    }
    MatchedReplaced(bs, template, randomPart, c, i);
  }

  /** A connection into a port that none of the eight bindings names is kept. */
  lemma OtherPortsKept(bs: seq<Binding>, template: Graph, randomPart: string, c: nat)
    requires |bs| == 8 && forall j :: 0 <= j < 8 ==> bs[j].inputType == InputsNeeded[j]
    requires c < |template.connections|
    requires forall j :: 0 <= j < 8 ==>
      InputType(template.connections[c].tgt.process, template.connections[c].tgt.port) != InputsNeeded[j]
    ensures OverrideJsonGraph(bs, template, randomPart).connections[c] == template.connections[c]
  {
    UnmatchedUnchanged(bs, template, randomPart, c);
  }
}
