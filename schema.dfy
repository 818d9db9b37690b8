/**
 * The shape of a workflow definition and the defaults the schema fills in.
 * A raw definition is the YAML document after decoding; `ParseDefinition` is
 * the schema check (`safeParse`) that turns it into a definition.
 */
module Schema {
  import opened Kernel

  /** A stage as written in the YAML file: the flags may be absent. */
  datatype RawStage = RawStage(
    name: string,
    role: string,
    model: string,
    humanGate: Option<bool>,
    contextReset: Option<bool>,
    onComplete: Option<seq<string>>)

  /** A workflow as written in the YAML file. */
  datatype RawDefinition = RawDefinition(
    name: string,
    description: Option<string>,
    loopOnChanges: Option<bool>,
    maxCycles: Option<int>,
    stages: seq<RawStage>)

  /**
   * A validated stage. Its fields are exactly these six: the schema has no
   * `provider` field, and keys it does not declare are dropped.
   */
  datatype StageDefinition = StageDefinition(
    name: string,
    role: string,
    model: string,
    humanGate: bool,
    contextReset: bool,
    onComplete: Option<seq<string>>)

  datatype WorkflowDefinition = WorkflowDefinition(
    name: string,
    description: Option<string>,
    loopOnChanges: bool,
    maxCycles: int,
    stages: seq<StageDefinition>)

  /** The maximum number of cycles when the file gives none. */
  const DefaultMaxCycles := 10

  /** The one structural constraint of the schema: at least one stage. */
  predicate ValidDefinition(d: WorkflowDefinition) {
    |d.stages| >= 1
  }

  function OrElse<T>(o: Option<T>, default: T): T {
    if o.Some? then o.value else default
  }

  /** One stage with its two flags defaulted to false. */
  function ParseStage(s: RawStage): (d: StageDefinition)
    ensures d.name == s.name && d.role == s.role && d.model == s.model
    ensures d.humanGate <==> s.humanGate == Some(true)
    ensures d.contextReset <==> s.contextReset == Some(true)
    ensures d.onComplete == s.onComplete
  {
    StageDefinition(s.name, s.role, s.model, OrElse(s.humanGate, false),
                    OrElse(s.contextReset, false), s.onComplete)
  }

  /**
   * The schema check: an empty stage list is rejected, otherwise every
   * absent field takes its default.
   */
  function ParseDefinition(raw: RawDefinition): (r: Result<WorkflowDefinition, CrewError>)
    ensures r.Ok? <==> |raw.stages| >= 1
    ensures r.Err? ==> r.error == InvalidDefinition
    ensures r.Ok? ==> ValidDefinition(r.value)
    ensures r.Ok? ==> r.value.name == raw.name && r.value.description == raw.description
    ensures r.Ok? ==> (r.value.loopOnChanges <==> raw.loopOnChanges == Some(true))
    ensures r.Ok? ==> r.value.maxCycles == (if raw.maxCycles.Some? then raw.maxCycles.value else DefaultMaxCycles)
    ensures r.Ok? ==> |r.value.stages| == |raw.stages|
    ensures r.Ok? ==> forall i :: 0 <= i < |raw.stages| ==> r.value.stages[i] == ParseStage(raw.stages[i])
  {
    if |raw.stages| == 0 then Err(InvalidDefinition)
    else
      Ok(WorkflowDefinition(
        raw.name, raw.description, OrElse(raw.loopOnChanges, false),
        OrElse(raw.maxCycles, DefaultMaxCycles),
        seq(|raw.stages|, i requires 0 <= i < |raw.stages| => ParseStage(raw.stages[i]))))
  }

  /** A document that leaves every optional field out gets false, false, false and 10. */
  lemma DefaultsWhenAbsent(name: string, stages: seq<RawStage>)
    requires |stages| >= 1
    requires forall i :: 0 <= i < |stages| ==> stages[i].humanGate.None? && stages[i].contextReset.None?
    ensures var r := ParseDefinition(RawDefinition(name, None, None, None, stages));
      && r.Ok? && !r.value.loopOnChanges && r.value.maxCycles == 10 && r.value.description.None?
      && forall i :: 0 <= i < |r.value.stages| ==> !r.value.stages[i].humanGate && !r.value.stages[i].contextReset
  {
  }
}
