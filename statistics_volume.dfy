/**
  The StatisticsVolume group pipeline as an object: its parameter dictionary,
  its subjects and sessions, and the nodes and edges its build steps add to
  the workflow. Each build step updates these fields in place and is proved
  against the functions of Parameters, InputSelection, OutputLayout and
  CoreGraph.

  The group directory, group id, group label, tsv file and the directory of
  the pipeline module come from the pipeline engine; here they are constants
  fixed at construction. The file filter is a parameter of the input step.
 */
module StatisticsVolumePipeline {
  import opened Python
  import opened Parameters
  import opened InputSelection
  import opened OutputLayout
  import opened Workflow
  import opened CoreGraph

  /** What `clinica_file_filter` returns for the subjects, the sessions and a descriptor: the input files and the subjects and sessions kept. */
  type FileFilter = (seq<string>, seq<string>, Descriptor) -> (seq<string>, seq<string>, seq<string>)

  class StatisticsVolume {
    var parameters: Params
    var subjects: seq<string>
    var sessions: seq<string>
    /** The nodes the build steps declare, starting with the engine's input and output nodes. */
    var nodes: seq<GraphNode>
    /** The connections made so far, in the order `connect` was called. */
    var edges: seq<GraphEdge>

    const tsvFile: string
    const groupDirectory: string
    const groupId: string
    const groupLabel: string
    const moduleDir: string

    constructor (parameters: Params, subjects: seq<string>, sessions: seq<string>, tsvFile: string,
                 groupDirectory: string, groupId: string, groupLabel: string, moduleDir: string)
      ensures this.parameters == parameters && this.subjects == subjects && this.sessions == sessions
      ensures this.tsvFile == tsvFile && this.groupDirectory == groupDirectory
      ensures this.groupId == groupId && this.groupLabel == groupLabel && this.moduleDir == moduleDir
      ensures nodes == [INPUT_NODE, OUTPUT_NODE] && edges == []
    {
      this.parameters := parameters;
      this.subjects := subjects;
      this.sessions := sessions;
      this.tsvFile := tsvFile;
      this.groupDirectory := groupDirectory;
      this.groupId := groupId;
      this.groupLabel := groupLabel;
      this.moduleDir := moduleDir;
      nodes := [INPUT_NODE, OUTPUT_NODE];
      edges := [];
    }

    /** `self.parameters.setdefault(key, v)`. */
    method SetDefaultKey(key: Key, v: Value)
      modifies this
      ensures parameters == SetDefault(old(parameters), key, v)
      ensures subjects == old(subjects) && sessions == old(sessions) && nodes == old(nodes) && edges == old(edges)
    {
      if key !in parameters {
        parameters := parameters[key := v];
      }
    }

    /** `setdefault(key, None)`, then the enumeration called on the value when it is truthy. */
    method CoerceKey(key: Key, e: EnumType, known: EnumValues) returns (outcome: Outcome)
      modifies this
      ensures Checked(parameters, outcome) == CoerceStep(old(parameters), key, e, known)
      ensures subjects == old(subjects) && sessions == old(sessions) && nodes == old(nodes) && edges == old(edges)
    {
      SetDefaultKey(key, NoneValue);
      outcome := Pass;
      if Truthy(parameters[key]) {
        var m := ToEnum(e, known, parameters[key]);
        if m.Err? {
          return Fail(m.error);
        }
        parameters := parameters[key := m.value];
      }
    }

    /**
      `_check_pipeline_parameters`: the dictionary is updated one key at a
      time, and an exception leaves it as far as it got.
     */
    method CheckPipelineParameters(known: EnumValues) returns (outcome: Outcome)
      modifies this
      ensures parameters == Check(old(parameters), known).params
      ensures outcome == Check(old(parameters), known).outcome
      ensures subjects == old(subjects) && sessions == old(sessions)
      ensures nodes == old(nodes) && edges == old(edges)
    {
      if OrigInputDataVolume !in parameters {
        return Fail(KeyError(MissingKeyMessage(OrigInputDataVolume)));
      }
      if DictKey.Contrast !in parameters {
        return Fail(KeyError(MissingKeyMessage(DictKey.Contrast)));
      }
      ghost var p := parameters;
      SetDefaultKey(GroupLabelDartel, Str("*"));
      SetDefaultKey(FullWidthAtHalfMaximum, Int(8));
      ghost var p1 := parameters;
      assert p1 == FillGeneralDefaults(p);

      outcome := CoerceKey(AcqLabel, Tracer, known);
      if outcome.Fail? {
        assert Checked(parameters, outcome) == CoerceEnums(p1, known);
        return;
      }
      outcome := CoerceKey(SuvrReferenceRegion, SUVRReferenceRegion, known);
      if outcome.Fail? {
        assert Checked(parameters, outcome) == CoerceEnums(p1, known);
        return;
      }
      assert Checked(parameters, outcome) == CoerceEnums(p1, known);

      ghost var p2 := parameters;
      SetDefaultKey(UsePvcData, Bool(false));
      SetDefaultKey(MeasureLabel, NoneValue);
      SetDefaultKey(CustomFile, NoneValue);
      SetDefaultKey(ClusterThreshold, Float(0.001, "0.001"));
      assert parameters == FillFinalDefaults(p2);
      outcome := CheckThreshold(parameters[ClusterThreshold]);
    }

    /** The pet-volume branch of lines 104-124. */
    method DispatchPetVolume() returns (r: Result<Descriptor>)
      requires Resolved(parameters)
      modifies this
      ensures var s := SelectPetVolume(old(parameters));
        && (s.Err? ==> r == Err(s.error) && parameters == old(parameters))
        && (s.Ok? ==> r == Ok(s.value.descriptor) && parameters == s.value.params)
      ensures subjects == old(subjects) && sessions == old(sessions) && nodes == old(nodes) && edges == old(edges)
    {
      if !(Truthy(parameters[AcqLabel]) && Truthy(parameters[SuvrReferenceRegion])) {
        return Err(MissingPetValues(parameters[AcqLabel], parameters[SuvrReferenceRegion], parameters[UsePvcData]));
      }
      var tracer := ValueAttribute(parameters[AcqLabel]);
      if tracer.Err? {
        return Err(tracer.error);
      }
      parameters := parameters[MeasureLabel := Str(tracer.value)];
      r := Ok(PetVolumeNormalizedSuvrPet(
        parameters[AcqLabel], parameters[GroupLabelDartel], parameters[SuvrReferenceRegion],
        true, parameters[UsePvcData], parameters[FullWidthAtHalfMaximum]));
    }

    /** The t1-volume branch of lines 125-132. */
    method DispatchT1Volume() returns (d: Descriptor)
      requires Resolved(parameters)
      modifies this
      ensures var s := SelectT1Volume(old(parameters));
        d == s.descriptor && parameters == s.params
      ensures subjects == old(subjects) && sessions == old(sessions) && nodes == old(nodes) && edges == old(edges)
    {
      parameters := parameters[MeasureLabel := Str("graymatter")];
      d := T1VolumeTemplateTpmInMni(parameters[GroupLabelDartel], 1, true, parameters[FullWidthAtHalfMaximum]);
    }

    /** The custom-pipeline branch of lines 134-144. */
    method DispatchCustom() returns (r: Result<Descriptor>)
      requires Resolved(parameters)
      modifies this
      ensures var s := SelectCustom(old(parameters));
        && (s.Err? ==> r == Err(s.error) && parameters == old(parameters))
        && (s.Ok? ==> r == Ok(s.value.descriptor) && parameters == s.value.params)
      ensures subjects == old(subjects) && sessions == old(sessions) && nodes == old(nodes) && edges == old(edges)
    {
      if !Truthy(parameters[CustomFile]) {
        return Err(ClinicaException(CUSTOM_FILE_MISSING));
      }
      parameters := parameters[FullWidthAtHalfMaximum := NoneValue];
      r := Ok(CustomPattern(parameters[CustomFile], "custom file provided by user"));
    }

    /** The dispatch of lines 104-148 on `orig_input_data_volume`. */
    method DispatchInput() returns (r: Result<Descriptor>)
      requires Resolved(parameters)
      modifies this
      ensures var s := Select(old(parameters));
        && (s.Err? ==> r == Err(s.error) && parameters == old(parameters))
        && (s.Ok? ==> r == Ok(s.value.descriptor) && parameters == s.value.params)
      ensures subjects == old(subjects) && sessions == old(sessions) && nodes == old(nodes) && edges == old(edges)
    {
      var source := parameters[OrigInputDataVolume];
      if source == PET_VOLUME {
        r := DispatchPetVolume();
      } else if source == T1_VOLUME {
        var d := DispatchT1Volume();
        r := Ok(d);
      } else if source == CUSTOM_PIPELINE {
        r := DispatchCustom();
      } else {
        r := Err(ValueError("Input data " + Render(source) + " unknown."));
      }
    }

    /**
      `_build_input_node`: the dispatch on the input source, the file filter,
      the loading node holding the files found, and its connection to the
      input node. An exception leaves everything unchanged.
     */
    method BuildInputNode(filter: FileFilter) returns (outcome: Outcome)
      requires Resolved(parameters)
      modifies this
      ensures var s := Select(old(parameters));
        && (s.Err? ==> outcome == Fail(s.error) && parameters == old(parameters)
                       && subjects == old(subjects) && sessions == old(sessions)
                       && nodes == old(nodes) && edges == old(edges))
        && (s.Ok? ==> var found := filter(old(subjects), old(sessions), s.value.descriptor);
                      && outcome == Pass && parameters == s.value.params
                      && subjects == found.1 && sessions == found.2
                      && nodes == old(nodes) + [LoadingNode(found.0)]
                      && edges == old(edges) + INPUT_EDGES)
    {
      var descriptor := DispatchInput();
      if descriptor.Err? {
        return Fail(descriptor.error);
      }
      var found := filter(subjects, sessions, descriptor.value);
      subjects, sessions := found.1, found.2;
      nodes := nodes + [LoadingNode(found.0)];
      edges := edges + INPUT_EDGES;
      outcome := Pass;
    }

    /** `_build_core_nodes`: the twelve core nodes with their literal inputs, and their connections. */
    method BuildCoreNodes()
      requires ReadsDefined(parameters)
      modifies this
      ensures parameters == old(parameters) && subjects == old(subjects) && sessions == old(sessions)
      ensures nodes == old(nodes) + CoreNodes(parameters, tsvFile, groupLabel, moduleDir)
      ensures edges == old(edges) + CORE_EDGES
    {
      nodes := nodes + CoreNodes(parameters, tsvFile, groupLabel, moduleDir);
      edges := edges + CORE_EDGES;
    }

    /** `_build_output_node`: the data sink under the base directory, and its connections from the output node. */
    method BuildOutputNode()
      requires MeasureLabel in parameters && FullWidthAtHalfMaximum in parameters
      modifies this
      ensures parameters == old(parameters) && subjects == old(subjects) && sessions == old(sessions)
      ensures nodes == old(nodes) + [SinkNode(BaseDir(groupDirectory, parameters[MeasureLabel]), groupId,
                                              parameters[MeasureLabel], parameters[FullWidthAtHalfMaximum], tsvFile)]
      ensures edges == old(edges) + SINK_EDGES
    {
      var base := BaseDir(groupDirectory, parameters[MeasureLabel]);
      nodes := nodes + [SinkNode(base, groupId, parameters[MeasureLabel], parameters[FullWidthAtHalfMaximum], tsvFile)];
      edges := edges + SINK_EDGES;
    }

    /** The nodes the build steps declare once the file filter has found inputFiles and the dispatch has left p. */
    function DeclaredNodes(inputFiles: seq<string>, p: Params): seq<GraphNode>
      requires Resolved(p)
    {
      PipelineNodes(inputFiles, p, tsvFile, groupLabel, moduleDir,
                    SinkNode(BaseDir(groupDirectory, p[MeasureLabel]), groupId,
                             p[MeasureLabel], p[FullWidthAtHalfMaximum], tsvFile))
    }

    /**
      The three build steps on a checked dictionary. The dispatch decides
      whether they succeed; on failure nothing changes. On success the
      dictionary is the dispatch's, subjects and sessions are the filter's,
      the workflow holds the declared nodes and every declared edge, and every
      node except run_spm_script_node, the output node and the sink receives
      exactly one value on each declared input.
     */
    method BuildSteps(filter: FileFilter) returns (outcome: Outcome)
      requires Resolved(parameters) && nodes == [INPUT_NODE, OUTPUT_NODE] && edges == []
      modifies this
      ensures var s := Select(old(parameters));
        && (outcome.Pass? <==> s.Ok?)
        && (s.Err? ==> outcome == Fail(s.error) && parameters == old(parameters)
                       && subjects == old(subjects) && sessions == old(sessions)
                       && nodes == old(nodes) && edges == old(edges))
        && (s.Ok? ==> var found := filter(old(subjects), old(sessions), s.value.descriptor);
                      && Resolved(s.value.params) && parameters == s.value.params
                      && subjects == found.1 && sessions == found.2
                      && nodes == DeclaredNodes(found.0, s.value.params) && edges == ALL_EDGES)
      ensures outcome.Pass? ==>
                forall i :: 0 <= i < |nodes| && nodes[i].name !in {RunSpmScriptNode, OutputNode, Sinker} ==>
                  Saturated(edges, nodes[i])
    {
      ghost var s := Select(parameters);
      ghost var found := if s.Ok? then filter(subjects, sessions, s.value.descriptor) else ([], [], []);
      SelectKeepsResolved(parameters);
      outcome := BuildInputNode(filter);
      if outcome.Fail? {
        return;
      }
      assert parameters == s.value.params && nodes == [INPUT_NODE, OUTPUT_NODE, LoadingNode(found.0)];
      BuildCoreAndOutput(found.0);
    }

    /** The core and output steps, once the input step has added the loading node. */
    method BuildCoreAndOutput(ghost inputFiles: seq<string>)
      requires Resolved(parameters)
      requires nodes == [INPUT_NODE, OUTPUT_NODE, LoadingNode(inputFiles)] && edges == INPUT_EDGES
      modifies this
      ensures parameters == old(parameters) && subjects == old(subjects) && sessions == old(sessions)
      ensures nodes == DeclaredNodes(inputFiles, parameters) && edges == ALL_EDGES
      ensures forall i :: 0 <= i < |nodes| && nodes[i].name !in {RunSpmScriptNode, OutputNode, Sinker} ==>
                Saturated(edges, nodes[i])
    {
      BuildCoreNodes();
      BuildOutputNode();
      assert edges == ALL_EDGES;
      WorkflowSaturated(inputFiles, parameters, tsvFile, groupLabel, moduleDir, nodes[15]);
      assert nodes == PipelineNodes(inputFiles, parameters, tsvFile, groupLabel, moduleDir, nodes[15]);
    }

    /**
      The engine's sequence on a new pipeline: the parameter check, then the
      three build steps. A failed check leaves the dictionary as the check
      left it and nothing else changed; after a successful check, the build
      steps end as BuildSteps states on the checked dictionary.
     */
    method Build(known: EnumValues, filter: FileFilter) returns (outcome: Outcome)
      requires nodes == [INPUT_NODE, OUTPUT_NODE] && edges == []
      modifies this
      ensures var c := Check(old(parameters), known);
        && (c.outcome.Fail? ==> outcome == c.outcome && parameters == c.params
                                && subjects == old(subjects) && sessions == old(sessions)
                                && nodes == old(nodes) && edges == old(edges))
        && (c.outcome.Pass? ==> Resolved(c.params))
      ensures var c := Check(old(parameters), known);
        c.outcome.Pass? && Resolved(c.params) ==>
          var s := Select(c.params);
          && (outcome.Pass? <==> s.Ok?)
          && (s.Err? ==> outcome == Fail(s.error) && parameters == c.params
                         && subjects == old(subjects) && sessions == old(sessions)
                         && nodes == old(nodes) && edges == old(edges))
          && (s.Ok? ==> var found := filter(old(subjects), old(sessions), s.value.descriptor);
                        && Resolved(s.value.params) && parameters == s.value.params
                        && subjects == found.1 && sessions == found.2
                        && nodes == DeclaredNodes(found.0, s.value.params) && edges == ALL_EDGES)
      ensures outcome.Pass? ==>
                forall i :: 0 <= i < |nodes| && nodes[i].name !in {RunSpmScriptNode, OutputNode, Sinker} ==>
                  Saturated(edges, nodes[i])
    {
      ghost var p := parameters;
      outcome := CheckPipelineParameters(known);
      if outcome.Fail? {
        return;
      }
      CheckedResolves(p, known);
      outcome := BuildSteps(filter);
    }
  }
}
