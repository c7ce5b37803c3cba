/**
  The nodes and edges the StatisticsVolume pipeline declares: the loading
  node of `_build_input_node`, the SPM stages of `_build_core_nodes`, and the
  data sink of `_build_output_node`, together with the pipeline's input and
  output identity nodes, which the pipeline engine names "Input" and "Output".

  Node and port names are datatypes; Label and Spelling give the strings the
  source uses.
 */
module CoreGraph {
  import opened Python
  import opened Workflow
  import Parameters
  import OutputLayout

  datatype NodeName =
    | LoadingCLIArguments | InputNode
    | UnzipNode | GetGroups | RunSpmScriptNode
    | RunSpmModelCreation | RunSpmModelEstimation | RunSpmModelContrast | RunSpmModelResultNoCorrection
    | ModelCreation | ModelEstimation | ModelContrast | ModelResultNoCorrection | ReadOutputNode
    | OutputNode | Sinker

  function Label(n: NodeName): string
  {
    match n
    case LoadingCLIArguments => "LoadingCLIArguments"
    case InputNode => "Input"
    case UnzipNode => "unzip_node"
    case GetGroups => "get_groups"
    case RunSpmScriptNode => "run_spm_script_node"
    case RunSpmModelCreation => "run_spm_model_creation"
    case RunSpmModelEstimation => "run_spm_model_estimation"
    case RunSpmModelContrast => "run_spm_model_contrast"
    case RunSpmModelResultNoCorrection => "run_spm_model_result_no_correction"
    case ModelCreation => "model_creation"
    case ModelEstimation => "model_estimation"
    case ModelContrast => "model_contrast"
    case ModelResultNoCorrection => "model_result_no_correction"
    case ReadOutputNode => "read_output_node"
    case OutputNode => "Output"
    case Sinker => "sinker"
  }

  /** The port names, listed in the order used by TargetKey. */
  datatype Port =
    | InputFiles | InFile | FileList | IdxGroup1 | IdxGroup2 | MFile | SpmMat | ClassNames | MatFile | Covariates
    | SpmT0001 | SpmT0002 | SpmResultsAnalysis1 | SpmResultsAnalysis2 | SpmFigures | Figures
    | VarianceOfError | ReselsPerVoxels | Mask | RegressionCoeff | Contrasts
    | OutputFiles | Tsv | Contrast | TemplateFile | ScriptFile | Method | Threshold | GroupLabel | Fwhm
    | Measure | SpmTMaps | OtherSpmFiles | BaseDirectory | Parameterization | RegexpSubstitutions | TsvFile

  function Spelling(p: Port): string
  {
    match p
    case InputFiles => "input_files"
    case InFile => "in_file"
    case FileList => "file_list"
    case IdxGroup1 => "idx_group1"
    case IdxGroup2 => "idx_group2"
    case MFile => "m_file"
    case SpmMat => "spm_mat"
    case ClassNames => "class_names"
    case MatFile => "mat_file"
    case Covariates => "covariates"
    case SpmT0001 => "spmT_0001"
    case SpmT0002 => "spmT_0002"
    case SpmResultsAnalysis1 => "spm_results_analysis_1"
    case SpmResultsAnalysis2 => "spm_results_analysis_2"
    case SpmFigures => "spm_figures"
    case Figures => "figures"
    case VarianceOfError => "variance_of_error"
    case ReselsPerVoxels => "resels_per_voxels"
    case Mask => "mask"
    case RegressionCoeff => "regression_coeff"
    case Contrasts => "contrasts"
    case OutputFiles => "output_files"
    case Tsv => "tsv"
    case Contrast => "contrast"
    case TemplateFile => "template_file"
    case ScriptFile => "script_file"
    case Method => "method"
    case Threshold => "threshold"
    case GroupLabel => "group_label"
    case Fwhm => "fwhm"
    case Measure => "measure"
    case SpmTMaps => "spm_T_maps"
    case OtherSpmFiles => "other_spm_files"
    case BaseDirectory => "base_directory"
    case Parameterization => "parameterization"
    case RegexpSubstitutions => "regexp_substitutions"
    case TsvFile => "tsv_file"
  }

  type GraphNode = Node<NodeName, Port>
  type GraphEdge = Edge<NodeName, Port>

  /** `get_input_fields`. */
  const INPUT_FIELDS: seq<Port> := [InputFiles]

  /** `get_output_fields`: the last field is "contrast", singular. */
  const OUTPUT_FIELDS: seq<Port> :=
    [SpmT0001, SpmT0002, SpmFigures, VarianceOfError, ReselsPerVoxels, Mask, RegressionCoeff, Contrast]

  /** The names of a list of ports, as nipype spells them. */
  function Spellings(ps: seq<Port>): seq<string>
  {
    seq(|ps|, i requires 0 <= i < |ps| => Spelling(ps[i]))
  }

  /** `get_input_fields` returns the one name "input_files". */
  lemma InputFieldSpellings()
    ensures Spellings(INPUT_FIELDS) == ["input_files"]
  {
  }

  /** `get_output_fields` returns these eight distinct names, in this order, so the output node declares eight ports. */
  lemma OutputFieldSpellings()
    ensures Spellings(OUTPUT_FIELDS) ==
              ["spmT_0001", "spmT_0002", "spm_figures", "variance_of_error",
               "resels_per_voxels", "mask", "regression_coeff", "contrast"]
    ensures forall i, j :: 0 <= i < j < |OUTPUT_FIELDS| ==> Spellings(OUTPUT_FIELDS)[i] != Spellings(OUTPUT_FIELDS)[j]
  {
  }

  /** The pipeline's identity nodes, with the fields above. */
  const INPUT_NODE: GraphNode := Node(InputNode, Identity(INPUT_FIELDS), false, map[])
  const OUTPUT_NODE: GraphNode := Node(OutputNode, Identity(OUTPUT_FIELDS), false, map[])

  /** The loading node of lines 154-161, holding the files the file filter found. */
  function LoadingNode(inputFiles: seq<string>): GraphNode
  {
    Node(LoadingCLIArguments, Identity(INPUT_FIELDS), false, map[InputFiles := Paths(inputFiles)])
  }

  /** Lines 170-172: the loading node feeds the pipeline's input node. */
  const INPUT_EDGES: seq<GraphEdge> := [Edge(LoadingCLIArguments, Field(InputFiles), InputNode, InputFiles)]

  /** The generic SPM script launcher of lines 311-318, and its clones under other names. */
  function SpmScriptNode(name: NodeName): GraphNode
  {
    Node(name, Function([MFile], [SpmMat]), false, map[])
  }

  /** `join(dirname(__file__), name)` for the MATLAB templates that sit next to the pipeline module. */
  function Template(moduleDir: string, name: string): Input
  {
    Scalar(Str(OutputLayout.Join(moduleDir, name)))
  }

  /** The values of the parameter dictionary that the core nodes read. */
  predicate ReadsDefined(p: Parameters.Params)
  {
    && Parameters.Contrast in p && Parameters.ClusterThreshold in p
    && Parameters.FullWidthAtHalfMaximum in p && Parameters.MeasureLabel in p
  }

  /** unzip_node, lines 288-295. */
  const UNZIP_DECLARATION: GraphNode := Node(UnzipNode, Function([InFile], [OutputFiles]), false, map[])

  /** get_groups, lines 298-308, with the contrast and the tsv file as literals. */
  function GetGroupsDeclaration(contrast: Value, tsvFile: string): GraphNode
  {
    Node(GetGroups, Function([Tsv, Contrast], [IdxGroup1, IdxGroup2, ClassNames]), false,
         map[Contrast := Scalar(contrast), Tsv := Scalar(Str(tsvFile))])
  }

  /** model_creation, lines 342-362: the only node with overwrite set. */
  function ModelCreationDeclaration(contrast: Value, tsvFile: string, moduleDir: string): GraphNode
  {
    Node(ModelCreation,
         Function([Tsv, Contrast, IdxGroup1, IdxGroup2, FileList, TemplateFile], [ScriptFile, Covariates]), true,
         map[Tsv := Scalar(Str(tsvFile)), Contrast := Scalar(contrast),
             TemplateFile := Template(moduleDir, "template_model_creation.m")])
  }

  /** model_estimation, lines 365-375. */
  function ModelEstimationDeclaration(moduleDir: string): GraphNode
  {
    Node(ModelEstimation, Function([MatFile, TemplateFile], [ScriptFile]), false,
         map[TemplateFile := Template(moduleDir, "template_model_estimation.m")])
  }

  /** model_contrast, lines 378-388. */
  function ModelContrastDeclaration(moduleDir: string): GraphNode
  {
    Node(ModelContrast, Function([MatFile, TemplateFile, Covariates, ClassNames], [ScriptFile]), false,
         map[TemplateFile := Template(moduleDir, "template_model_contrast.m")])
  }

  /** model_result_no_correction, lines 391-406, with method "none" and the cluster threshold. */
  function ModelResultDeclaration(threshold: Value, moduleDir: string): GraphNode
  {
    Node(ModelResultNoCorrection, Function([MatFile, TemplateFile, Method, Threshold], [ScriptFile]), false,
         map[TemplateFile := Template(moduleDir, "template_model_results.m"), Method := Scalar(Str("none")),
             Threshold := Scalar(threshold)])
  }

  /** read_output_node, lines 411-434. */
  function ReadOutputDeclaration(groupLabel: string, fwhm: Value, measure: Value): GraphNode
  {
    Node(ReadOutputNode,
         Function([SpmMat, ClassNames, Covariates, GroupLabel, Fwhm, Measure],
                  [SpmTMaps, SpmFigures, OtherSpmFiles, RegressionCoeff, Contrasts]), false,
         map[GroupLabel := Scalar(Str(groupLabel)), Fwhm := Scalar(fwhm), Measure := Scalar(measure)])
  }

  /** The twelve nodes of lines 287-434 in creation order, with the values assigned to their inputs. */
  function CoreNodes(p: Parameters.Params, tsvFile: string, groupLabel: string, moduleDir: string): seq<GraphNode>
    requires ReadsDefined(p)
  {
    [ UNZIP_DECLARATION,
      GetGroupsDeclaration(p[Parameters.Contrast], tsvFile),
      SpmScriptNode(RunSpmScriptNode),
      SpmScriptNode(RunSpmModelCreation),
      SpmScriptNode(RunSpmModelEstimation),
      SpmScriptNode(RunSpmModelContrast),
      SpmScriptNode(RunSpmModelResultNoCorrection),
      ModelCreationDeclaration(p[Parameters.Contrast], tsvFile, moduleDir),
      ModelEstimationDeclaration(moduleDir),
      ModelContrastDeclaration(moduleDir),
      ModelResultDeclaration(p[Parameters.ClusterThreshold], moduleDir),
      ReadOutputDeclaration(groupLabel, p[Parameters.FullWidthAtHalfMaximum], p[Parameters.MeasureLabel])
    ]
  }

  /** The connections of lines 439-466, in order. */
  const CORE_EDGES: seq<GraphEdge> :=
    [ Edge(InputNode, Field(InputFiles), UnzipNode, InFile),
      Edge(UnzipNode, Field(OutputFiles), ModelCreation, FileList),
      Edge(GetGroups, Field(IdxGroup1), ModelCreation, IdxGroup1),
      Edge(GetGroups, Field(IdxGroup2), ModelCreation, IdxGroup2),
      Edge(ModelCreation, Field(ScriptFile), RunSpmModelCreation, MFile),
      Edge(RunSpmModelCreation, Field(SpmMat), ModelEstimation, MatFile),
      Edge(ModelEstimation, Field(ScriptFile), RunSpmModelEstimation, MFile),
      Edge(GetGroups, Field(ClassNames), ModelContrast, ClassNames),
      Edge(RunSpmModelEstimation, Field(SpmMat), ModelContrast, MatFile),
      Edge(ModelCreation, Field(Covariates), ModelContrast, Covariates),
      Edge(ModelContrast, Field(ScriptFile), RunSpmModelContrast, MFile),
      Edge(RunSpmModelContrast, Field(SpmMat), ModelResultNoCorrection, MatFile),
      Edge(ModelResultNoCorrection, Field(ScriptFile), RunSpmModelResultNoCorrection, MFile),
      Edge(RunSpmModelResultNoCorrection, Field(SpmMat), ReadOutputNode, SpmMat),
      Edge(GetGroups, Field(ClassNames), ReadOutputNode, ClassNames),
      Edge(ModelCreation, Field(Covariates), ReadOutputNode, Covariates),
      Edge(ReadOutputNode, Picked(SpmTMaps, 0), OutputNode, SpmT0001),
      Edge(ReadOutputNode, Picked(SpmTMaps, 1), OutputNode, SpmT0002),
      Edge(ReadOutputNode, Field(SpmFigures), OutputNode, SpmFigures),
      Edge(ReadOutputNode, Picked(OtherSpmFiles, 0), OutputNode, VarianceOfError),
      Edge(ReadOutputNode, Picked(OtherSpmFiles, 1), OutputNode, ReselsPerVoxels),
      Edge(ReadOutputNode, Picked(OtherSpmFiles, 2), OutputNode, Mask),
      Edge(ReadOutputNode, Field(RegressionCoeff), OutputNode, RegressionCoeff),
      Edge(ReadOutputNode, Field(Contrasts), OutputNode, Contrasts)
    ]

  /**
    The data sink of lines 187-239: it writes under the base directory, and is
    given the renaming rules only when the FWHM is truthy.
   */
  function SinkNode(base: string, groupId: string, measureLabel: Value, fwhm: Value, tsvFile: string): (nd: GraphNode)
    ensures nd.name == Sinker && nd.iface == DataSink && !nd.overwrite
    ensures BaseDirectory in nd.inputs && nd.inputs[BaseDirectory] == Scalar(Str(base))
    ensures Parameterization in nd.inputs && nd.inputs[Parameterization] == Scalar(Bool(true))
    ensures TsvFile in nd.inputs && nd.inputs[TsvFile] == Scalar(Str(tsvFile))
    ensures RegexpSubstitutions in nd.inputs <==> Truthy(fwhm)
    ensures RegexpSubstitutions in nd.inputs ==>
              nd.inputs[RegexpSubstitutions] == Rules(OutputLayout.Substitutions(base, groupId, measureLabel, fwhm))
    ensures nd.inputs.Keys <= {BaseDirectory, Parameterization, TsvFile, RegexpSubstitutions}
  {
    var inputs := map[BaseDirectory := Scalar(Str(base)), Parameterization := Scalar(Bool(true)),
                      TsvFile := Scalar(Str(tsvFile))];
    match OutputLayout.SinkSubstitutions(base, groupId, measureLabel, fwhm)
    case Some(rules) => Node(Sinker, DataSink, false, inputs[RegexpSubstitutions := Rules(rules)])
    case None => Node(Sinker, DataSink, false, inputs)
  }

  /** The connections of lines 241-264: which output field goes to which sink folder. */
  const SINK_EDGES: seq<GraphEdge> :=
    [ Edge(OutputNode, Field(SpmT0001), Sinker, SpmResultsAnalysis1),
      Edge(OutputNode, Field(SpmT0002), Sinker, SpmResultsAnalysis2),
      Edge(OutputNode, Field(SpmFigures), Sinker, Figures),
      Edge(OutputNode, Field(VarianceOfError), Sinker, VarianceOfError),
      Edge(OutputNode, Field(ReselsPerVoxels), Sinker, ReselsPerVoxels),
      Edge(OutputNode, Field(Mask), Sinker, Mask),
      Edge(OutputNode, Field(RegressionCoeff), Sinker, RegressionCoeff),
      Edge(OutputNode, Field(Contrasts), Sinker, Contrasts)
    ]

  /** Every edge the pipeline declares, in the order the three build steps add them. */
  const ALL_EDGES: seq<GraphEdge> := INPUT_EDGES + CORE_EDGES + SINK_EDGES

  /** A topological rank: the stages in the order data flows through them. */
  function Rank(n: NodeName): int
  {
    match n
    case LoadingCLIArguments => 0
    case RunSpmScriptNode => 0
    case InputNode => 1
    case UnzipNode => 2
    case GetGroups => 2
    case ModelCreation => 3
    case RunSpmModelCreation => 4
    case ModelEstimation => 5
    case RunSpmModelEstimation => 6
    case ModelContrast => 7
    case RunSpmModelContrast => 8
    case ModelResultNoCorrection => 9
    case RunSpmModelResultNoCorrection => 10
    case ReadOutputNode => 11
    case OutputNode => 12
    case Sinker => 13
  }

  function PortOrder(p: Port): int
  {
    match p
    case InputFiles => 0
    case InFile => 1
    case FileList => 2
    case IdxGroup1 => 3
    case IdxGroup2 => 4
    case MFile => 5
    case SpmMat => 6
    case ClassNames => 7
    case MatFile => 8
    case Covariates => 9
    case SpmT0001 => 10
    case SpmT0002 => 11
    case SpmResultsAnalysis1 => 12
    case SpmResultsAnalysis2 => 13
    case SpmFigures => 14
    case Figures => 15
    case VarianceOfError => 16
    case ReselsPerVoxels => 17
    case Mask => 18
    case RegressionCoeff => 19
    case Contrasts => 20
    case _ => 21
  }

  /** Orders input ports by the rank of their node, then by port. */
  function TargetKey(n: NodeName, p: Port): int
  {
    Rank(n) * 100 + PortOrder(p)
  }

  lemma RankIncreasesBefore12()
    ensures forall i :: 0 <= i < 12 ==> Rank(CORE_EDGES[i].src) < Rank(CORE_EDGES[i].dst)
  {
  }

  lemma RankIncreasesFrom12()
    ensures forall i :: 12 <= i < 24 ==> Rank(CORE_EDGES[i].src) < Rank(CORE_EDGES[i].dst)
  {
  }

  lemma CoreEdgesRanked()
    ensures Ranked(CORE_EDGES, Rank)
  {
    RankIncreasesBefore12();
    RankIncreasesFrom12();
  }

  lemma SinkEdgesRanked()
    ensures Ranked(SINK_EDGES, Rank)
  {
  }

  /** Every edge goes from a lower-ranked node to a higher-ranked one. */
  lemma EdgesRanked()
    ensures Ranked(ALL_EDGES, Rank)
  {
    CoreEdgesRanked();
    SinkEdgesRanked();
    RankedConcat(INPUT_EDGES, CORE_EDGES, Rank);
    RankedConcat(INPUT_EDGES + CORE_EDGES, SINK_EDGES, Rank);
  }

  /** The declared workflow has no cycle: no path returns to the node it starts from. */
  lemma Acyclic(path: seq<NodeName>)
    requires IsPath(ALL_EDGES, path)
    ensures path[0] != path[|path| - 1]
  {
    EdgesRanked();
    RankedIsAcyclic(ALL_EDGES, Rank, path);
  }

  lemma KeysIncreaseFrom1()
    ensures forall i :: 1 <= i < 7 ==>
      TargetKey(ALL_EDGES[i - 1].dst, ALL_EDGES[i - 1].dstPort) < TargetKey(ALL_EDGES[i].dst, ALL_EDGES[i].dstPort)
  {
  }

  lemma KeysIncreaseFrom7()
    ensures forall i :: 7 <= i < 13 ==>
      TargetKey(ALL_EDGES[i - 1].dst, ALL_EDGES[i - 1].dstPort) < TargetKey(ALL_EDGES[i].dst, ALL_EDGES[i].dstPort)
  {
  }

  lemma KeysIncreaseFrom13()
    ensures forall i :: 13 <= i < 19 ==>
      TargetKey(ALL_EDGES[i - 1].dst, ALL_EDGES[i - 1].dstPort) < TargetKey(ALL_EDGES[i].dst, ALL_EDGES[i].dstPort)
  {
  }

  lemma KeysIncreaseFrom19()
    ensures forall i :: 19 <= i < 25 ==>
      TargetKey(ALL_EDGES[i - 1].dst, ALL_EDGES[i - 1].dstPort) < TargetKey(ALL_EDGES[i].dst, ALL_EDGES[i].dstPort)
  {
  }

  lemma KeysIncreaseFrom25()
    ensures forall i :: 25 <= i < 29 ==>
      TargetKey(ALL_EDGES[i - 1].dst, ALL_EDGES[i - 1].dstPort) < TargetKey(ALL_EDGES[i].dst, ALL_EDGES[i].dstPort)
  {
  }

  lemma KeysIncreaseFrom29()
    ensures forall i :: 29 <= i < 33 ==>
      TargetKey(ALL_EDGES[i - 1].dst, ALL_EDGES[i - 1].dstPort) < TargetKey(ALL_EDGES[i].dst, ALL_EDGES[i].dstPort)
  {
  }

  /** The edges are listed in increasing order of their targets, so no input port is fed twice. */
  lemma TargetsSorted()
    ensures SortedTargets(ALL_EDGES, TargetKey)
    ensures DistinctTargets(ALL_EDGES)
  {
    KeysIncreaseFrom1();
    KeysIncreaseFrom7();
    KeysIncreaseFrom13();
    KeysIncreaseFrom19();
    KeysIncreaseFrom25();
    KeysIncreaseFrom29();
    IncreasingKeysDistinct(ALL_EDGES, TargetKey);
  }

  /** A port that edge k feeds is fed by that edge alone. */
  lemma FedByEdge(k: int, n: NodeName, q: Port)
    requires FeedsAt(ALL_EDGES, k, n, q)
    ensures FeedCount(ALL_EDGES, n, q) == 1
  {
    TargetsSorted();
    FedOnce(ALL_EDGES, k, n, q);
  }

  /** A port whose key falls between the targets of edges k and k + 1 is fed by no edge. */
  lemma FedByNoEdge(k: int, n: NodeName, q: Port)
    requires -1 <= k < |ALL_EDGES|
    requires 0 <= k ==> TargetKey(ALL_EDGES[k].dst, ALL_EDGES[k].dstPort) < TargetKey(n, q)
    requires k + 1 < |ALL_EDGES| ==> TargetKey(n, q) < TargetKey(ALL_EDGES[k + 1].dst, ALL_EDGES[k + 1].dstPort)
    ensures FeedCount(ALL_EDGES, n, q) == 0
  {
    TargetsSorted();
    NotFedBetween(ALL_EDGES, TargetKey, k, n, q);
  }

  /** The SPM launchers each receive their script from the stage before them. */
  lemma LaunchersSaturated(p: Parameters.Params, tsvFile: string, groupLabel: string, moduleDir: string)
    requires ReadsDefined(p)
    ensures var nodes := CoreNodes(p, tsvFile, groupLabel, moduleDir);
      forall i :: 3 <= i < 7 ==> Saturated(ALL_EDGES, nodes[i])
  {
    FedByEdge(5, RunSpmModelCreation, MFile);
    FedByEdge(7, RunSpmModelEstimation, MFile);
    FedByEdge(11, RunSpmModelContrast, MFile);
    FedByEdge(13, RunSpmModelResultNoCorrection, MFile);
  }

  lemma UnzipSaturated()
    ensures Saturated(ALL_EDGES, UNZIP_DECLARATION)
  {
    FedByEdge(1, UnzipNode, InFile);
  }

  lemma GetGroupsSaturated(contrast: Value, tsvFile: string)
    ensures Saturated(ALL_EDGES, GetGroupsDeclaration(contrast, tsvFile))
  {
    FedByNoEdge(1, GetGroups, Tsv);
    FedByNoEdge(1, GetGroups, Contrast);
  }

  lemma ModelCreationSaturated(contrast: Value, tsvFile: string, moduleDir: string)
    ensures Saturated(ALL_EDGES, ModelCreationDeclaration(contrast, tsvFile, moduleDir))
  {
    FedByEdge(2, ModelCreation, FileList);
    FedByEdge(3, ModelCreation, IdxGroup1);
    FedByEdge(4, ModelCreation, IdxGroup2);
    FedByNoEdge(4, ModelCreation, Tsv);
    FedByNoEdge(4, ModelCreation, Contrast);
    FedByNoEdge(4, ModelCreation, TemplateFile);
  }

  lemma ModelEstimationSaturated(moduleDir: string)
    ensures Saturated(ALL_EDGES, ModelEstimationDeclaration(moduleDir))
  {
    FedByEdge(6, ModelEstimation, MatFile);
    FedByNoEdge(6, ModelEstimation, TemplateFile);
  }

  lemma ModelContrastSaturated(moduleDir: string)
    ensures Saturated(ALL_EDGES, ModelContrastDeclaration(moduleDir))
  {
    FedByEdge(8, ModelContrast, ClassNames);
    FedByEdge(9, ModelContrast, MatFile);
    FedByEdge(10, ModelContrast, Covariates);
    FedByNoEdge(10, ModelContrast, TemplateFile);
  }

  lemma ModelResultSaturated(threshold: Value, moduleDir: string)
    ensures Saturated(ALL_EDGES, ModelResultDeclaration(threshold, moduleDir))
  {
    FedByEdge(12, ModelResultNoCorrection, MatFile);
    FedByNoEdge(12, ModelResultNoCorrection, TemplateFile);
    FedByNoEdge(12, ModelResultNoCorrection, Method);
    FedByNoEdge(12, ModelResultNoCorrection, Threshold);
  }

  lemma ReadOutputSaturated(groupLabel: string, fwhm: Value, measure: Value)
    ensures Saturated(ALL_EDGES, ReadOutputDeclaration(groupLabel, fwhm, measure))
  {
    FedByEdge(14, ReadOutputNode, SpmMat);
    FedByEdge(15, ReadOutputNode, ClassNames);
    FedByEdge(16, ReadOutputNode, Covariates);
    FedByNoEdge(16, ReadOutputNode, GroupLabel);
    FedByNoEdge(16, ReadOutputNode, Fwhm);
    FedByNoEdge(16, ReadOutputNode, Measure);
  }

  /**
    Every node of the core receives exactly one value on each of its declared
    inputs, except run_spm_script_node: nothing feeds it and nothing reads
    from it.
   */
  lemma CoreNodesSaturated(p: Parameters.Params, tsvFile: string, groupLabel: string, moduleDir: string)
    requires ReadsDefined(p)
    ensures var nodes := CoreNodes(p, tsvFile, groupLabel, moduleDir);
      forall i :: 0 <= i < |nodes| && nodes[i].name != RunSpmScriptNode ==> Saturated(ALL_EDGES, nodes[i])
    ensures FeedCount(ALL_EDGES, RunSpmScriptNode, MFile) == 0
    ensures forall i :: 0 <= i < |ALL_EDGES| ==> ALL_EDGES[i].src != RunSpmScriptNode
  {
    FedByNoEdge(-1, RunSpmScriptNode, MFile);
    LaunchersSaturated(p, tsvFile, groupLabel, moduleDir);
    UnzipSaturated();
    GetGroupsSaturated(p[Parameters.Contrast], tsvFile);
    ModelCreationSaturated(p[Parameters.Contrast], tsvFile, moduleDir);
    ModelEstimationSaturated(moduleDir);
    ModelContrastSaturated(moduleDir);
    ModelResultSaturated(p[Parameters.ClusterThreshold], moduleDir);
    ReadOutputSaturated(groupLabel, p[Parameters.FullWidthAtHalfMaximum], p[Parameters.MeasureLabel]);
    EdgesRanked();
  }

  /** The loading node and the input node each hold the input files once. */
  lemma InputSideSaturated(inputFiles: seq<string>)
    ensures Saturated(ALL_EDGES, LoadingNode(inputFiles))
    ensures Saturated(ALL_EDGES, INPUT_NODE)
  {
    FedByNoEdge(-1, LoadingCLIArguments, InputFiles);
    FedByEdge(0, InputNode, InputFiles);
  }

  /**
    The output node receives each of its fields once except "contrast": the
    read-output node's contrasts go to an output port named "contrasts",
    which is not one of the output fields, and the sink reads them from there.
   */
  lemma OutputFields()
    ensures forall j :: 0 <= j < 7 ==> FeedCount(ALL_EDGES, OutputNode, OUTPUT_FIELDS[j]) == 1
    ensures OUTPUT_FIELDS[7] == Contrast && FeedCount(ALL_EDGES, OutputNode, Contrast) == 0
    ensures FeedsAt(ALL_EDGES, 24, OutputNode, Contrasts) && Contrasts !in OUTPUT_FIELDS
    ensures FeedCount(ALL_EDGES, OutputNode, Contrasts) == 1
  {
    OutputEdges();
    FedByEdge(17, OutputNode, SpmT0001);
    FedByEdge(18, OutputNode, SpmT0002);
    FedByEdge(19, OutputNode, SpmFigures);
    FedByEdge(20, OutputNode, VarianceOfError);
    FedByEdge(21, OutputNode, ReselsPerVoxels);
    FedByEdge(22, OutputNode, Mask);
    FedByEdge(23, OutputNode, RegressionCoeff);
    FedByEdge(24, OutputNode, Contrasts);
    FedByNoEdge(24, OutputNode, Contrast);
  }

  /** Edges 17-24 are the read-output node's connections to the output node. */
  lemma OutputEdges()
    ensures ALL_EDGES[17..25] == CORE_EDGES[16..]
  {
    assert ALL_EDGES == INPUT_EDGES + CORE_EDGES + SINK_EDGES;
  }

  /** The sink reads every output field except "contrast", and reads "contrasts" in its place. */
  lemma SinkReadsOutputFields()
    ensures forall j :: 0 <= j < |SINK_EDGES| ==> SINK_EDGES[j].src == OutputNode && SINK_EDGES[j].srcPort.Field?
    ensures forall j :: 0 <= j < |SINK_EDGES| ==> (SINK_EDGES[j].srcPort.port in OUTPUT_FIELDS <==> j != 7)
    ensures SINK_EDGES[7].srcPort.port == Contrasts
    ensures forall j :: 0 <= j < |SINK_EDGES| ==> SINK_EDGES[j].srcPort.port != Contrast
  {
  }

  /** The stages in the order data flows through them, from the input node to the sink. */
  const STAGES: seq<NodeName> :=
    [ InputNode, UnzipNode,
      ModelCreation, RunSpmModelCreation, ModelEstimation, RunSpmModelEstimation,
      ModelContrast, RunSpmModelContrast, ModelResultNoCorrection, RunSpmModelResultNoCorrection,
      ReadOutputNode, OutputNode, Sinker ]

  /** The input files reach the sink through every SPM stage in turn. */
  lemma StagesChained()
    ensures IsPath(ALL_EDGES, STAGES)
  {
    PathThrough(ALL_EDGES, STAGES, [1, 2, 5, 6, 7, 9, 11, 12, 13, 14, 17, 25]);
  }

  /** The creation order of the twelve core nodes. */
  const CORE_NODE_NAMES: seq<NodeName> :=
    [ UnzipNode, GetGroups, RunSpmScriptNode,
      RunSpmModelCreation, RunSpmModelEstimation, RunSpmModelContrast, RunSpmModelResultNoCorrection,
      ModelCreation, ModelEstimation, ModelContrast, ModelResultNoCorrection, ReadOutputNode ]

  /**
    The core nodes have distinct names, in creation order; only model_creation
    is run again on every execution.
   */
  lemma CoreNodesNamed(p: Parameters.Params, tsvFile: string, groupLabel: string, moduleDir: string)
    requires ReadsDefined(p)
    ensures var nodes := CoreNodes(p, tsvFile, groupLabel, moduleDir);
      && |nodes| == |CORE_NODE_NAMES| == 12
      && (forall i :: 0 <= i < |nodes| ==> nodes[i].name == CORE_NODE_NAMES[i])
      && (forall i :: 0 <= i < |nodes| ==> (nodes[i].overwrite <==> nodes[i].name == ModelCreation))
    ensures forall i, j :: 0 <= i < j < |CORE_NODE_NAMES| ==> CORE_NODE_NAMES[i] != CORE_NODE_NAMES[j]
  {
    var nodes := CoreNodes(p, tsvFile, groupLabel, moduleDir);
    forall i | 0 <= i < |nodes|
      ensures nodes[i].name == CORE_NODE_NAMES[i]
      ensures nodes[i].overwrite <==> nodes[i].name == ModelCreation
    {
      if i < 6 {
        if i < 3 { } else { }
      } else {
        if i < 9 { } else { }
      }
    }
  }

  /**
    The output node's t-maps and the variance, resels and mask files are picked
    out of read_output_node's lists by position. Nothing pads the lists: two
    t-maps and three other SPM files are needed, and a shorter list makes the
    connection raise IndexError.
   */
  lemma OutputSplicing(spmTMaps: seq<string>, otherSpmFiles: seq<string>)
    ensures CORE_EDGES[16].srcPort.port == SpmTMaps && CORE_EDGES[17].srcPort.port == SpmTMaps
    ensures Transfer(CORE_EDGES[16].srcPort, Files(spmTMaps))
              == if |spmTMaps| > 0 then Ok(File(spmTMaps[0])) else Err(IndexError)
    ensures Transfer(CORE_EDGES[17].srcPort, Files(spmTMaps))
              == if |spmTMaps| > 1 then Ok(File(spmTMaps[1])) else Err(IndexError)
    ensures forall k :: 19 <= k < 22 ==> CORE_EDGES[k].srcPort.port == OtherSpmFiles
    ensures forall k :: 19 <= k < 22 ==>
              Transfer(CORE_EDGES[k].srcPort, Files(otherSpmFiles))
              == if |otherSpmFiles| > k - 19 then Ok(File(otherSpmFiles[k - 19])) else Err(IndexError)
  {
  }

  /** The sink folders of lines 241-264, in connection order. */
  const SINK_FOLDERS: seq<string> :=
    [ "spm_results_analysis_1", "spm_results_analysis_2", "figures", "variance_of_error",
      "resels_per_voxels", "mask", "regression_coeff", "contrasts" ]

  lemma SinkFolderSpellings()
    ensures forall j :: 0 <= j < |SINK_EDGES| ==> Spelling(SINK_EDGES[j].dstPort) == SINK_FOLDERS[j]
  {
  }

  lemma SinkFoldersMatched()
    ensures forall j :: 0 <= j < |SINK_FOLDERS| && j != 5 ==>
              exists i :: 0 <= i < |OutputLayout.RULE_FOLDERS| && OutputLayout.DotMatches(SINK_FOLDERS[j], OutputLayout.RULE_FOLDERS[i])
  {
    assert OutputLayout.DotMatches(SINK_FOLDERS[0], OutputLayout.RULE_FOLDERS[0]);
    assert OutputLayout.DotMatches(SINK_FOLDERS[1], OutputLayout.RULE_FOLDERS[0]);
    assert OutputLayout.DotMatches(SINK_FOLDERS[2], OutputLayout.RULE_FOLDERS[6]);
    assert OutputLayout.DotMatches(SINK_FOLDERS[3], OutputLayout.RULE_FOLDERS[4]);
    assert OutputLayout.DotMatches(SINK_FOLDERS[4], OutputLayout.RULE_FOLDERS[2]);
    assert OutputLayout.DotMatches(SINK_FOLDERS[6], OutputLayout.RULE_FOLDERS[7]);
    assert OutputLayout.DotMatches(SINK_FOLDERS[7], OutputLayout.RULE_FOLDERS[1]);
  }

  lemma MaskFolderUnmatched()
    ensures forall i :: 0 <= i < |OutputLayout.RULE_FOLDERS| ==> !OutputLayout.DotMatches("mask", OutputLayout.RULE_FOLDERS[i])
  {
    assert OutputLayout.RULE_FOLDERS[3][4] == ' ';
  }

  /**
    Every folder the sink writes to is matched by the folder of some renaming
    rule, reading `.` as any character, except "mask": its rule names "mask "
    with a trailing space, so the mask keeps its original name.
   */
  lemma SinkFoldersAndRuleFolders()
    ensures forall j :: 0 <= j < |SINK_EDGES| && SINK_EDGES[j].dstPort != Mask ==>
              exists i :: 0 <= i < |OutputLayout.RULE_FOLDERS|
                          && OutputLayout.DotMatches(Spelling(SINK_EDGES[j].dstPort), OutputLayout.RULE_FOLDERS[i])
    ensures SINK_EDGES[5].dstPort == Mask && Spelling(Mask) == "mask"
    ensures forall i :: 0 <= i < |OutputLayout.RULE_FOLDERS| ==> !OutputLayout.DotMatches("mask", OutputLayout.RULE_FOLDERS[i])
  {
    SinkFolderSpellings();
    SinkFoldersMatched();
    MaskFolderUnmatched();
  }

  /** The nodes of the whole workflow, in the order the build steps add them, given the input files and the sink. */
  function PipelineNodes(inputFiles: seq<string>, p: Parameters.Params, tsvFile: string, groupLabel: string,
                         moduleDir: string, sink: GraphNode): (nodes: seq<GraphNode>)
    requires ReadsDefined(p)
    ensures |nodes| == 16 && nodes[15] == sink
  {
    [INPUT_NODE, OUTPUT_NODE, LoadingNode(inputFiles)] + CoreNodes(p, tsvFile, groupLabel, moduleDir) + [sink]
  }

  /**
    In the whole workflow, every node but run_spm_script_node, the output
    node and the sink receives exactly one value on each declared input.
   */
  lemma WorkflowSaturated(inputFiles: seq<string>, p: Parameters.Params, tsvFile: string, groupLabel: string,
                          moduleDir: string, sink: GraphNode)
    requires ReadsDefined(p) && sink.name == Sinker
    ensures var nodes := PipelineNodes(inputFiles, p, tsvFile, groupLabel, moduleDir, sink);
      forall i :: 0 <= i < |nodes| && nodes[i].name !in {RunSpmScriptNode, OutputNode, Sinker} ==>
        Saturated(ALL_EDGES, nodes[i])
  {
    var nodes := PipelineNodes(inputFiles, p, tsvFile, groupLabel, moduleDir, sink);
    var core := CoreNodes(p, tsvFile, groupLabel, moduleDir);
    InputSideSaturated(inputFiles);
    CoreNodesSaturated(p, tsvFile, groupLabel, moduleDir);
    forall i | 0 <= i < |nodes| && nodes[i].name !in {RunSpmScriptNode, OutputNode, Sinker}
      ensures Saturated(ALL_EDGES, nodes[i])
    {
      if i == 0 {
        assert nodes[i] == INPUT_NODE;
      } else if i == 2 {
        assert nodes[i] == LoadingNode(inputFiles);
      } else if 3 <= i < 15 {
        assert nodes[i] == core[i - 3];
      }
    }
  }
}
