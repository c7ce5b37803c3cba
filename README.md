# StatisticsVolume pipeline model

A Dafny model of clinica's `StatisticsVolume` group pipeline. The pipeline runs a volume-based
mass-univariate analysis with SPM. The model covers the four things the pipeline class decides
for itself:

- **Parameter check** (`_check_pipeline_parameters`). There are two compulsory keys. Eight optional
  keys get defaults through `setdefault`. `acq_label` and `suvr_reference_region` are coerced to
  their enumerations, but only when truthy. The cluster threshold must lie in [0, 1]. The check
  changes the dictionary in place, so the model returns the dictionary as the check leaves it
  together with the outcome. A check that raises part-way keeps the defaults already filled in.
- **Input-source dispatch** (`_build_input_node`). `orig_input_data_volume` selects pet-volume,
  t1-volume or custom-pipeline inputs. The dispatch sets `measure_label` (or, for custom inputs,
  clears the FWHM) and builds the descriptor handed to the file filter. The loading node holds the
  files found and feeds the pipeline's input node.
- **Output layout** (`_build_output_node`). This covers:
  - the base directory `<group>/statistics_volume/group_comparison_measure-<measure>`;
  - the eight ordered renaming rules of the data sink, given only when the FWHM is truthy;
  - the eight connections from the output node to the sink folders.
- **Stage graph** (`_build_core_nodes`). This covers the twelve nodes with their declared input and
  output ports and literal inputs, the 24 connections, and `_getter`, which picks one element of a
  list.

Modules:

- `Python` (python.dfy): dynamic values, exceptions, truthiness, f-string rendering, and Python indexing.
- `Parameters` (parameters.dfy): the check as functions on the dictionary, with the reference
  dictionary `Completed` that a successful check leaves.
- `InputSelection` (input_selection.dfy): the dispatch.
- `OutputLayout` (output_layout.dfy): paths and renaming rules.
- `Workflow` (workflow.dfy): generic nodes and edges, feed counts, paths, ranks, and
  `_getter`/`Transfer`.
- `CoreGraph` (core_graph.dfy): the literal declarations, with lemmas that every declared input is
  fed exactly once, that the graph is acyclic, and how positional splicing behaves.
- `StatisticsVolumePipeline` (statistics_volume.dfy): the `StatisticsVolume` class. Its methods
  update `parameters`, `subjects`, `sessions`, `nodes` and `edges` in place, step by step as the
  source does. Each method's postcondition gives the whole new state in terms of the functions
  above: `Check`, `Select`, the file filter's result, and the declared nodes and edges.

Where the source's definitions live in the model (each is stated by the lemmas named in the table):

- `get_input_fields` (lines 61-69) and `get_output_fields` (lines 71-88): `CoreGraph.INPUT_FIELDS`
  and `CoreGraph.OUTPUT_FIELDS`.
- The loading node and its connection (lines 154-172): `CoreGraph.LoadingNode` and
  `CoreGraph.INPUT_EDGES`.
- The core nodes (lines 287-434): `CoreGraph.CoreNodes`. It lists `CoreGraph.UNZIP_DECLARATION`, the five script launchers built by `CoreGraph.SpmScriptNode`, and one `CoreGraph.<Node>Declaration` function for each of the other six nodes. The saturation lemmas below are stated on those functions.
- The core connections (lines 439-466): `CoreGraph.CORE_EDGES`.
- The sink connections (lines 241-264): `CoreGraph.SINK_EDGES`.
- The base directory (lines 181-185): `OutputLayout.BaseDir`.
- The renaming rules (lines 191-237): `OutputLayout.Substitutions`.
- The dictionary a successful check leaves (lines 27-46): `Parameters.Completed`.

Dictionary keys are canonical: the ten names the pipeline reads are constructors of `DictKey`, and
the subset type `Key` forbids an `Other` key spelled like one of them. So two keys are equal
exactly when their spellings are (`Parameters.NameIsInjective`).

Behaviour of the source worth noting:

- An enumeration value is coerced whenever it is truthy, whatever its type.
- A threshold Python cannot compare with an int raises `TypeError` rather than the range error.
- A NaN threshold passes the range check, because both `nan < 0` and `nan > 1` are False, and it
  is stored as given.
- A failed pet-volume selection always raises `AttributeError`: its message reads `.value` on a
  falsy, non-enumeration value.
- With a falsy FWHM the data sink gets no renaming rules at all.
- `get_output_fields` lists "contrast", while the connections use "contrasts".

## Model

| member | source | states |
|---|---|---|
| Python.ValueAttribute | clinica/pipelines/statistics_volume/statistics_volume_pipeline.py:111-116 | `.value` succeeds exactly on enumeration members, giving the member's value, and otherwise raises AttributeError("value") |
| Python.Index | clinica/pipelines/statistics_volume/statistics_volume_pipeline.py:284-285 | Python indexing: succeeds exactly for -len <= i < len; a negative index counts from the end; otherwise IndexError |
| Parameters.NameIsInjective | clinica/pipelines/statistics_volume/statistics_volume_pipeline.py:14-46 | two keys are the same dictionary key exactly when their spellings are the same |
| Parameters.SetDefault | clinica/pipelines/statistics_volume/statistics_volume_pipeline.py:27-46 | after `setdefault` only the key changes, to its given value or the default; every other key is kept, and a dictionary that had the key is unchanged |
| Parameters.ToEnum | clinica/pipelines/statistics_volume/statistics_volume_pipeline.py:32-38 | an enumeration call succeeds exactly on a string or member whose value the enumeration admits, giving the member with that value; otherwise ValueError |
| Parameters.CoerceIfTruthy | clinica/pipelines/statistics_volume/statistics_volume_pipeline.py:32-38 | a falsy value is left as is; a truthy one is replaced by its member, or the enumeration's error is raised |
| Parameters.ThresholdMessage | clinica/pipelines/statistics_volume/statistics_volume_pipeline.py:52-55 | the range error message contains the offending value as `str()` prints it |
| Parameters.CheckThreshold | clinica/pipelines/statistics_volume/statistics_volume_pipeline.py:48-55 | passes exactly when the threshold is a number in [0, 1], bounds included, or NaN; a value that does not compare with an int raises TypeError, an out-of-range number a ClinicaException quoting it |
| Parameters.CoerceStep | clinica/pipelines/statistics_volume/statistics_volume_pipeline.py:31-38 | setdefault-then-coerce passes exactly when the value is absent, falsy or admitted; it then stores the coerced value, and on failure leaves the dictionary unchanged |
| Parameters.FillGeneralDefaults | clinica/pipelines/statistics_volume/statistics_volume_pipeline.py:27-28 | the two general defaults ("*" and 8) fill only absent keys |
| Parameters.FillFinalDefaults | clinica/pipelines/statistics_volume/statistics_volume_pipeline.py:39-46 | the four later defaults (False, None, None, 0.001) fill only absent keys |
| Parameters.CoerceEnums | clinica/pipelines/statistics_volume/statistics_volume_pipeline.py:31-38 | acq_label is coerced first; its failure stops the check before suvr_reference_region is touched |
| Parameters.CheckComplete | clinica/pipelines/statistics_volume/statistics_volume_pipeline.py:26-55 | with both compulsory keys present: the dictionary and outcome for each of the three ways the rest of the check can end |
| Parameters.Check | clinica/pipelines/statistics_volume/statistics_volume_pipeline.py:14-55 | a missing orig_input_data_volume raises KeyError first, then a missing contrast, both before any default; otherwise the enumeration errors leave the defaults filled so far; otherwise the completed dictionary and the threshold check |
| Parameters.CheckPassesIff | clinica/pipelines/statistics_volume/statistics_volume_pipeline.py:14-55 | the check passes if and only if both compulsory keys are given, both enumeration values are admissible and the threshold (given or default) is in [0, 1] or NaN; it then leaves the completed dictionary |
| Parameters.CompletedResolvesKeys | clinica/pipelines/statistics_volume/statistics_volume_pipeline.py:27-46 | the completed dictionary holds every key the pipeline reads, and exactly the given and the optional keys |
| Parameters.CompletedKeepsGiven | clinica/pipelines/statistics_volume/statistics_volume_pipeline.py:27-46 | every given value except the two enumeration values is kept |
| Parameters.CompletedFillsDefaults | clinica/pipelines/statistics_volume/statistics_volume_pipeline.py:27-46 | each of the eight absent optional keys holds its default |
| Parameters.CompletedCoerces | clinica/pipelines/statistics_volume/statistics_volume_pipeline.py:31-38 | an enumeration key ends up holding a member exactly when it was given truthy, and then it is the member whose value was given; otherwise it holds its falsy given value or None |
| Parameters.CheckedResolves | clinica/pipelines/statistics_volume/statistics_volume_pipeline.py:14-55 | after a successful check every key the build steps read is present |
| Parameters.SuccessfulCheckBoundsThreshold | clinica/pipelines/statistics_volume/statistics_volume_pipeline.py:48-55 | after a successful check the stored threshold lies in [0, 1] or is NaN; a threshold with a number lies in [0, 1] |
| Parameters.NaNThresholdPasses | clinica/pipelines/statistics_volume/statistics_volume_pipeline.py:48-55 | a NaN threshold passes the check whenever the rest of the dictionary does, and is stored as given |
| Parameters.CompletedEnumKeys | clinica/pipelines/statistics_volume/statistics_volume_pipeline.py:27-46 | the completed dictionary holds the coerced enumeration values and the given input source |
| Parameters.CoercedIsStable | clinica/pipelines/statistics_volume/statistics_volume_pipeline.py:32-38 | a coerced value coerces to itself |
| Parameters.CompletedIsIdempotent | clinica/pipelines/statistics_volume/statistics_volume_pipeline.py:27-46 | completing a completed dictionary changes nothing |
| Parameters.CheckIsIdempotent | clinica/pipelines/statistics_volume/statistics_volume_pipeline.py:14-55 | checking again after a successful check gives the same dictionary and outcome |
| InputSelection.MissingPetValues | clinica/pipelines/statistics_volume/statistics_volume_pipeline.py:105-114 | building the pet-volume error raises AttributeError unless both values are members, and only then gives the ValueError |
| InputSelection.SelectPetVolume | clinica/pipelines/statistics_volume/statistics_volume_pipeline.py:104-124 | succeeds exactly when acq_label and suvr_reference_region are truthy and acq_label is a member; sets measure_label to the tracer's value and passes the six named arguments; a falsy value gives AttributeError |
| InputSelection.SelectT1Volume | clinica/pipelines/statistics_volume/statistics_volume_pipeline.py:125-132 | measure_label becomes "graymatter", every other key is kept, and the descriptor asks for tissue 1, modulated |
| InputSelection.SelectCustom | clinica/pipelines/statistics_volume/statistics_volume_pipeline.py:134-144 | succeeds exactly when custom_file is truthy (otherwise the ClinicaException); the FWHM becomes None and the descriptor holds only the user's pattern |
| InputSelection.Select | clinica/pipelines/statistics_volume/statistics_volume_pipeline.py:104-148 | dispatches on the three source names; any other value raises ValueError naming it |
| InputSelection.SelectSucceedsIff | clinica/pipelines/statistics_volume/statistics_volume_pipeline.py:104-148 | the dispatch succeeds if and only if the source is known and has the values it needs |
| InputSelection.SelectChangesOneKey | clinica/pipelines/statistics_volume/statistics_volume_pipeline.py:104-148 | a successful dispatch changes only the FWHM (custom) or only measure_label (the others) |
| InputSelection.SelectKeepsResolved | clinica/pipelines/statistics_volume/statistics_volume_pipeline.py:104-148 | a successful dispatch keeps every key the later steps read |
| InputSelection.CompletedPetVolumeSelection | clinica/pipelines/statistics_volume/statistics_volume_pipeline.py:104-116 | on a completed dictionary, pet-volume succeeds exactly when both values were given truthy; measure_label is then the acq_label given (its string or its member's value), an admitted tracer value, and a failure is AttributeError |
| InputSelection.CheckedPetVolumeSelection | clinica/pipelines/statistics_volume/statistics_volume_pipeline.py:104-116 | the same after a successful check: measure_label is the acq_label the user gave |
| InputSelection.CoercedPetVolumeSelection | clinica/pipelines/statistics_volume/statistics_volume_pipeline.py:104-116 | the pet-volume dispatch on any dictionary holding the coerced enumeration values: success exactly when both were given truthy, measure_label the acq_label given |
| InputSelection.CheckedSelectionSucceedsIff | clinica/pipelines/statistics_volume/statistics_volume_pipeline.py:14-148 | after a successful check the dispatch succeeds exactly for pet-volume with both enumeration values given truthy, for t1-volume, and for custom-pipeline with a truthy custom_file |
| OutputLayout.BaseDirLayout | clinica/pipelines/statistics_volume/statistics_volume_pipeline.py:181-185 | the base directory is `<group>/statistics_volume/group_comparison_measure-<measure>` |
| OutputLayout.SinkSubstitutions | clinica/pipelines/statistics_volume/statistics_volume_pipeline.py:191-237 | the renaming rules are given if and only if the FWHM is truthy |
| OutputLayout.SubstitutionsOrder | clinica/pipelines/statistics_volume/statistics_volume_pipeline.py:191-237 | eight rules whose patterns lie under base/folder/ for the folders t-stat, contrasts, RPV, "mask " (with its space), variance, tsv, figures and regression, in that order |
| OutputLayout.ReplacementsStartWithBase | clinica/pipelines/statistics_volume/statistics_volume_pipeline.py:191-237 | every replacement string starts with the base directory and "/" (the tsv one then leaves it through `..`) |
| OutputLayout.TsvReplacement | clinica/pipelines/statistics_volume/statistics_volume_pipeline.py:218-222 | the tsv rule renames to `<base>/../<group_id>_participants.tsv` |
| OutputLayout.RegressionReplacement | clinica/pipelines/statistics_volume/statistics_volume_pipeline.py:228-235 | the regression rule renames to `<base>/<group_id>_covariate-\1_measure-<m>_fwhm-<w>_regressionCoefficient.nii` |
| Workflow.Getter | clinica/pipelines/statistics_volume/statistics_volume_pipeline.py:284-285 | `_getter` succeeds exactly for an index in Python's range, otherwise IndexError, never padding; on a list it gives the element at that index, counted from the end when negative; on a str it gives the one-character string at that index |
| Workflow.Transfer | clinica/pipelines/statistics_volume/statistics_volume_pipeline.py:457-462 | a plain connection passes the value on, a `(port, _getter, i)` connection passes `_getter(value, i)` |
| Workflow.FedOnce | clinica/pipelines/statistics_volume/statistics_volume_pipeline.py:439-466 | with distinct targets, a port some connection feeds is fed by that connection alone |
| Workflow.NotFedBetween | clinica/pipelines/statistics_volume/statistics_volume_pipeline.py:439-466 | in a connection list sorted by target, a port whose key falls between two neighbours is fed by no connection |
| Workflow.RankedIsAcyclic | clinica/pipelines/statistics_volume/statistics_volume_pipeline.py:439-466 | a graph whose connections all go up in rank has no cycle |
| CoreGraph.InputFieldSpellings | clinica/pipelines/statistics_volume/statistics_volume_pipeline.py:61-69 | `get_input_fields` is the single field "input_files" |
| CoreGraph.OutputFieldSpellings | clinica/pipelines/statistics_volume/statistics_volume_pipeline.py:71-88 | `get_output_fields` is the eight distinct fields spmT_0001, spmT_0002, spm_figures, variance_of_error, resels_per_voxels, mask, regression_coeff and "contrast", in that order |
| CoreGraph.SinkNode | clinica/pipelines/statistics_volume/statistics_volume_pipeline.py:187-239 | the sink writes under the base directory with parameterization on and the tsv file, and gets the eight renaming rules exactly when the FWHM is truthy |
| CoreGraph.EdgesRanked | clinica/pipelines/statistics_volume/statistics_volume_pipeline.py:439-466 | every connection of the workflow goes from an earlier stage to a later one |
| CoreGraph.Acyclic | clinica/pipelines/statistics_volume/statistics_volume_pipeline.py:439-466 | no path of the workflow returns to its start |
| CoreGraph.TargetsSorted | clinica/pipelines/statistics_volume/statistics_volume_pipeline.py:439-466 | no two connections of the workflow feed the same input port |
| CoreGraph.LaunchersSaturated | clinica/pipelines/statistics_volume/statistics_volume_pipeline.py:310-331 | each of the four SPM launchers gets its m_file exactly once |
| CoreGraph.UnzipSaturated | clinica/pipelines/statistics_volume/statistics_volume_pipeline.py:288-295 | unzip_node's in_file is fed exactly once |
| CoreGraph.GetGroupsSaturated | clinica/pipelines/statistics_volume/statistics_volume_pipeline.py:298-308 | get_groups' tsv and contrast are literals and fed by no connection |
| CoreGraph.ModelCreationSaturated | clinica/pipelines/statistics_volume/statistics_volume_pipeline.py:342-362 | model_creation's six inputs each get one value: three literals, three connections |
| CoreGraph.ModelEstimationSaturated | clinica/pipelines/statistics_volume/statistics_volume_pipeline.py:365-375 | model_estimation's two inputs each get one value |
| CoreGraph.ModelContrastSaturated | clinica/pipelines/statistics_volume/statistics_volume_pipeline.py:378-388 | model_contrast's four inputs each get one value |
| CoreGraph.ModelResultSaturated | clinica/pipelines/statistics_volume/statistics_volume_pipeline.py:391-406 | model_result_no_correction's four inputs each get one value |
| CoreGraph.ReadOutputSaturated | clinica/pipelines/statistics_volume/statistics_volume_pipeline.py:411-434 | read_output_node's six inputs each get one value |
| CoreGraph.CoreNodesSaturated | clinica/pipelines/statistics_volume/statistics_volume_pipeline.py:287-466 | every core node except run_spm_script_node gets exactly one value on each declared input; run_spm_script_node is neither fed nor read |
| CoreGraph.InputSideSaturated | clinica/pipelines/statistics_volume/statistics_volume_pipeline.py:154-172 | the loading node holds the input files as a literal, and the input node gets them through one connection |
| CoreGraph.OutputFields | clinica/pipelines/statistics_volume/statistics_volume_pipeline.py:457-464 | seven output fields are fed exactly once; "contrast" (line 87) is fed by none, and the contrasts go to a "contrasts" port that is not an output field |
| CoreGraph.SinkReadsOutputFields | clinica/pipelines/statistics_volume/statistics_volume_pipeline.py:241-264 | the sink reads seven output fields and "contrasts", never "contrast" |
| CoreGraph.StagesChained | clinica/pipelines/statistics_volume/statistics_volume_pipeline.py:441-464 | a path runs input → unzip → model_creation → run → model_estimation → run → model_contrast → run → model_result_no_correction → run → read_output_node → output → sink |
| CoreGraph.CoreNodesNamed | clinica/pipelines/statistics_volume/statistics_volume_pipeline.py:287-434 | twelve core nodes with distinct names in creation order, and only model_creation has overwrite set |
| CoreGraph.OutputSplicing | clinica/pipelines/statistics_volume/statistics_volume_pipeline.py:457-462 | spmT_0001/0002 take spm_T_maps[0] and [1]; variance, resels and mask take other_spm_files[0], [1] and [2]; a shorter list raises IndexError |
| CoreGraph.SinkFoldersAndRuleFolders | clinica/pipelines/statistics_volume/statistics_volume_pipeline.py:191-264 | every sink folder but "mask" is matched by a rule folder; "mask" is matched by none, because its rule says "mask " |
| CoreGraph.WorkflowSaturated | clinica/pipelines/statistics_volume/statistics_volume_pipeline.py:154-466 | in the whole workflow every node but run_spm_script_node, the output node and the sink gets exactly one value on each declared input |
| StatisticsVolumePipeline.StatisticsVolume.SetDefaultKey | clinica/pipelines/statistics_volume/statistics_volume_pipeline.py:27-46 | `setdefault` in place: the new dictionary is SetDefault of the old, nothing else changes |
| StatisticsVolumePipeline.StatisticsVolume.CoerceKey | clinica/pipelines/statistics_volume/statistics_volume_pipeline.py:31-38 | setdefault-then-coerce in place leaves the dictionary and outcome of CoerceStep |
| StatisticsVolumePipeline.StatisticsVolume.CheckPipelineParameters | clinica/pipelines/statistics_volume/statistics_volume_pipeline.py:14-55 | the check in place leaves exactly the dictionary and outcome of Check on the old dictionary; nothing else changes |
| StatisticsVolumePipeline.StatisticsVolume.DispatchPetVolume | clinica/pipelines/statistics_volume/statistics_volume_pipeline.py:104-124 | in place, the pet-volume branch leaves the dictionary and descriptor of SelectPetVolume, or raises its error leaving the dictionary unchanged |
| StatisticsVolumePipeline.StatisticsVolume.DispatchT1Volume | clinica/pipelines/statistics_volume/statistics_volume_pipeline.py:125-132 | in place, the t1-volume branch leaves the dictionary and descriptor of SelectT1Volume |
| StatisticsVolumePipeline.StatisticsVolume.DispatchCustom | clinica/pipelines/statistics_volume/statistics_volume_pipeline.py:134-144 | in place, the custom branch leaves the dictionary and descriptor of SelectCustom, or raises leaving it unchanged |
| StatisticsVolumePipeline.StatisticsVolume.DispatchInput | clinica/pipelines/statistics_volume/statistics_volume_pipeline.py:104-148 | in place, the dispatch agrees with Select |
| StatisticsVolumePipeline.StatisticsVolume.BuildInputNode | clinica/pipelines/statistics_volume/statistics_volume_pipeline.py:90-172 | on failure nothing changes; on success the dictionary is Select's, subjects and sessions are the filter's, and the loading node and its connection are added |
| StatisticsVolumePipeline.StatisticsVolume.BuildCoreNodes | clinica/pipelines/statistics_volume/statistics_volume_pipeline.py:266-466 | adds the twelve core nodes and the 24 connections |
| StatisticsVolumePipeline.StatisticsVolume.BuildOutputNode | clinica/pipelines/statistics_volume/statistics_volume_pipeline.py:174-264 | adds the sink under BaseDir(group directory, measure_label) and its eight connections |
| StatisticsVolumePipeline.StatisticsVolume.BuildSteps | clinica/pipelines/statistics_volume/statistics_volume_pipeline.py:90-466 | the steps succeed exactly when Select does; on failure nothing changes; on success the dictionary is Select's, subjects and sessions are the filter's, the nodes are the declared ones (loading node from the files found, sink under BaseDir of the new measure_label), the edges are all 33 connections, and every node but the launcher template, the output node and the sink is saturated |
| StatisticsVolumePipeline.StatisticsVolume.BuildCoreAndOutput | clinica/pipelines/statistics_volume/statistics_volume_pipeline.py:174-466 | dictionary, subjects and sessions unchanged; the nodes become the declared ones and the edges all 33 connections, with the nodes saturated |
| StatisticsVolumePipeline.StatisticsVolume.Build | clinica/pipelines/statistics_volume/statistics_volume_pipeline.py:14-466 | a failed check leaves the check's dictionary with nothing else changed; after a successful check the run ends as BuildSteps states on the checked dictionary, so it succeeds exactly when the check and Select both do |

## Left out

- nipype itself is not modelled: how nodes run, how `connect` checks ports, DataSink copying files,
  `clone`, and the `synchronize` and `mandatory_inputs` options. Nodes and connections are declared
  data.
- The regular-expression engine the data sink applies is not modelled. The renaming rules are data;
  `DotMatches` reads only the `.` of the t-stat folder pattern.
- `clinica_file_filter`, `pet_volume_normalized_suvr_pet` and `t1_volume_template_tpm_in_mni`
  discover files. The filter is a function parameter of `BuildInputNode`, and a descriptor is kept as
  the arguments the descriptor builders are called with.
- The members of `Tracer` and `SUVRReferenceRegion` are not part of this model. The admitted values
  are a parameter (`EnumValues`).
- Parameters.ToEnum: the ValueError message renders a rejected member by its value, not with the
  `<Enum.NAME: 'value'>` form of its repr, since member names are not part of this model; a rejected
  string is quoted, with no escaping.
- Console output (`cprint`, `print_images_to_process`, `print_begin_image`, lines 163-168) is
  left out.
- The `statistics_volume_utils` functions and `unzip_nii` are not part of this model. They drive
  MATLAB/SPM and the filesystem; only their declared ports are modelled.
- The pipeline engine (`GroupPipeline`) is not part of this model. It provides the group directory,
  group id, group label, tsv file, the input and output identity nodes (named "Input" and "Output"
  here), and the order of the steps in `Build`.
- `_check_custom_dependencies` (lines 57-59) does nothing and is left out.
- Paths are strings: `Path(a) / b` is `a + "/" + b`, and pathlib's normalisation is not modelled.
- Floats carry the text Python prints for them; Python's float formatting is not modelled.
- Infinite floats are not values of the model. Python rejects them with the range error like any
  other number outside [0, 1]. NaN is modelled.
- StatisticsVolumePipeline.StatisticsVolume.BuildInputNode: requires every key the check fills in; the KeyError a missing key
  would raise is not modelled, since the engine runs the check before the build steps.
- StatisticsVolumePipeline.StatisticsVolume.BuildCoreNodes: requires the four keys it reads, for the same reason.
- StatisticsVolumePipeline.StatisticsVolume.BuildOutputNode: requires measure_label and the FWHM, for the same reason.
- The output node and the sink are not stated to be saturated: "contrast" is never fed (see
  CoreGraph.OutputFields), and a data sink accepts any input.
