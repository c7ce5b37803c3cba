/**
  The input-source dispatch of `_build_input_node`: which files the pipeline
  reads is decided by `orig_input_data_volume`, and the dispatch also sets
  `measure_label` (and, for a custom pipeline, clears the FWHM).

  The descriptors that `pet_volume_normalized_suvr_pet` and
  `t1_volume_template_tpm_in_mni` build are kept as the arguments they are
  called with; what they contain is not part of this model.
 */
module InputSelection {
  import opened Python
  import opened Parameters

  /** The file-matching request handed to the file filter. */
  datatype Descriptor =
    | PetVolumeNormalizedSuvrPet(acqLabel: Value, groupLabel: Value, suvrReferenceRegion: Value,
                                 useBrainmaskedImage: bool, usePvcData: Value, fwhm: Value)
    | T1VolumeTemplateTpmInMni(groupLabel: Value, tissueNumber: int, modulation: bool, fwhm: Value)
    | CustomPattern(pattern: Value, description: string)

  /** The dictionary as the dispatch leaves it, and the descriptor it built. */
  datatype Selection = Selection(params: Params, descriptor: Descriptor)

  const PET_VOLUME: Value := Str("pet-volume")
  const T1_VOLUME: Value := Str("t1-volume")
  const CUSTOM_PIPELINE: Value := Str("custom-pipeline")

  const CUSTOM_FILE_MISSING: string := "Custom pipeline was selected but no 'custom_file' was specified."

  /**
    The exception raised when pet-volume parameters are missing. The message
    reads `.value` on acq_label and then on suvr_reference_region, and that
    raises AttributeError before the ValueError is built unless both are
    enumeration members.
   */
  function MissingPetValues(acq: Value, region: Value, usePvc: Value): (x: Exception)
    ensures !acq.Member? || !region.Member? ==> x == AttributeError("value")
    ensures acq.Member? && region.Member? ==> x.ValueError?
  {
    match ValueAttribute(acq)
    case Err(x) => x
    case Ok(a) =>
      match ValueAttribute(region)
      case Err(x) => x
      case Ok(r) =>
        ValueError("Missing value(s) in parameters from pet-volume pipeline. Given values:\n"
                   + "- acq_label: " + a + "\n"
                   + "- suvr_reference_region: " + r + "\n"
                   + "- use_pvc_data: " + Render(usePvc) + "\n")
  }

  /** The pet-volume branch: both enumeration values are needed, and measure_label becomes the tracer's value. */
  function SelectPetVolume(p: Params): (r: Result<Selection>)
    requires Resolved(p)
    ensures r.Ok? <==> Truthy(p[AcqLabel]) && Truthy(p[SuvrReferenceRegion]) && p[AcqLabel].Member?
    ensures r.Ok? ==> r.value.params == p[MeasureLabel := Str(p[AcqLabel].value)]
    ensures r.Ok? ==> r.value.descriptor == PetVolumeNormalizedSuvrPet(
                        p[AcqLabel], p[GroupLabelDartel], p[SuvrReferenceRegion],
                        true, p[UsePvcData], p[FullWidthAtHalfMaximum])
    ensures !(Truthy(p[AcqLabel]) && Truthy(p[SuvrReferenceRegion])) ==> r == Err(AttributeError("value"))
  {
    if !(Truthy(p[AcqLabel]) && Truthy(p[SuvrReferenceRegion])) then
      assert !p[AcqLabel].Member? || !p[SuvrReferenceRegion].Member?;
      Err(MissingPetValues(p[AcqLabel], p[SuvrReferenceRegion], p[UsePvcData]))
    else
      match ValueAttribute(p[AcqLabel])
      case Err(x) => Err(x)
      case Ok(tracer) =>
        var q := p[MeasureLabel := Str(tracer)];
        Ok(Selection(q, PetVolumeNormalizedSuvrPet(
          q[AcqLabel], q[GroupLabelDartel], q[SuvrReferenceRegion], true, q[UsePvcData], q[FullWidthAtHalfMaximum])))
  }

  /** The t1-volume branch: grey-matter maps, tissue 1, modulated. */
  function SelectT1Volume(p: Params): (r: Selection)
    requires Resolved(p)
    ensures MeasureLabel in r.params && r.params[MeasureLabel] == Str("graymatter")
    ensures forall k :: k in p && k != MeasureLabel ==> k in r.params && r.params[k] == p[k]
    ensures r.params == p[MeasureLabel := Str("graymatter")]
    ensures r.descriptor == T1VolumeTemplateTpmInMni(p[GroupLabelDartel], 1, true, p[FullWidthAtHalfMaximum])
  {
    var q := p[MeasureLabel := Str("graymatter")];
    Selection(q, T1VolumeTemplateTpmInMni(q[GroupLabelDartel], 1, true, q[FullWidthAtHalfMaximum]))
  }

  /** The custom-pipeline branch: the user's pattern, and no FWHM in the file names. */
  function SelectCustom(p: Params): (r: Result<Selection>)
    requires Resolved(p)
    ensures r.Ok? <==> Truthy(p[CustomFile])
    ensures r.Err? ==> r.error == ClinicaException(CUSTOM_FILE_MISSING)
    ensures r.Ok? ==> r.value.params == p[FullWidthAtHalfMaximum := NoneValue]
    ensures r.Ok? ==> r.value.descriptor == CustomPattern(p[CustomFile], "custom file provided by user")
  {
    if !Truthy(p[CustomFile]) then Err(ClinicaException(CUSTOM_FILE_MISSING))
    else
      var q := p[FullWidthAtHalfMaximum := NoneValue];
      Ok(Selection(q, CustomPattern(q[CustomFile], "custom file provided by user")))
  }

  /** The dispatch on `orig_input_data_volume`, lines 104-145. */
  function Select(p: Params): (r: Result<Selection>)
    requires Resolved(p)
    ensures p[OrigInputDataVolume] == PET_VOLUME ==> r == SelectPetVolume(p)
    ensures p[OrigInputDataVolume] == T1_VOLUME ==> r == Ok(SelectT1Volume(p))
    ensures p[OrigInputDataVolume] == CUSTOM_PIPELINE ==> r == SelectCustom(p)
    ensures p[OrigInputDataVolume] !in {PET_VOLUME, T1_VOLUME, CUSTOM_PIPELINE} ==>
              r == Err(ValueError("Input data " + Render(p[OrigInputDataVolume]) + " unknown."))
  {
    var source := p[OrigInputDataVolume];
    if source == PET_VOLUME then SelectPetVolume(p)
    else if source == T1_VOLUME then Ok(SelectT1Volume(p))
    else if source == CUSTOM_PIPELINE then SelectCustom(p)
    else Err(ValueError("Input data " + Render(source) + " unknown."))
  }

  /** The dispatch succeeds exactly for the three known sources with the values each needs. */
  lemma SelectSucceedsIff(p: Params)
    requires Resolved(p)
    ensures Select(p).Ok? <==>
              || (p[OrigInputDataVolume] == PET_VOLUME
                  && p[AcqLabel].Member? && Truthy(p[SuvrReferenceRegion]))
              || p[OrigInputDataVolume] == T1_VOLUME
              || (p[OrigInputDataVolume] == CUSTOM_PIPELINE && Truthy(p[CustomFile]))
  {
  }

  /** The dispatch changes only measure_label (pet-volume, t1-volume) or only the FWHM (custom-pipeline). */
  lemma SelectChangesOneKey(p: Params)
    requires Resolved(p)
    requires Select(p).Ok?
    ensures var q := Select(p).value.params;
      && (p[OrigInputDataVolume] == CUSTOM_PIPELINE ==> q == p[FullWidthAtHalfMaximum := NoneValue])
      && (p[OrigInputDataVolume] != CUSTOM_PIPELINE ==> MeasureLabel in q && q == p[MeasureLabel := q[MeasureLabel]])
  {
  }

  /** A successful dispatch leaves every key the pipeline reads in place. */
  lemma SelectKeepsResolved(p: Params)
    requires Resolved(p)
    ensures Select(p).Ok? ==> Resolved(Select(p).value.params)
  {
  }

  /**
    On the dictionary a successful check leaves, a pet-volume dispatch
    succeeds exactly when acq_label and suvr_reference_region were given
    truthy; measure_label is then the tracer value the user gave.
   */
  lemma CompletedPetVolumeSelection(p: Params, known: EnumValues)
    requires HasCompulsory(p) && p[OrigInputDataVolume] == PET_VOLUME
    requires Coercible(p, AcqLabel, Tracer, known) && Coercible(p, SuvrReferenceRegion, SUVRReferenceRegion, known)
    ensures Resolved(Completed(p, known))
    ensures var r := Select(Completed(p, known));
      && (r.Ok? <==> AcqLabel in p && Truthy(p[AcqLabel]) && SuvrReferenceRegion in p && Truthy(p[SuvrReferenceRegion]))
      && (r.Ok? ==> (p[AcqLabel].Str? || p[AcqLabel].Member?)
                    && r.value.params[MeasureLabel] == Str(LookupText(p[AcqLabel])))
      && (r.Ok? ==> r.value.params[MeasureLabel].s in known.tracers)
      && (r.Err? ==> r.error == AttributeError("value"))
  {
    CompletedResolvesKeys(p, known);
    CompletedEnumKeys(p, known);
    CoercedPetVolumeSelection(p, Completed(p, known), known);
  }

  /** A pet-volume dispatch on any dictionary whose enumeration values are the coercions of those given in p. */
  lemma CoercedPetVolumeSelection(p: Params, q: Params, known: EnumValues)
    requires Resolved(q) && q[OrigInputDataVolume] == PET_VOLUME
    requires Coercible(p, AcqLabel, Tracer, known) && Coercible(p, SuvrReferenceRegion, SUVRReferenceRegion, known)
    requires q[AcqLabel] == Coerced(p, AcqLabel, Tracer, known)
    requires q[SuvrReferenceRegion] == Coerced(p, SuvrReferenceRegion, SUVRReferenceRegion, known)
    ensures var r := Select(q);
      && (r.Ok? <==> AcqLabel in p && Truthy(p[AcqLabel]) && SuvrReferenceRegion in p && Truthy(p[SuvrReferenceRegion]))
      && (r.Ok? ==> (p[AcqLabel].Str? || p[AcqLabel].Member?)
                    && r.value.params[MeasureLabel] == Str(LookupText(p[AcqLabel])))
      && (r.Ok? ==> r.value.params[MeasureLabel].s in known.tracers)
      && (r.Err? ==> r.error == AttributeError("value"))
  {
    CompletedCoerces(p, AcqLabel, Tracer, known);
    CompletedCoerces(p, SuvrReferenceRegion, SUVRReferenceRegion, known);
    assert Select(q) == SelectPetVolume(q);
  }

  /** The same after a successful check, whatever its threshold. */
  lemma CheckedPetVolumeSelection(p: Params, known: EnumValues)
    requires Check(p, known).outcome.Pass?
    requires p[OrigInputDataVolume] == PET_VOLUME
    ensures Resolved(Check(p, known).params)
    ensures var r := Select(Check(p, known).params);
      && (r.Ok? <==> AcqLabel in p && Truthy(p[AcqLabel]) && SuvrReferenceRegion in p && Truthy(p[SuvrReferenceRegion]))
      && (r.Ok? ==> (p[AcqLabel].Str? || p[AcqLabel].Member?)
                    && r.value.params[MeasureLabel] == Str(LookupText(p[AcqLabel])))
      && (r.Ok? ==> r.value.params[MeasureLabel].s in known.tracers)
      && (r.Err? ==> r.error == AttributeError("value"))
  {
    CheckPassesIff(p, known);
    CompletedPetVolumeSelection(p, known);
  }

  /**
    After a successful check the dispatch succeeds exactly for pet-volume with
    both enumeration values given truthy, for t1-volume, and for
    custom-pipeline with a truthy custom_file.
   */
  lemma CheckedSelectionSucceedsIff(p: Params, known: EnumValues)
    requires Check(p, known).outcome.Pass?
    ensures OrigInputDataVolume in p && Resolved(Check(p, known).params)
    ensures Select(Check(p, known).params).Ok? <==>
              || (p[OrigInputDataVolume] == PET_VOLUME
                  && AcqLabel in p && Truthy(p[AcqLabel]) && SuvrReferenceRegion in p && Truthy(p[SuvrReferenceRegion]))
              || p[OrigInputDataVolume] == T1_VOLUME
              || (p[OrigInputDataVolume] == CUSTOM_PIPELINE && CustomFile in p && Truthy(p[CustomFile]))
  {
    CheckPassesIff(p, known);
    var q := Completed(p, known);
    CompletedResolvesKeys(p, known);
    CompletedEnumKeys(p, known);
    CompletedKeepsGiven(p, known);
    CompletedFillsDefaults(p, known);
    SelectSucceedsIff(q);
    if p[OrigInputDataVolume] == PET_VOLUME {
      CompletedPetVolumeSelection(p, known);
    }
  }
}
