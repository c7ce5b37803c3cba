/**
  The parameter dictionary of the StatisticsVolume pipeline and what
  `_check_pipeline_parameters` does to it: two compulsory keys, eight
  defaults filled in with `setdefault`, two enumeration coercions and the
  cluster-threshold range check.

  The check mutates the dictionary in place, so `Check` returns the
  dictionary as the check leaves it together with the outcome: a failure
  part-way keeps the defaults already filled in.
 */
module Parameters {
  import opened Python

  /**
    The keys a parameter dictionary may hold. The ten names the pipeline
    reads are constructors; any other key is Other.
   */
  datatype DictKey =
    | OrigInputDataVolume | Contrast | GroupLabelDartel | FullWidthAtHalfMaximum
    | AcqLabel | SuvrReferenceRegion | UsePvcData | MeasureLabel | CustomFile
    | ClusterThreshold | Other(name: string)

  /** The spellings of the ten keys the pipeline reads. */
  const RESERVED_NAMES: set<string> :=
    {"orig_input_data_volume", "contrast", "group_label_dartel", "full_width_at_half_maximum",
     "acq_label", "suvr_reference_region", "use_pvc_data", "measure_label", "custom_file",
     "cluster_threshold"}

  /** A key in canonical form: a reserved spelling is always its named constructor, never Other. */
  type Key = k: DictKey | !(k.Other? && k.name in RESERVED_NAMES) witness Contrast

  /** The key as the dictionary spells it. */
  function Name(k: Key): string
  {
    match k
    case OrigInputDataVolume => "orig_input_data_volume"
    case Contrast => "contrast"
    case GroupLabelDartel => "group_label_dartel"
    case FullWidthAtHalfMaximum => "full_width_at_half_maximum"
    case AcqLabel => "acq_label"
    case SuvrReferenceRegion => "suvr_reference_region"
    case UsePvcData => "use_pvc_data"
    case MeasureLabel => "measure_label"
    case CustomFile => "custom_file"
    case ClusterThreshold => "cluster_threshold"
    case Other(name) => name
  }

  /** Two keys are the same dictionary key exactly when they are spelled the same. */
  lemma NameIsInjective(a: Key, b: Key)
    ensures Name(a) == Name(b) <==> a == b
  {
    if !a.Other? && !b.Other? && a != b {
      SpellingsDiffer(a, b);
    }
  }

  /** The ten reserved spellings are pairwise different. */
  lemma SpellingsDiffer(a: Key, b: Key)
    requires !a.Other? && !b.Other? && a != b
    ensures Name(a) != Name(b)
  {
    assert Name(a)[..3] != Name(b)[..3] || Name(a)[3..] != Name(b)[3..];
  }

  type Params = map<Key, Value>

  /** The keys the check fills in when absent. */
  const OPTIONAL_KEYS: set<Key> :=
    {GroupLabelDartel, FullWidthAtHalfMaximum, AcqLabel, SuvrReferenceRegion,
     UsePvcData, MeasureLabel, CustomFile, ClusterThreshold}

  /** Every key the rest of the pipeline reads is present. */
  predicate Resolved(p: Params)
  {
    && OrigInputDataVolume in p && Contrast in p
    && GroupLabelDartel in p && FullWidthAtHalfMaximum in p && AcqLabel in p && SuvrReferenceRegion in p
    && UsePvcData in p && MeasureLabel in p && CustomFile in p && ClusterThreshold in p
  }

  /** The value given for key, or otherwise the default d. */
  function Given(p: Params, key: Key, d: Value): Value
  {
    if key in p then p[key] else d
  }

  /** `dict.setdefault(key, v)`: add the key with v unless it is already there. */
  function SetDefault(p: Params, key: Key, v: Value): (r: Params)
    ensures key in r && r[key] == Given(p, key, v)
    ensures key in p ==> r == p
    ensures r == p[key := Given(p, key, v)]
  {
    if key in p then p else p[key := v]
  }

  /** The values each enumeration admits; their member lists are not part of this model. */
  datatype EnumValues = EnumValues(tracers: set<string>, regions: set<string>)
  {
    function Of(e: EnumType): set<string>
    {
      match e
      case Tracer => tracers
      case SUVRReferenceRegion => regions
    }
  }

  function EnumName(e: EnumType): string
  {
    match e
    case Tracer => "Tracer"
    case SUVRReferenceRegion => "SUVRReferenceRegion"
  }

  /** The string an enumeration looks a value up by: a string itself, or a member's value. */
  function LookupText(v: Value): string
    requires v.Str? || v.Member?
  {
    if v.Str? then v.s else v.value
  }

  /**
    Calling an enumeration on a value (`Tracer(v)`): the member whose value is
    v; a member passed in is found by its value, so it comes back unchanged.
    Any other value raises ValueError.
   */
  function ToEnum(e: EnumType, known: EnumValues, v: Value): (r: Result<Value>)
    ensures r.Ok? <==> (v.Str? || v.Member?) && LookupText(v) in known.Of(e)
    ensures r.Ok? ==> r.value == Member(e, LookupText(v)) && r.value.value in known.Of(e)
    ensures r.Err? ==> r.error.ValueError?
  {
    match v
    case Str(s) => if s in known.Of(e) then Ok(Member(e, s)) else Err(NotAMember(e, v))
    case Member(_, s) => if s in known.Of(e) then Ok(Member(e, s)) else Err(NotAMember(e, v))
    case _ => Err(NotAMember(e, v))
  }

  function NotAMember(e: EnumType, v: Value): Exception
  {
    ValueError(Repr(v) + " is not a valid " + EnumName(e))
  }

  /** The coercion of lines 32-38: only a truthy value is passed to the enumeration. */
  function CoerceIfTruthy(p: Params, key: Key, e: EnumType, known: EnumValues): (r: Result<Params>)
    requires key in p
    ensures !Truthy(p[key]) ==> r == Ok(p)
    ensures Truthy(p[key]) ==> r.Ok? == ToEnum(e, known, p[key]).Ok?
    ensures Truthy(p[key]) && r.Ok? ==> r.value == p[key := ToEnum(e, known, p[key]).value]
    ensures r.Err? ==> r.error == ToEnum(e, known, p[key]).error
  {
    if Truthy(p[key]) then
      match ToEnum(e, known, p[key])
      case Ok(m) => Ok(p[key := m])
      case Err(x) => Err(x)
    else Ok(p)
  }

  function MissingKeyMessage(key: Key): string
  {
    "Missing compulsory " + Name(key) + " key in pipeline parameter."
  }

  function ThresholdMessage(v: Value): (m: string)
    ensures Contains(m, Render(v))
  {
    var prefix := "Cluster threshold should be between 0 and 1 (given value: ";
    var m := prefix + Render(v) + ").";
    assert OccursAt(m, Render(v), |prefix|);
    m
  }

  /** The threshold lies in [0, 1], bounds included. */
  predicate InUnitInterval(v: Value)
  {
    AsNumber(v).Some? && 0.0 <= AsNumber(v).value <= 1.0
  }

  /** `threshold < 0 or threshold > 1` is False: a number in [0, 1], or NaN, for which both comparisons are False. */
  predicate PassesRangeCheck(v: Value)
  {
    InUnitInterval(v) || v.NotANumber?
  }

  /**
    `threshold < 0 or threshold > 1`: a value Python cannot compare with an
    int raises TypeError, an out-of-range number a ClinicaException quoting
    it; NaN is neither below 0 nor above 1, so it passes.
   */
  function CheckThreshold(v: Value): (o: Outcome)
    ensures o.Pass? <==> PassesRangeCheck(v)
    ensures v.NotANumber? ==> o == Pass
    ensures AsNumber(v).None? && !v.NotANumber? ==> o == Fail(TypeError)
    ensures AsNumber(v).Some? && !InUnitInterval(v) ==> o == Fail(ClinicaException(ThresholdMessage(v)))
  {
    if v.NotANumber? then Pass
    else
      match AsNumber(v)
      case None => Fail(TypeError)
      case Some(x) => if x < 0.0 || x > 1.0 then Fail(ClinicaException(ThresholdMessage(v))) else Pass
  }


  /** The dictionary as the check leaves it, and whether the check raised. */
  datatype Checked = Checked(params: Params, outcome: Outcome)

  /** The given enumeration parameter is absent, falsy, or a value of its enumeration. */
  predicate Coercible(p: Params, key: Key, e: EnumType, known: EnumValues)
  {
    key !in p || !Truthy(p[key]) || ToEnum(e, known, p[key]).Ok?
  }

  /** What a successful check leaves under an enumeration parameter: its member if given truthy, else the given value or None. */
  function Coerced(p: Params, key: Key, e: EnumType, known: EnumValues): Value
  {
    if key !in p then NoneValue
    else if Truthy(p[key]) && ToEnum(e, known, p[key]).Ok? then ToEnum(e, known, p[key]).value
    else p[key]
  }

  /** `setdefault(key, None)` followed by the coercion of that key when it is truthy. */
  function CoerceStep(p: Params, key: Key, e: EnumType, known: EnumValues): (c: Checked)
    ensures c.outcome.Pass? <==> Coercible(p, key, e, known)
    ensures c.outcome.Pass? ==> c.params == p[key := Coerced(p, key, e, known)]
    ensures c.outcome.Fail? ==> key in p && c == Checked(p, Fail(ToEnum(e, known, p[key]).error))
  {
    var q := SetDefault(p, key, NoneValue);
    match CoerceIfTruthy(q, key, e, known)
    case Err(x) => Checked(q, Fail(x))
    case Ok(r) => Checked(r, Pass)
  }

  /** Both compulsory keys are present. */
  predicate HasCompulsory(p: Params)
  {
    OrigInputDataVolume in p && Contrast in p
  }

  /** The dictionary once the two general optional parameters hold their given value or their default. */
  function WithGeneralDefaults(p: Params): Params
  {
    p[GroupLabelDartel := Given(p, GroupLabelDartel, Str("*"))]
     [FullWidthAtHalfMaximum := Given(p, FullWidthAtHalfMaximum, Int(8))]
  }

  /** The dictionary once acq_label is coerced as well. */
  function WithTracer(p: Params, known: EnumValues): Params
  {
    WithGeneralDefaults(p)[AcqLabel := Coerced(p, AcqLabel, Tracer, known)]
  }

  /**
    The dictionary a successful check leaves: every optional key holds its
    given value or its default, and the enumeration keys their members.
   */
  function Completed(p: Params, known: EnumValues): Params
  {
    Coercions(p, known)
     [UsePvcData := Given(p, UsePvcData, Bool(false))]
     [MeasureLabel := Given(p, MeasureLabel, NoneValue)]
     [CustomFile := Given(p, CustomFile, NoneValue)]
     [ClusterThreshold := Given(p, ClusterThreshold, Float(0.001, "0.001"))]
  }

  /** The `setdefault` calls of lines 27-28. */
  function FillGeneralDefaults(p: Params): (r: Params)
    ensures r == WithGeneralDefaults(p)
  {
    SetDefault(SetDefault(p, GroupLabelDartel, Str("*")), FullWidthAtHalfMaximum, Int(8))
  }

  /** The `setdefault` calls of lines 39-46. */
  function FillFinalDefaults(p: Params): (r: Params)
    ensures r == p[UsePvcData := Given(p, UsePvcData, Bool(false))]
                  [MeasureLabel := Given(p, MeasureLabel, NoneValue)]
                  [CustomFile := Given(p, CustomFile, NoneValue)]
                  [ClusterThreshold := Given(p, ClusterThreshold, Float(0.001, "0.001"))]
  {
    var q := SetDefault(SetDefault(p, UsePvcData, Bool(false)), MeasureLabel, NoneValue);
    SetDefault(SetDefault(q, CustomFile, NoneValue), ClusterThreshold, Float(0.001, "0.001"))
  }

  /** The two coercions of lines 31-38, the first one's failure ending the check. */
  function CoerceEnums(p: Params, known: EnumValues): (c: Checked)
    ensures !Coercible(p, AcqLabel, Tracer, known) ==>
              c == Checked(p, Fail(ToEnum(Tracer, known, p[AcqLabel]).error))
    ensures Coercible(p, AcqLabel, Tracer, known)
              && !Coercible(p, SuvrReferenceRegion, SUVRReferenceRegion, known) ==>
              c == Checked(p[AcqLabel := Coerced(p, AcqLabel, Tracer, known)],
                           Fail(ToEnum(SUVRReferenceRegion, known, p[SuvrReferenceRegion]).error))
    ensures Coercible(p, AcqLabel, Tracer, known)
              && Coercible(p, SuvrReferenceRegion, SUVRReferenceRegion, known) ==>
              c == Checked(p[AcqLabel := Coerced(p, AcqLabel, Tracer, known)]
                            [SuvrReferenceRegion := Coerced(p, SuvrReferenceRegion, SUVRReferenceRegion, known)],
                           Pass)
  {
    var a := CoerceStep(p, AcqLabel, Tracer, known);
    if a.outcome.Fail? then a
    else
      assert Coerced(a.params, SuvrReferenceRegion, SUVRReferenceRegion, known)
          == Coerced(p, SuvrReferenceRegion, SUVRReferenceRegion, known);
      CoerceStep(a.params, SuvrReferenceRegion, SUVRReferenceRegion, known)
  }

  /** The check from line 26 on, once both compulsory keys are known to be present. */
  function CheckComplete(p: Params, known: EnumValues): (c: Checked)
    requires HasCompulsory(p)
    ensures !Coercible(p, AcqLabel, Tracer, known) ==>
              c == Checked(WithGeneralDefaults(p), Fail(ToEnum(Tracer, known, p[AcqLabel]).error))
    ensures Coercible(p, AcqLabel, Tracer, known)
              && !Coercible(p, SuvrReferenceRegion, SUVRReferenceRegion, known) ==>
              c == Checked(WithTracer(p, known),
                           Fail(ToEnum(SUVRReferenceRegion, known, p[SuvrReferenceRegion]).error))
    ensures Coercible(p, AcqLabel, Tracer, known)
              && Coercible(p, SuvrReferenceRegion, SUVRReferenceRegion, known) ==>
              c == Checked(Completed(p, known), CheckThreshold(Given(p, ClusterThreshold, Float(0.001, "0.001"))))
  {
    var p1 := FillGeneralDefaults(p);
    DefaultsKeepEnums(p, known);
    var b := CoerceEnums(p1, known);
    if b.outcome.Fail? then b
    else
      CoercedThenFilled(p, known);
      var r := FillFinalDefaults(b.params);
      Checked(r, CheckThreshold(r[ClusterThreshold]))
  }

  /** Filling the general defaults does not touch the enumeration parameters. */
  lemma DefaultsKeepEnums(p: Params, known: EnumValues)
    ensures Coercible(FillGeneralDefaults(p), AcqLabel, Tracer, known) == Coercible(p, AcqLabel, Tracer, known)
    ensures Coercible(FillGeneralDefaults(p), SuvrReferenceRegion, SUVRReferenceRegion, known)
         == Coercible(p, SuvrReferenceRegion, SUVRReferenceRegion, known)
    ensures Coerced(FillGeneralDefaults(p), AcqLabel, Tracer, known) == Coerced(p, AcqLabel, Tracer, known)
    ensures Coerced(FillGeneralDefaults(p), SuvrReferenceRegion, SUVRReferenceRegion, known)
         == Coerced(p, SuvrReferenceRegion, SUVRReferenceRegion, known)
  {
  }

  /** Defaults, both coercions and the final defaults in turn give the completed dictionary. */
  lemma CoercedThenFilled(p: Params, known: EnumValues)
    requires Coercible(p, AcqLabel, Tracer, known)
    requires Coercible(p, SuvrReferenceRegion, SUVRReferenceRegion, known)
    ensures FillFinalDefaults(CoerceEnums(FillGeneralDefaults(p), known).params) == Completed(p, known)
  {
    var p1 := FillGeneralDefaults(p);
    DefaultsKeepEnums(p, known);
    var b := CoerceEnums(p1, known);
    assert b.params == Coercions(p, known);
    CoercionsKeepFinalKeys(p, known);
  }

  /** The dictionary once both enumeration values are coerced. */
  function Coercions(p: Params, known: EnumValues): Params
  {
    WithTracer(p, known)[SuvrReferenceRegion := Coerced(p, SuvrReferenceRegion, SUVRReferenceRegion, known)]
  }

  /** The general defaults and the coercions leave the four later keys as given. */
  lemma CoercionsKeepFinalKeys(p: Params, known: EnumValues)
    ensures var t := Coercions(p, known);
      && Given(t, UsePvcData, Bool(false)) == Given(p, UsePvcData, Bool(false))
      && Given(t, MeasureLabel, NoneValue) == Given(p, MeasureLabel, NoneValue)
      && Given(t, CustomFile, NoneValue) == Given(p, CustomFile, NoneValue)
      && Given(t, ClusterThreshold, Float(0.001, "0.001")) == Given(p, ClusterThreshold, Float(0.001, "0.001"))
  {
  }

  /** `_check_pipeline_parameters` on the dictionary p. */
  function Check(p: Params, known: EnumValues): (c: Checked)
    // a missing compulsory key raises KeyError, orig_input_data_volume first, before any default
    ensures OrigInputDataVolume !in p ==>
              c == Checked(p, Fail(KeyError(MissingKeyMessage(OrigInputDataVolume))))
    ensures OrigInputDataVolume in p && Contrast !in p ==>
              c == Checked(p, Fail(KeyError(MissingKeyMessage(Contrast))))
    // an acq_label that is not a tracer raises ValueError, leaving the general defaults filled in
    ensures HasCompulsory(p) && !Coercible(p, AcqLabel, Tracer, known) ==>
              c == Checked(WithGeneralDefaults(p), Fail(ToEnum(Tracer, known, p[AcqLabel]).error))
    // likewise a suvr_reference_region that is not a reference region, after acq_label is coerced
    ensures HasCompulsory(p) && Coercible(p, AcqLabel, Tracer, known)
              && !Coercible(p, SuvrReferenceRegion, SUVRReferenceRegion, known) ==>
              c == Checked(WithTracer(p, known),
                           Fail(ToEnum(SUVRReferenceRegion, known, p[SuvrReferenceRegion]).error))
    // otherwise the dictionary is completed and the outcome is the threshold check
    ensures HasCompulsory(p) && Coercible(p, AcqLabel, Tracer, known)
              && Coercible(p, SuvrReferenceRegion, SUVRReferenceRegion, known) ==>
              c == Checked(Completed(p, known), CheckThreshold(Given(p, ClusterThreshold, Float(0.001, "0.001"))))
  {
    if OrigInputDataVolume !in p then Checked(p, Fail(KeyError(MissingKeyMessage(OrigInputDataVolume))))
    else if Contrast !in p then Checked(p, Fail(KeyError(MissingKeyMessage(Contrast))))
    else CheckComplete(p, known)
  }

  /** The check passes exactly when both compulsory keys are given, both enumeration values are valid and the threshold lies in [0, 1] or is NaN; it then leaves the completed dictionary. */
  lemma CheckPassesIff(p: Params, known: EnumValues)
    ensures Check(p, known).outcome.Pass? <==>
              && HasCompulsory(p)
              && Coercible(p, AcqLabel, Tracer, known)
              && Coercible(p, SuvrReferenceRegion, SUVRReferenceRegion, known)
              && PassesRangeCheck(Given(p, ClusterThreshold, Float(0.001, "0.001")))
    ensures Check(p, known).outcome.Pass? ==> Check(p, known).params == Completed(p, known)
  {
  }

  /** The completed dictionary holds every key the pipeline reads, and no key that was neither given nor optional. */
  lemma CompletedResolvesKeys(p: Params, known: EnumValues)
    requires HasCompulsory(p)
    ensures Resolved(Completed(p, known))
    ensures forall k :: k in Completed(p, known) <==> k in p || k in OPTIONAL_KEYS
  {
  }

  /** The completed dictionary holds the coerced enumeration values and the given input source. */
  lemma CompletedEnumKeys(p: Params, known: EnumValues)
    ensures var c := Completed(p, known);
      && AcqLabel in c && c[AcqLabel] == Coerced(p, AcqLabel, Tracer, known)
      && SuvrReferenceRegion in c && c[SuvrReferenceRegion] == Coerced(p, SuvrReferenceRegion, SUVRReferenceRegion, known)
      && (OrigInputDataVolume in p ==> OrigInputDataVolume in c && c[OrigInputDataVolume] == p[OrigInputDataVolume])
  {
  }

  /** The completed dictionary keeps every given value except the two enumeration values. */
  lemma CompletedKeepsGiven(p: Params, known: EnumValues)
    ensures forall k :: k in p && k != AcqLabel && k != SuvrReferenceRegion ==> Completed(p, known)[k] == p[k]
  {
  }

  /** In the completed dictionary an absent optional key holds its default. */
  lemma CompletedFillsDefaults(p: Params, known: EnumValues)
    ensures var c := Completed(p, known);
      && (GroupLabelDartel !in p ==> c[GroupLabelDartel] == Str("*"))
      && (FullWidthAtHalfMaximum !in p ==> c[FullWidthAtHalfMaximum] == Int(8))
      && (AcqLabel !in p ==> c[AcqLabel] == NoneValue)
      && (SuvrReferenceRegion !in p ==> c[SuvrReferenceRegion] == NoneValue)
      && (UsePvcData !in p ==> c[UsePvcData] == Bool(false))
      && (MeasureLabel !in p ==> c[MeasureLabel] == NoneValue)
      && (CustomFile !in p ==> c[CustomFile] == NoneValue)
      && (ClusterThreshold !in p ==> c[ClusterThreshold] == Float(0.001, "0.001"))
  {
  }

  /**
    In the completed dictionary of valid parameters an enumeration key holds
    the member of its enumeration whose value was given exactly when given
    truthy, and otherwise its falsy given value or None.
   */
  lemma CompletedCoerces(p: Params, key: Key, e: EnumType, known: EnumValues)
    requires Coercible(p, key, e, known)
    ensures var v := Coerced(p, key, e, known);
      && (v.Member? <==> key in p && Truthy(p[key]))
      && (v.Member? ==> (p[key].Str? || p[key].Member?) && v == Member(e, LookupText(p[key])))
      && (v.Member? ==> v.value in known.Of(e))
      && (!v.Member? ==> !Truthy(v) && v == Given(p, key, NoneValue))
  {
  }

  /** A successful check leaves every key the pipeline reads in the dictionary. */
  lemma CheckedResolves(p: Params, known: EnumValues)
    requires Check(p, known).outcome.Pass?
    ensures Resolved(Check(p, known).params)
  {
    CheckPassesIff(p, known);
    CompletedResolvesKeys(p, known);
  }

  /** A successful check leaves a threshold in [0, 1], bounds included, or NaN. */
  lemma SuccessfulCheckBoundsThreshold(p: Params, known: EnumValues)
    requires Check(p, known).outcome.Pass?
    ensures ClusterThreshold in Check(p, known).params
    ensures var t := Check(p, known).params[ClusterThreshold];
      InUnitInterval(t) || t.NotANumber?
    ensures var t := Check(p, known).params[ClusterThreshold];
      AsNumber(t).Some? ==> 0.0 <= AsNumber(t).value <= 1.0
  {
  }

  /** A NaN threshold passes the check whenever the rest of the dictionary does, and is stored as given. */
  lemma NaNThresholdPasses(p: Params, known: EnumValues)
    requires HasCompulsory(p)
    requires Coercible(p, AcqLabel, Tracer, known) && Coercible(p, SuvrReferenceRegion, SUVRReferenceRegion, known)
    ensures var q := p[ClusterThreshold := NotANumber];
      Check(q, known).outcome.Pass? && Check(q, known).params[ClusterThreshold] == NotANumber
  {
    var q := p[ClusterThreshold := NotANumber];
    assert Coercible(q, AcqLabel, Tracer, known) && Coercible(q, SuvrReferenceRegion, SUVRReferenceRegion, known);
    CheckPassesIff(q, known);
  }

  /** A coerced enumeration value coerces to itself. */
  lemma CoercedIsStable(p: Params, q: Params, key: Key, e: EnumType, known: EnumValues)
    requires Coercible(p, key, e, known)
    requires key in q && q[key] == Coerced(p, key, e, known)
    ensures Coercible(q, key, e, known) && Coerced(q, key, e, known) == q[key]
  {
  }

  /** Completing a completed dictionary of valid parameters changes nothing. */
  lemma CompletedIsIdempotent(p: Params, known: EnumValues)
    requires HasCompulsory(p)
    requires Coercible(p, AcqLabel, Tracer, known) && Coercible(p, SuvrReferenceRegion, SUVRReferenceRegion, known)
    ensures var q := Completed(p, known);
      Coercible(q, AcqLabel, Tracer, known) && Coercible(q, SuvrReferenceRegion, SUVRReferenceRegion, known)
      && Completed(q, known) == q
  {
    var q := Completed(p, known);
    CompletedResolvesKeys(p, known);
    CoercedIsStable(p, q, AcqLabel, Tracer, known);
    CoercedIsStable(p, q, SuvrReferenceRegion, SUVRReferenceRegion, known);
    CompletingResolved(q, known);
  }

  /** A dictionary holding every key, whose enumeration values coerce to themselves, is already complete. */
  lemma CompletingResolved(q: Params, known: EnumValues)
    requires Resolved(q)
    requires Coerced(q, AcqLabel, Tracer, known) == q[AcqLabel]
    requires Coerced(q, SuvrReferenceRegion, SUVRReferenceRegion, known) == q[SuvrReferenceRegion]
    ensures Completed(q, known) == q
  {
    assert WithGeneralDefaults(q) == q;
    assert WithTracer(q, known) == q;
    assert Coercions(q, known) == q;
  }

  /** Running the check again on the dictionary a successful check left changes nothing. */
  lemma CheckIsIdempotent(p: Params, known: EnumValues)
    requires Check(p, known).outcome.Pass?
    ensures Check(Check(p, known).params, known) == Check(p, known)
  {
    CheckPassesIff(p, known);
    CompletedIsIdempotent(p, known);
    CompletedResolvesKeys(p, known);
  }
}
