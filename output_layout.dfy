/**
  Where `_build_output_node` puts the results: the base directory under the
  group directory, the ordered regular-expression substitutions the data sink
  applies to the paths it writes (only when the FWHM is truthy), and which
  output field goes to which sink folder.

  Paths are strings and `/` on a path is Join. The substitutions are data: how
  the data sink applies a regular expression is not part of this model.
 */
module OutputLayout {
  import opened Python

  /** `Path(dir) / name` for a relative, non-empty name. */
  function Join(dir: string, name: string): string
  {
    dir + "/" + name
  }

  /** `group_directory / "statistics_volume" / f"group_comparison_measure-{measure_label}"`. */
  function BaseDir(groupDirectory: string, measureLabel: Value): string
  {
    Join(Join(groupDirectory, "statistics_volume"), "group_comparison_measure-" + Render(measureLabel))
  }

  lemma StatisticsFolder(groupDirectory: string)
    ensures Join(groupDirectory, "statistics_volume") + "/" == groupDirectory + "/statistics_volume/"
  {
    assert "/" + "statistics_volume" + "/" == "/statistics_volume/";
  }

  /** The base directory is the measure's comparison folder under the group's statistics_volume folder. */
  lemma BaseDirLayout(groupDirectory: string, measureLabel: Value)
    ensures BaseDir(groupDirectory, measureLabel)
            == groupDirectory + "/statistics_volume/" + "group_comparison_measure-" + Render(measureLabel)
  {
    var prefix := groupDirectory + "/statistics_volume/";
    StatisticsFolder(groupDirectory);
    assert BaseDir(groupDirectory, measureLabel) == prefix + ("group_comparison_measure-" + Render(measureLabel));
  }

  /** One regexp substitution: files whose path matches pattern are renamed to replacement. */
  datatype Rule = Rule(pattern: string, replacement: string)

  /** The folder names of lines 193-236, in the order of the rules; the fourth keeps its trailing space. */
  const RULE_FOLDERS: seq<string> :=
    ["spm_results_analysis_.", "contrasts", "resels_per_voxels", "mask ",
     "variance_of_error", "tsv_file", "figures", "regression_coeff"]

  /** `r"\1"`: the first group of the match. */
  const GROUP_ONE: string := "\\1"

  /**
    The eight rules of lines 191-237, given the base directory as a string.
    Every pattern is written as base/folder/tail and every replacement as
    base/name; these are the strings the source concatenates.
   */
  function Substitutions(base: string, groupId: string, measureLabel: Value, fwhm: Value): seq<Rule>
  {
    [ // t-stat map
      Rule(Join(Join(base, "spm_results_analysis_."), "(.*)"), Join(base, GROUP_ONE)),
      // contrasts
      Rule(Join(Join(base, "contrasts"), "(.*)"), Join(base, GROUP_ONE)),
      // resels per voxels
      Rule(Join(Join(base, "resels_per_voxels"), "resels_per_voxel.nii"), Join(base, groupId + "_RPV.nii")),
      // mask
      Rule(Join(Join(base, "mask "), "included_voxel_mask.nii"), Join(base, groupId + "_mask.nii")),
      // variance of error
      Rule(Join(Join(base, "variance_of_error"), "(.*)"), Join(base, GROUP_ONE)),
      // tsv file
      Rule(Join(Join(base, "tsv_file"), ".*"), Join(base, "../" + groupId + "_participants.tsv")),
      // report (figures)
      Rule(Join(Join(base, "figures"), "(.*)"), Join(base, GROUP_ONE)),
      // regression coefficient
      Rule(Join(Join(base, "regression_coeff"), "(.*).nii"),
           Join(base, groupId + "_covariate-" + GROUP_ONE
                      + "_measure-" + Render(measureLabel) + "_fwhm-" + Render(fwhm) + "_regressionCoefficient.nii"))
    ]
  }

  /** base/folder/tail starts with base/folder/. */
  lemma UnderFolder(base: string, folder: string, tail: string)
    ensures StartsWith(Join(Join(base, folder), tail), base + "/" + folder + "/")
  {
    assert Join(Join(base, folder), tail) == (base + "/" + folder + "/") + tail;
  }

  /** base/name starts with base/. */
  lemma UnderBase(base: string, name: string)
    ensures StartsWith(Join(base, name), base + "/")
  {
    assert Join(base, name) == (base + "/") + name;
  }

  /** The regexp substitutions the sink is given: none at all unless the FWHM is truthy. */
  function SinkSubstitutions(base: string, groupId: string, measureLabel: Value, fwhm: Value): (r: Option<seq<Rule>>)
    ensures r.Some? <==> Truthy(fwhm)
    ensures r.Some? ==> r.value == Substitutions(base, groupId, measureLabel, fwhm)
  {
    if Truthy(fwhm) then Some(Substitutions(base, groupId, measureLabel, fwhm)) else None
  }

  /** Folder name f is matched by the literal-or-dot pattern g: equal length, and each character equal or a dot in g. */
  predicate DotMatches(f: string, g: string)
  {
    |f| == |g| && forall i :: 0 <= i < |f| ==> g[i] == '.' || g[i] == f[i]
  }

  /** There are eight rules, in the order t-stat, contrasts, RPV, mask, variance, tsv, figures, regression. */
  lemma {:induction false} SubstitutionsOrder(base: string, groupId: string, measureLabel: Value, fwhm: Value)
    ensures var rules := Substitutions(base, groupId, measureLabel, fwhm);
      && |rules| == |RULE_FOLDERS| == 8
      && forall i :: 0 <= i < 8 ==> StartsWith(rules[i].pattern, base + "/" + RULE_FOLDERS[i] + "/")
  {
    UnderFolder(base, RULE_FOLDERS[0], "(.*)");
    UnderFolder(base, RULE_FOLDERS[1], "(.*)");
    UnderFolder(base, RULE_FOLDERS[2], "resels_per_voxel.nii");
    UnderFolder(base, RULE_FOLDERS[3], "included_voxel_mask.nii");
    UnderFolder(base, RULE_FOLDERS[4], "(.*)");
    UnderFolder(base, RULE_FOLDERS[5], ".*");
    UnderFolder(base, RULE_FOLDERS[6], "(.*)");
    UnderFolder(base, RULE_FOLDERS[7], "(.*).nii");
  }

  /** Every replacement path starts with the base directory followed by "/"; the tsv one then climbs out of it through `..`. */
  lemma ReplacementsStartWithBase(base: string, groupId: string, measureLabel: Value, fwhm: Value)
    ensures forall r :: r in Substitutions(base, groupId, measureLabel, fwhm) ==> StartsWith(r.replacement, base + "/")
  {
    var rules := Substitutions(base, groupId, measureLabel, fwhm);
    forall i | 0 <= i < |rules|
      ensures StartsWith(rules[i].replacement, base + "/")
    {
      UnderBase(base, rules[i].replacement[|base| + 1..]);
    }
  }

  /** The tsv rule sends the participants file next to the statistics folder. */
  lemma TsvReplacement(base: string, groupId: string, measureLabel: Value, fwhm: Value)
    ensures Substitutions(base, groupId, measureLabel, fwhm)[5].replacement
            == base + "/../" + groupId + "_participants.tsv"
  {
    assert "/" + "../" == "/../";
  }

  /** The regression rule names the group, the covariate (the matched group), the measure and the FWHM. */
  lemma RegressionReplacement(base: string, groupId: string, measureLabel: Value, fwhm: Value)
    ensures Substitutions(base, groupId, measureLabel, fwhm)[7].replacement
            == base + "/" + groupId + "_covariate-\\1_measure-" + Render(measureLabel)
               + "_fwhm-" + Render(fwhm) + "_regressionCoefficient.nii"
  {
    CovariateName(base, groupId, Render(measureLabel), Render(fwhm));
  }

  lemma CovariateName(base: string, groupId: string, measure: string, fwhm: string)
    ensures Join(base, groupId + "_covariate-" + GROUP_ONE + "_measure-" + measure + "_fwhm-" + fwhm
                       + "_regressionCoefficient.nii")
            == base + "/" + groupId + "_covariate-\\1_measure-" + measure + "_fwhm-" + fwhm
               + "_regressionCoefficient.nii"
  {
    assert "_covariate-" + GROUP_ONE + "_measure-" == "_covariate-\\1_measure-";
  }
}
