/**
 * The keyword-table classifier and the enhanced fallback are separate
 * heuristics: they read different fields for the same keywords and can
 * disagree on the level of one and the same device.
 */
module HeuristicsCompared {
  import opened Text
  import opened Hazard
  import opened KnowledgeBase
  import opened Classifier
  import opened AiService

  /** "Battery" in "Other": the first two keys are absent and "battery" is present, so the table says High. */
  lemma BatteryNameIsHighForTable(name: string, category: string)
    requires name == "Battery" && category == "Other"
    ensures Classify(name, category).hazardLevel == High
  {
    var n := Lower(name);
    var c := Lower(category);
    assert n == "battery" && c == "other";
    assert OccursAt(n, "battery", 0);
    ContainsAt(n, "battery", 0);
    MissingCharNotContained(n, "smartphone", 's');
    MissingCharNotContained(c, "smartphone", 's');
    MissingCharNotContained(n, "laptop", 'l');
    MissingCharNotContained(c, "laptop", 'l');
    assert WasteDatabase[0].key == "smartphone" && WasteDatabase[1].key == "laptop";
    assert WasteDatabase[2].key == "battery";
    assert FirstMatchAt(2, name, category);
  }

  /** "Battery" in "Other": the fallback looks for "battery" only in the category, so it says Medium. */
  lemma BatteryNameIsMediumForFallback(name: string, category: string)
    requires name == "Battery" && category == "Other"
    ensures GetFallbackAnalysis(name, category).hazardLevel == Medium
  {
    var n := Lower(name);
    var c := Lower(category);
    assert n == "battery" && c == "other";
    MissingCharNotContained(c, "battery", 'b');
    MissingCharNotContained(n, "phone", 'p');
    MissingCharNotContained(n, "laptop", 'l');
    MissingCharNotContained(c, "monitor", 'm');
  }

  /** A device named "Battery" in category "Other" is High for the table but Medium for the fallback. */
  lemma BatteryNameSplitsTheHeuristics(name: string, category: string)
    requires name == "Battery" && category == "Other"
    ensures Classify(name, category).hazardLevel != GetFallbackAnalysis(name, category).hazardLevel
  {
    BatteryNameIsHighForTable(name, category);
    BatteryNameIsMediumForFallback(name, category);
  }
}
