/**
 * The AI analysis service: a provider call whose parsed reply is returned as
 * it is, and, when the call or the parse fails, an enhanced fallback analysis
 * chosen by a binary high-risk test on the device name and category.
 */
module AiService {
  import opened Wrappers
  import opened Text
  import opened Hazard
  import Json

  /** The analysis document, in the field order the service writes it. */
  datatype Analysis = Analysis(
    hazardLevel: Level,
    hazardousMaterials: seq<string>,
    environmentalImpact: string,
    safetyPrecautions: seq<string>,
    recyclingSteps: seq<string>,
    componentBreakdown: string,
    disposalWarnings: seq<string>,
    estimatedValue: string,
    carbonFootprint: string)

  /**
   * The high-risk test. The keywords are checked against different fields:
   * "battery" and "monitor" only in the category, "phone" and "laptop" only in the name.
   */
  predicate IsHighRisk(deviceName: string, category: string)
  {
    || Contains(Lower(category), "battery")
    || Contains(Lower(deviceName), "phone")
    || Contains(Lower(deviceName), "laptop")
    || Contains(Lower(category), "monitor")
  }

  const HighRiskMaterials: seq<string> := [
    "Lithium-ion batteries", "Lead", "Mercury", "Cadmium", "Brominated flame retardants", "Beryllium"]

  const DefaultMaterials: seq<string> := ["Lead", "PVC plastics", "Polychlorinated biphenyls (PCBs)"]

  const ImpactText: string :=
    " contains materials that can contaminate soil and water if improperly disposed. Heavy metals can persist in the environment for decades and enter the food chain. Proper recycling can recover valuable materials like gold, silver, copper, and rare earth elements while preventing environmental harm."

  const BreakdownText: string :=
    " typically contains: Circuit boards with precious metals (gold, silver, copper), plastic housing (recyclable), glass components, various metal alloys, and electronic components. Approximately 80% of the device by weight is recyclable. The remaining 20% requires special hazardous waste handling."

  const RecyclingSteps: seq<string> := [
    "Back up and erase all personal data from the device",
    "Remove any batteries if safely accessible",
    "Check if the device is still functional - consider donation or refurbishment",
    "Locate a certified e-waste recycling center near you",
    "Transport safely in a padded container",
    "Request a receipt or certificate of proper disposal",
    "Ask the facility about their recycling process and certifications (R2 or e-Stewards)"]

  const CarbonText: string :=
    "Proper recycling can save approximately 20-50kg of CO2 emissions compared to manufacturing from virgin materials. Landfill disposal would contribute to methane production and prevent material recovery, resulting in 3-5x higher carbon impact over the device lifecycle."

  /** The five safety precautions; only the second depends on the risk. */
  function SafetyPrecautions(highRisk: bool): (r: seq<string>)
    ensures |r| == 5
    ensures r[1] == if highRisk then "Keep away from heat sources and avoid puncturing batteries"
                    else "Handle with care to avoid cuts from sharp edges"
  {
    [ "Wear protective gloves when handling",
      if highRisk then "Keep away from heat sources and avoid puncturing batteries"
      else "Handle with care to avoid cuts from sharp edges",
      "Store in a cool, dry place before recycling",
      "Do not attempt to disassemble without proper training",
      "Keep away from children and pets" ]
  }

  /** The five disposal warnings; only the fourth depends on the risk. */
  function DisposalWarnings(highRisk: bool): (r: seq<string>)
    ensures |r| == 5
    ensures r[3] == if highRisk then "Battery may explode if damaged or overheated"
                    else "May contain mercury in switches or displays"
  {
    [ "NEVER throw in regular trash - illegal in many jurisdictions",
      "Do not burn or incinerate - releases toxic fumes",
      "Avoid landfill disposal - contaminates groundwater",
      if highRisk then "Battery may explode if damaged or overheated"
      else "May contain mercury in switches or displays",
      "Improper disposal may result in fines or legal penalties" ]
  }

  /** The two templates of the fallback analysis, with the device name woven into two texts. */
  function FallbackTemplate(highRisk: bool, deviceName: string): (a: Analysis)
    ensures a.hazardLevel == if highRisk then High else Medium
    ensures |a.hazardousMaterials| == if highRisk then 6 else 3
    ensures a.recyclingSteps == RecyclingSteps && |a.recyclingSteps| == 7
    ensures |a.safetyPrecautions| == 5 && |a.disposalWarnings| == 5
    ensures StartsWith(a.environmentalImpact, deviceName)
    ensures StartsWith(a.componentBreakdown, deviceName)
    ensures a.carbonFootprint == CarbonText
  {
    Analysis(
      if highRisk then High else Medium,
      if highRisk then HighRiskMaterials else DefaultMaterials,
      deviceName + ImpactText,
      SafetyPrecautions(highRisk),
      RecyclingSteps,
      deviceName + BreakdownText,
      DisposalWarnings(highRisk),
      if highRisk
      then "Contains $5-15 worth of recoverable materials including precious metals and rare earth elements"
      else "Contains $2-8 worth of recoverable metals and plastics",
      CarbonText)
  }

  /** The enhanced fallback analysis: the high-risk template or the default one. */
  function GetFallbackAnalysis(deviceName: string, category: string): (a: Analysis)
    ensures a.hazardLevel == High <==> IsHighRisk(deviceName, category)
    ensures a.hazardLevel != Low
    ensures |a.hazardousMaterials| == if IsHighRisk(deviceName, category) then 6 else 3
    ensures a.recyclingSteps == RecyclingSteps && |a.recyclingSteps| == 7
    ensures |a.safetyPrecautions| == 5 && |a.disposalWarnings| == 5
    ensures StartsWith(a.environmentalImpact, deviceName)
    ensures StartsWith(a.componentBreakdown, deviceName)
    ensures a.carbonFootprint == CarbonText
  {
    FallbackTemplate(IsHighRisk(deviceName, category), deviceName)
  }

  /** The risk test reads only the lower-cased fields. */
  lemma IsHighRiskCaseInsensitive(name1: string, category1: string, name2: string, category2: string)
    requires Lower(name1) == Lower(name2) && Lower(category1) == Lower(category2)
    ensures IsHighRisk(name1, category1) == IsHighRisk(name2, category2)
  {
  }

  /** Every precaution but the second is the same in both templates. */
  lemma TemplatesShareFixedPrecautions(high1: bool, high2: bool, name1: string, name2: string)
    ensures var p1 := FallbackTemplate(high1, name1).safetyPrecautions;
            var p2 := FallbackTemplate(high2, name2).safetyPrecautions;
            forall i :: 0 <= i < 5 && i != 1 ==> p1[i] == p2[i]
  {
  }

  /** Every warning but the fourth is the same in both templates. */
  lemma TemplatesShareFixedWarnings(high1: bool, high2: bool, name1: string, name2: string)
    ensures var w1 := FallbackTemplate(high1, name1).disposalWarnings;
            var w2 := FallbackTemplate(high2, name2).disposalWarnings;
            forall i :: 0 <= i < 5 && i != 3 ==> w1[i] == w2[i]
  {
  }

  /** The two templates do differ at the second precaution and the fourth warning. */
  lemma TemplatesDifferWhereRiskMatters(name1: string, name2: string)
    ensures FallbackTemplate(true, name1).safetyPrecautions[1] != FallbackTemplate(false, name2).safetyPrecautions[1]
    ensures FallbackTemplate(true, name1).disposalWarnings[3] != FallbackTemplate(false, name2).disposalWarnings[3]
  {
  }

  /** Two devices with the same risk get the same analysis except for the two texts that quote the name. */
  lemma FallbackDependsOnlyOnRisk(name1: string, category1: string, name2: string, category2: string)
    requires IsHighRisk(name1, category1) == IsHighRisk(name2, category2)
    ensures var a1 := GetFallbackAnalysis(name1, category1);
            var a2 := GetFallbackAnalysis(name2, category2);
            a1.(environmentalImpact := a2.environmentalImpact, componentBreakdown := a2.componentBreakdown) == a2
  {
  }

  /** The two analysis texts are the device name followed by fixed wording. */
  lemma FallbackTextsQuoteName(deviceName: string, category: string)
    ensures GetFallbackAnalysis(deviceName, category).environmentalImpact[|deviceName|..] == ImpactText
    ensures GetFallbackAnalysis(deviceName, category).componentBreakdown[|deviceName|..] == BreakdownText
  {
  }

  /** An "iPhone 12" is high risk: name contains "phone", so six materials and the High level. */
  lemma IPhoneIsHighRisk(name: string, category: string)
    requires name == "iPhone 12" && category == "E-waste"
    ensures GetFallbackAnalysis(name, category).hazardLevel == High
    ensures GetFallbackAnalysis(name, category).hazardousMaterials == HighRiskMaterials
  {
    IPhoneNameMentionsPhone(name);
  }

  /** The lower-cased "iPhone 12" contains "phone" at position 1. */
  lemma IPhoneNameMentionsPhone(name: string)
    requires name == "iPhone 12"
    ensures Contains(Lower(name), "phone")
  {
    var lowered := Lower(name);
    assert lowered == "iphone 12";
    assert OccursAt(lowered, "phone", 1);
    ContainsAt(lowered, "phone", 1);
  }

  /** A device named "Plastic Tray" in category "Plastic" fails the risk test. */
  lemma PlasticTrayNotHighRisk(name: string, category: string)
    requires name == "Plastic Tray" && category == "Plastic"
    ensures !IsHighRisk(name, category)
  {
    assert Lower(name) == "plastic tray" && Lower(category) == "plastic";
    MissingCharNotContained(Lower(category), "battery", 'b');
    MissingCharNotContained(Lower(name), "phone", 'h');
    MissingCharNotContained(Lower(name), "laptop", 'o');
    MissingCharNotContained(Lower(category), "monitor", 'm');
  }

  /** A "Plastic Tray" in category "Plastic" gets the default template: Medium and the three default materials. */
  lemma PlasticTrayIsDefault(name: string, category: string)
    requires name == "Plastic Tray" && category == "Plastic"
    ensures GetFallbackAnalysis(name, category).hazardLevel == Medium
    ensures GetFallbackAnalysis(name, category).hazardousMaterials == DefaultMaterials
  {
    PlasticTrayNotHighRisk(name, category);
  }

  /**
   * The risk test is field-specific: "battery" as the name with "phone" as the
   * category is not high risk, while the same two words swapped are.
   */
  lemma KeywordInWrongFieldIsNotHighRisk(a: string, b: string)
    requires a == "battery" && b == "phone"
    ensures !IsHighRisk(a, b)
    ensures IsHighRisk(b, a)
  {
    assert Lower(a) == "battery" && Lower(b) == "phone";
    MissingCharNotContained(Lower(b), "battery", 'b');
    MissingCharNotContained(Lower(a), "phone", 'p');
    MissingCharNotContained(Lower(a), "laptop", 'l');
    MissingCharNotContained(Lower(b), "monitor", 'm');
    assert OccursAt(Lower(b), "phone", 0);
    ContainsAt(Lower(b), "phone", 0);
  }

  /** The analysis as a JSON object, with the service's field names. */
  function ToJson(a: Analysis): (v: Json.Value)
    ensures v.Obj? && |v.fields| == 9 && Json.DistinctKeys(v.fields)
  {
    Json.Obj([
      ("hazardLevel", Json.Str(LevelName(a.hazardLevel))),
      ("hazardousMaterials", Json.FromStrings(a.hazardousMaterials)),
      ("environmentalImpact", Json.Str(a.environmentalImpact)),
      ("safetyPrecautions", Json.FromStrings(a.safetyPrecautions)),
      ("recyclingSteps", Json.FromStrings(a.recyclingSteps)),
      ("componentBreakdown", Json.Str(a.componentBreakdown)),
      ("disposalWarnings", Json.FromStrings(a.disposalWarnings)),
      ("estimatedValue", Json.Str(a.estimatedValue)),
      ("carbonFootprint", Json.Str(a.carbonFootprint))])
  }

  /** The string member `key` of an object, if present and a string. */
  function StrField(fields: seq<(string, Json.Value)>, key: string): Option<string>
  {
    match Json.Lookup(fields, key)
    case Some(Str(s)) => Some(s)
    case _ => None
  }

  /** The string-array member `key` of an object, if present and an array of strings. */
  function StrsField(fields: seq<(string, Json.Value)>, key: string): Option<seq<string>>
  {
    match Json.Lookup(fields, key)
    case Some(Arr(items)) => Json.AsStrings(items)
    case _ => None
  }

  /** Reads an analysis out of a JSON value; anything missing or mistyped gives None. */
  function FromJson(v: Json.Value): Option<Analysis>
  {
    if !v.Obj? then None
    else
      var level := match StrField(v.fields, "hazardLevel")
        case Some(s) => ParseLevel(s)
        case None => None;
      var materials := StrsField(v.fields, "hazardousMaterials");
      var impact := StrField(v.fields, "environmentalImpact");
      var safety := StrsField(v.fields, "safetyPrecautions");
      var steps := StrsField(v.fields, "recyclingSteps");
      var breakdown := StrField(v.fields, "componentBreakdown");
      var warnings := StrsField(v.fields, "disposalWarnings");
      var value := StrField(v.fields, "estimatedValue");
      var carbon := StrField(v.fields, "carbonFootprint");
      if level.Some? && materials.Some? && impact.Some? && safety.Some? && steps.Some?
         && breakdown.Some? && warnings.Some? && value.Some? && carbon.Some?
      then Some(Analysis(level.value, materials.value, impact.value, safety.value, steps.value,
                         breakdown.value, warnings.value, value.value, carbon.value))
      else None
  }

  /** The text members of the rendered object read back as written. */
  lemma ToJsonTextFields(a: Analysis)
    ensures StrField(ToJson(a).fields, "hazardLevel") == Some(LevelName(a.hazardLevel))
    ensures StrField(ToJson(a).fields, "environmentalImpact") == Some(a.environmentalImpact)
    ensures StrField(ToJson(a).fields, "componentBreakdown") == Some(a.componentBreakdown)
    ensures StrField(ToJson(a).fields, "estimatedValue") == Some(a.estimatedValue)
    ensures StrField(ToJson(a).fields, "carbonFootprint") == Some(a.carbonFootprint)
  {
    var fields := ToJson(a).fields;
    assert Json.DistinctKeys(fields);
    Json.LookupDistinct(fields, 0);
    Json.LookupDistinct(fields, 2);
    Json.LookupDistinct(fields, 5);
    Json.LookupDistinct(fields, 7);
    Json.LookupDistinct(fields, 8);
  }

  /** The list members of the rendered object read back as written. */
  lemma ToJsonListFields(a: Analysis)
    ensures StrsField(ToJson(a).fields, "hazardousMaterials") == Some(a.hazardousMaterials)
    ensures StrsField(ToJson(a).fields, "safetyPrecautions") == Some(a.safetyPrecautions)
    ensures StrsField(ToJson(a).fields, "recyclingSteps") == Some(a.recyclingSteps)
    ensures StrsField(ToJson(a).fields, "disposalWarnings") == Some(a.disposalWarnings)
  {
    var fields := ToJson(a).fields;
    assert Json.DistinctKeys(fields);
    Json.LookupDistinct(fields, 1);
    Json.LookupDistinct(fields, 3);
    Json.LookupDistinct(fields, 4);
    Json.LookupDistinct(fields, 6);
    Json.AsStringsFromStrings(a.hazardousMaterials);
    Json.AsStringsFromStrings(a.safetyPrecautions);
    Json.AsStringsFromStrings(a.recyclingSteps);
    Json.AsStringsFromStrings(a.disposalWarnings);
  }

  /** Writing an analysis as JSON and reading it back gives the same analysis. */
  lemma FromJsonToJson(a: Analysis)
    ensures FromJson(ToJson(a)) == Some(a)
  {
    ToJsonTextFields(a);
    ToJsonListFields(a);
    ParseLevelName(a.hazardLevel);
  }

  /** Why a provider call produced no usable object; every kind is handled alike. */
  datatype Failure = ProviderError | NoChoices | MalformedJson

  /** The provider call together with `JSON.parse` of its message content. */
  datatype Reply = Parsed(value: Json.Value) | Failed(reason: Failure)

  /**
   * The service entry point: a parsed reply is returned as it is, without any
   * check of its shape; any failure is absorbed and the fallback analysis returned.
   */
  function AnalyzeDevice(deviceName: string, category: string, reply: Reply): (r: Json.Value)
    ensures reply.Parsed? ==> r == reply.value
    ensures reply.Failed? ==> FromJson(r) == Some(GetFallbackAnalysis(deviceName, category))
  {
    match reply
    case Parsed(v) => v
    case Failed(_) =>
      var a := GetFallbackAnalysis(deviceName, category);
      FromJsonToJson(a);
      ToJson(a)
  }

  /** The outcome is the provider's object or the fallback, and the kind of failure does not matter. */
  lemma AnalyzeDeviceEitherOr(deviceName: string, category: string, reply: Reply, other: Failure)
    ensures || (reply.Parsed? && AnalyzeDevice(deviceName, category, reply) == reply.value)
            || AnalyzeDevice(deviceName, category, reply) == ToJson(GetFallbackAnalysis(deviceName, category))
    ensures reply.Failed? ==>
      AnalyzeDevice(deviceName, category, reply) == AnalyzeDevice(deviceName, category, Failed(other))
  {
  }

  /** A parsed reply lacking every field still comes back unchanged; nothing checks it. */
  lemma ShapelessReplyPassesThrough(deviceName: string, category: string)
    ensures AnalyzeDevice(deviceName, category, Parsed(Json.Obj([]))) == Json.Obj([])
    ensures FromJson(Json.Obj([])) == None
  {
  }
}
