/** The vocabulary shared by both classifiers and the device record. */
module Hazard {
  import opened Wrappers

  /** The three hazard levels a device record may carry. */
  datatype Level = Low | Medium | High

  /** The spelling of a level as it is stored and sent to clients. */
  function LevelName(l: Level): string
  {
    match l
    case Low => "Low"
    case Medium => "Medium"
    case High => "High"
  }

  /** Reads a stored level back; any spelling other than the three names is rejected. */
  function ParseLevel(s: string): (r: Option<Level>)
    ensures r.Some? ==> LevelName(r.value) == s
    ensures r.None? ==> forall l :: LevelName(l) != s
  {
    if s == "Low" then Some(Low)
    else if s == "Medium" then Some(Medium)
    else if s == "High" then Some(High)
    else None
  }

  /** Every level's name parses back to that level. */
  lemma ParseLevelName(l: Level)
    ensures ParseLevel(LevelName(l)) == Some(l)
  {
  }

  /** A named hazardous substance and the risk it poses. */
  datatype Material = Material(element: string, risk: string)

  /** A hazard profile: a level, the hazardous materials and the ordered recycling process. */
  datatype Profile = Profile(hazardLevel: Level, hazards: seq<Material>, process: seq<string>)

  /** `hazards.map(h => h.element)`: the material names, in order. */
  function Elements(hazards: seq<Material>): (r: seq<string>)
    ensures |r| == |hazards|
    ensures forall i :: 0 <= i < |hazards| ==> r[i] == hazards[i].element
  {
    if hazards == [] then [] else [hazards[0].element] + Elements(hazards[1..])
  }
}
