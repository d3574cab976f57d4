/**
 * The device record schema: which fields a stored device must have, which
 * values its two enumerations admit, and the defaults filled in for absent
 * fields. A draft (the plain object given to the model constructor) either
 * validates into a device or is rejected with the set of failing field paths.
 */
module DeviceSchema {
  import opened Wrappers
  import opened Hazard

  /** The life-cycle states of a device record. */
  datatype Status = Detected | Recycled | Disposed

  /** The stored spelling of a status. */
  function StatusName(s: Status): string
  {
    match s
    case Detected => "detected"
    case Recycled => "recycled"
    case Disposed => "disposed"
  }

  /** Reads a stored status back; any other spelling is rejected. */
  function ParseStatus(s: string): (r: Option<Status>)
    ensures r.Some? ==> StatusName(r.value) == s
    ensures r.None? ==> forall t :: StatusName(t) != s
  {
    if s == "detected" then Some(Detected)
    else if s == "recycled" then Some(Recycled)
    else if s == "disposed" then Some(Disposed)
    else None
  }

  /** The `detailedData` field: the empty object by default, or a stored profile. */
  datatype Details = EmptyObject | StoredProfile(profile: Profile)

  /** The object handed to the model constructor; every field may be absent. */
  datatype Draft = Draft(
    name: Option<string>,
    category: Option<string>,
    hazardLevel: Option<string>,
    classificationResults: Option<string>,
    recommendations: Option<seq<string>>,
    hazardousMaterials: Option<seq<string>>,
    environmentalImpact: Option<string>,
    safetyPrecautions: Option<seq<string>>,
    recyclingSteps: Option<seq<string>>,
    componentBreakdown: Option<string>,
    disposalWarnings: Option<seq<string>>,
    estimatedValue: Option<string>,
    carbonFootprint: Option<string>,
    imageUrl: Option<string>,
    status: Option<string>,
    detailedData: Option<Details>)

  /** A draft with nothing set. */
  const EmptyDraft: Draft := Draft(None, None, None, None, None, None, None, None,
                                   None, None, None, None, None, None, None, None)

  /** A validated device record, with every default applied. */
  datatype Device = Device(
    name: string,
    category: string,
    hazardLevel: Level,
    classificationResults: string,
    recommendations: seq<string>,
    hazardousMaterials: seq<string>,
    environmentalImpact: Option<string>,
    safetyPrecautions: seq<string>,
    recyclingSteps: seq<string>,
    componentBreakdown: Option<string>,
    disposalWarnings: seq<string>,
    estimatedValue: Option<string>,
    carbonFootprint: Option<string>,
    imageUrl: Option<string>,
    status: Status,
    detailedData: Details)

  /** A required string field is satisfied only by a present, non-empty string. */
  predicate Filled(v: Option<string>)
  {
    v.Some? && |v.value| > 0
  }

  /** An enumerated string field is satisfied when absent or when it spells one of the values. */
  predicate LevelAdmitted(v: Option<string>)
  {
    v.None? || v.value in {"Low", "Medium", "High"}
  }

  predicate StatusAdmitted(v: Option<string>)
  {
    v.None? || v.value in {"detected", "recycled", "disposed"}
  }

  /** The paths a validation error can name. */
  const CheckedPaths: set<string> := {"name", "category", "classificationResults", "hazardLevel", "status"}

  /** A stored device has its three required strings non-empty. */
  predicate ValidDevice(dev: Device)
  {
    |dev.name| > 0 && |dev.category| > 0 && |dev.classificationResults| > 0
  }

  /** The paths of `d` that break a constraint. */
  function FailingPaths(d: Draft): set<string>
  {
    (if Filled(d.name) then {} else {"name"})
    + (if Filled(d.category) then {} else {"category"})
    + (if Filled(d.classificationResults) then {} else {"classificationResults"})
    + (if d.hazardLevel.Some? && ParseLevel(d.hazardLevel.value).None? then {"hazardLevel"} else {})
    + (if d.status.Some? && ParseStatus(d.status.value).None? then {"status"} else {})
  }

  function ListOrEmpty(v: Option<seq<string>>): seq<string>
  {
    match v
    case Some(xs) => xs
    case None => []
  }

  /**
   * Validation as the model performs it before a save: every required path
   * and every enumeration is checked, and all failing paths are reported together.
   */
  function Validate(d: Draft): (r: Result<Device, set<string>>)
    ensures r.Ok? <==>
      && Filled(d.name) && Filled(d.category) && Filled(d.classificationResults)
      && LevelAdmitted(d.hazardLevel) && StatusAdmitted(d.status)
    ensures r.Err? ==> r.error != {} && r.error <= CheckedPaths
    ensures r.Err? ==> ("name" in r.error <==> !Filled(d.name))
    ensures r.Err? ==> ("category" in r.error <==> !Filled(d.category))
    ensures r.Err? ==> ("classificationResults" in r.error <==> !Filled(d.classificationResults))
    ensures r.Err? ==> ("hazardLevel" in r.error <==> !LevelAdmitted(d.hazardLevel))
    ensures r.Err? ==> ("status" in r.error <==> !StatusAdmitted(d.status))
    ensures r.Ok? ==> ValidDevice(r.value)
    ensures r.Ok? ==> Some(r.value.name) == d.name && Some(r.value.category) == d.category
    ensures r.Ok? ==> Some(r.value.classificationResults) == d.classificationResults
    ensures r.Ok? ==> if d.hazardLevel.None? then r.value.hazardLevel == Low
                      else LevelName(r.value.hazardLevel) == d.hazardLevel.value
    ensures r.Ok? ==> if d.status.None? then r.value.status == Detected
                      else StatusName(r.value.status) == d.status.value
    ensures r.Ok? ==> if d.detailedData.None? then r.value.detailedData == EmptyObject
                      else r.value.detailedData == d.detailedData.value
    ensures r.Ok? ==> if d.recommendations.None? then r.value.recommendations == []
                      else r.value.recommendations == d.recommendations.value
    ensures r.Ok? ==> if d.hazardousMaterials.None? then r.value.hazardousMaterials == []
                      else r.value.hazardousMaterials == d.hazardousMaterials.value
    ensures r.Ok? ==> if d.safetyPrecautions.None? then r.value.safetyPrecautions == []
                      else r.value.safetyPrecautions == d.safetyPrecautions.value
    ensures r.Ok? ==> if d.recyclingSteps.None? then r.value.recyclingSteps == []
                      else r.value.recyclingSteps == d.recyclingSteps.value
    ensures r.Ok? ==> if d.disposalWarnings.None? then r.value.disposalWarnings == []
                      else r.value.disposalWarnings == d.disposalWarnings.value
    ensures r.Ok? ==> && r.value.environmentalImpact == d.environmentalImpact
                      && r.value.componentBreakdown == d.componentBreakdown
                      && r.value.estimatedValue == d.estimatedValue
                      && r.value.carbonFootprint == d.carbonFootprint
                      && r.value.imageUrl == d.imageUrl
  {
    var failing := FailingPaths(d);
    if failing != {} then Err(failing)
    else
      Ok(Device(
        d.name.value,
        d.category.value,
        if d.hazardLevel.None? then Low else ParseLevel(d.hazardLevel.value).value,
        d.classificationResults.value,
        ListOrEmpty(d.recommendations),
        ListOrEmpty(d.hazardousMaterials),
        d.environmentalImpact,
        ListOrEmpty(d.safetyPrecautions),
        ListOrEmpty(d.recyclingSteps),
        d.componentBreakdown,
        ListOrEmpty(d.disposalWarnings),
        d.estimatedValue,
        d.carbonFootprint,
        d.imageUrl,
        if d.status.None? then Detected else ParseStatus(d.status.value).value,
        match d.detailedData case Some(details) => details case None => EmptyObject))
  }

  /** The document a stored device is written as: every field present. */
  function ToDraft(dev: Device): Draft
  {
    Draft(Some(dev.name), Some(dev.category), Some(LevelName(dev.hazardLevel)),
          Some(dev.classificationResults), Some(dev.recommendations),
          Some(dev.hazardousMaterials), dev.environmentalImpact,
          Some(dev.safetyPrecautions), Some(dev.recyclingSteps),
          dev.componentBreakdown, Some(dev.disposalWarnings),
          dev.estimatedValue, dev.carbonFootprint, dev.imageUrl,
          Some(StatusName(dev.status)), Some(dev.detailedData))
  }

  /** A valid device written out and validated again is the same device. */
  lemma ValidateToDraft(dev: Device)
    requires ValidDevice(dev)
    ensures Validate(ToDraft(dev)) == Ok(dev)
  {
    ParseLevelName(dev.hazardLevel);
    assert ParseStatus(StatusName(dev.status)) == Some(dev.status);
  }

  /** A draft missing any required field, or with one set to "", is rejected. */
  lemma MissingRequiredRejected(d: Draft)
    requires !Filled(d.name) || !Filled(d.category) || !Filled(d.classificationResults)
    ensures Validate(d).Err?
  {
  }

  /** The empty draft fails on exactly the three required paths; the enumerations fall back to their defaults. */
  lemma EmptyDraftFailures()
    ensures Validate(EmptyDraft) == Err({"name", "category", "classificationResults"})
  {
    var failing := FailingPaths(EmptyDraft);
    assert "name" in failing && "category" in failing && "classificationResults" in failing;
    assert failing == {"name", "category", "classificationResults"};
  }
}
