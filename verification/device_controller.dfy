/**
 * The device controller's request handling around the classifier: building
 * and validating the device record for a classification request, and the
 * statistics summary with its seven-day activity series and impact score.
 */
module DeviceController {
  import opened Wrappers
  import opened Hazard
  import opened Classifier
  import opened DeviceSchema

  /** What the database write of a validated record did. */
  datatype SaveOutcome = Saved | SaveFailed

  /** The classification handler's reply: 201 with the stored record, or 500. */
  datatype ClassifyResponse = Created(device: Device) | ServerError

  /**
   * The image URL the handler stores: `/uploads/<filename>` when a file was
   * uploaded, otherwise the `imageUrl` of the request body. The uploaded path
   * is never empty, so the `||` of the source always picks it when present.
   */
  function StoredImageUrl(upload: Option<string>, bodyImageUrl: Option<string>): (u: Option<string>)
    ensures upload.Some? ==> u == Some("/uploads/" + upload.value) && u.value[..9] == "/uploads/"
    ensures upload.None? ==> u == bodyImageUrl
  {
    if upload.Some? then Some("/uploads/" + upload.value) else bodyImageUrl
  }

  /** The object the handler passes to the model constructor for a classified device. */
  function ClassifyDraft(name: string, category: string, imageUrl: Option<string>): (d: Draft)
    ensures d.name == Some(name) && d.category == Some(category)
    ensures d.imageUrl == imageUrl
    ensures d.hazardLevel.Some? && d.hazardLevel.value != "Low" && LevelAdmitted(d.hazardLevel)
    ensures d.classificationResults.Some? && |d.classificationResults.value| > 0
    ensures d.status.None? && d.detailedData.Some?
  {
    var c := Classify(name, category);
    EmptyDraft.(
      name := Some(name),
      category := Some(category),
      hazardLevel := Some(LevelName(c.hazardLevel)),
      classificationResults := Some(c.classificationResults),
      recommendations := Some(c.recommendations),
      imageUrl := imageUrl,
      detailedData := Some(StoredProfile(c.detailedData)))
  }

  /**
   * The classification request: a missing name or category makes the handler
   * throw (lower-casing an absent value, or the required-field check on save),
   * an empty one fails validation, and a failed write is reported as 500 too.
   * `upload` is the stored file name when the request carried a file and
   * `bodyImageUrl` is the body's `imageUrl` field.
   */
  function HandleClassify(name: Option<string>, category: Option<string>,
                          upload: Option<string>, bodyImageUrl: Option<string>,
                          save: SaveOutcome): (r: ClassifyResponse)
    ensures r.Created? <==> Filled(name) && Filled(category) && save == Saved
    ensures r.Created? ==> ValidDevice(r.device)
    ensures r.Created? ==>
      var c := Classify(name.value, category.value);
      && r.device.name == name.value && r.device.category == category.value
      && r.device.hazardLevel == c.hazardLevel
      && r.device.recommendations == c.recommendations
      && r.device.classificationResults == c.classificationResults
      && r.device.detailedData == StoredProfile(c.detailedData)
    ensures r.Created? ==> r.device.hazardLevel != Low && r.device.status == Detected
    ensures r.Created? ==> 3 <= |r.device.recommendations| <= 4
    ensures r.Created? ==>
      && r.device.hazardousMaterials == [] && r.device.safetyPrecautions == []
      && r.device.recyclingSteps == [] && r.device.disposalWarnings == []
      && r.device.environmentalImpact.None? && r.device.componentBreakdown.None?
      && r.device.estimatedValue.None? && r.device.carbonFootprint.None?
    ensures r.Created? && upload.Some? ==> r.device.imageUrl == Some("/uploads/" + upload.value)
    ensures r.Created? && upload.None? ==> r.device.imageUrl == bodyImageUrl
  {
    if name.None? || category.None? then ServerError
    else
      match Validate(ClassifyDraft(name.value, category.value, StoredImageUrl(upload, bodyImageUrl)))
      case Err(_) => ServerError
      case Ok(device) =>
        ParseLevelName(Classify(name.value, category.value).hazardLevel);
        if save == Saved then Created(device) else ServerError
  }

  /** The i-th day of the activity window: its date key and weekday label, i days before today. */
  datatype WindowDay = WindowDay(key: string, dayName: string)

  /** One group of the aggregation: a date key and how many devices were created that day. */
  datatype Bucket = Bucket(id: string, count: nat)

  /** One point of the activity chart. */
  datatype DayActivity = DayActivity(name: string, count: nat)

  /** The statistics reply, without the floating-point CO2 figure. */
  datatype Stats = Stats(totalDevices: nat, highHazardDevices: nat, impactScore: nat, dailyActivity: seq<DayActivity>)

  /** The seven window keys are distinct; `DailyActivity` assumes this, and the source does not guarantee it (a daylight-saving change can repeat a date). */
  predicate DistinctKeys(window: seq<WindowDay>)
  {
    forall i, j :: 0 <= i < j < |window| ==> window[i].key != window[j].key
  }

  /** Some bucket carries `key`. */
  predicate HasKey(activity: seq<Bucket>, key: string)
  {
    exists k :: 0 <= k < |activity| && activity[k].id == key
  }

  /** The count a day ends up with: the last bucket for it wins, and a day with no bucket keeps 0. */
  function LastCount(activity: seq<Bucket>, key: string): (r: nat)
    ensures !HasKey(activity, key) ==> r == 0
    ensures HasKey(activity, key) ==>
      exists k :: 0 <= k < |activity| && activity[k].id == key && activity[k].count == r
        && forall j :: k < j < |activity| ==> activity[j].id != key
  {
    if activity == [] then 0
    else if activity[|activity| - 1].id == key then activity[|activity| - 1].count
    else LastCount(activity[..|activity| - 1], key)
  }

  /** Buckets for a day only come from that day; the latest of them decides. */
  lemma {:induction false} LastCountAppend(a: seq<Bucket>, c: seq<Bucket>, key: string)
    ensures LastCount(a + c, key) == if HasKey(c, key) then LastCount(c, key) else LastCount(a, key)
    decreases |c|
  {
    if c == [] {
      assert a + c == a;
    } else {
      var last := c[|c| - 1];
      var init := c[..|c| - 1];
      assert (a + c)[..|a + c| - 1] == a + init;
      assert (a + c)[|a + c| - 1] == last;
      LastCountAppend(a, init, key);
      if last.id != key {
        assert HasKey(c, key) <==> HasKey(init, key) by {
          forall k | 0 <= k < |init| ensures init[k] == c[k] { }
        }
      } else {
        assert HasKey(c, key);
      }
    }
  }

  /** A day no bucket mentions has count 0. */
  lemma {:induction false} LastCountAbsent(activity: seq<Bucket>, key: string)
    requires !HasKey(activity, key)
    ensures LastCount(activity, key) == 0
  {
    if activity != [] {
      var init := activity[..|activity| - 1];
      assert !HasKey(init, key) by {
        forall k | 0 <= k < |init| ensures init[k] == activity[k] { }
      }
      LastCountAbsent(init, key);
    }
  }

  /** The activity series, oldest day first: the window reversed, each day with its count. */
  function ActivitySeries(window: seq<WindowDay>, activity: seq<Bucket>): (days: seq<DayActivity>)
    requires |window| == 7
    ensures |days| == 7
  {
    seq(7, j requires 0 <= j < 7 => DayActivity(window[6 - j].dayName, LastCount(activity, window[6 - j].key)))
  }

  /** Days that no bucket mentions show a count of 0. */
  lemma SeriesZeroWhereAbsent(window: seq<WindowDay>, activity: seq<Bucket>)
    requires |window| == 7
    ensures forall j :: 0 <= j < 7 && !HasKey(activity, window[6 - j].key) ==>
      ActivitySeries(window, activity)[j].count == 0
  {
    forall j | 0 <= j < 7 && !HasKey(activity, window[6 - j].key)
      ensures ActivitySeries(window, activity)[j].count == 0
    {
      LastCountAbsent(activity, window[6 - j].key);
    }
  }

  /** A bucket whose date lies outside the window changes nothing, wherever it appears. */
  lemma OutsideWindowIgnored(window: seq<WindowDay>, a: seq<Bucket>, b: Bucket, c: seq<Bucket>)
    requires |window| == 7
    requires forall i :: 0 <= i < 7 ==> window[i].key != b.id
    ensures ActivitySeries(window, a + [b] + c) == ActivitySeries(window, a + c)
  {
    forall i | 0 <= i < 7
      ensures LastCount(a + [b] + c, window[i].key) == LastCount(a + c, window[i].key)
    {
      var key := window[i].key;
      LastCountAppend(a + [b], c, key);
      LastCountAppend(a, c, key);
      LastCountAppend(a, [b], key);
      assert !HasKey([b], key);
      LastCountAbsent([], key);
    }
  }

  /** The position of the window day keyed `id`, or `|window|` when no day has that key. */
  function WindowIndex(window: seq<WindowDay>, id: string): (r: nat)
    ensures r <= |window|
    ensures r < |window| ==> window[r].key == id
    ensures forall j :: 0 <= j < r ==> window[j].key != id
  {
    if window == [] then 0
    else if window[0].key == id then 0
    else 1 + WindowIndex(window[1..], id)
  }

  /** Folding one more bucket into the counts keeps them equal to the last-bucket counts. */
  lemma CountsStep(window: seq<WindowDay>, seen: seq<Bucket>, b: Bucket, counts: seq<nat>)
    requires |window| == 7 && DistinctKeys(window) && |counts| == 7
    requires forall k :: 0 <= k < 7 ==> counts[k] == LastCount(seen, window[k].key)
    ensures var i := WindowIndex(window, b.id);
            var next := if i < 7 then counts[i := b.count] else counts;
            forall k :: 0 <= k < 7 ==> next[k] == LastCount(seen + [b], window[k].key)
  {
    assert (seen + [b])[..|seen|] == seen;
  }

  /** The series read off per-day counts indexed like the window, oldest day first. */
  function SeriesOf(window: seq<WindowDay>, counts: seq<nat>): (days: seq<DayActivity>)
    requires |window| == 7 && |counts| == 7
    ensures |days| == 7
    ensures forall j :: 0 <= j < 7 ==> days[j].name == window[6 - j].dayName
  {
    seq(7, j requires 0 <= j < 7 => DayActivity(window[6 - j].dayName, counts[6 - j]))
  }

  /** Counts that agree with the last bucket of every window day give the activity series. */
  lemma SeriesFromCounts(window: seq<WindowDay>, activity: seq<Bucket>, counts: seq<nat>)
    requires |window| == 7 && |counts| == 7
    requires forall k :: 0 <= k < 7 ==> counts[k] == LastCount(activity, window[k].key)
    ensures SeriesOf(window, counts) == ActivitySeries(window, activity)
  {
  }

  /**
   * Builds the seven-day map (zero counts), overwrites the count of every
   * bucket whose date is in the window, and lists the days oldest first.
   */
  method DailyActivity(window: seq<WindowDay>, activity: seq<Bucket>) returns (days: seq<DayActivity>)
    requires |window| == 7 && DistinctKeys(window)
    ensures days == ActivitySeries(window, activity)
    ensures forall j :: 0 <= j < 7 ==> days[j].name == window[6 - j].dayName
    ensures forall j :: 0 <= j < 7 && !HasKey(activity, window[6 - j].key) ==> days[j].count == 0
  {
    var counts: seq<nat> := [0, 0, 0, 0, 0, 0, 0];
    var n := 0;
    while n < |activity|
      invariant 0 <= n <= |activity|
      invariant |counts| == 7
      invariant forall k :: 0 <= k < 7 ==> counts[k] == LastCount(activity[..n], window[k].key)
    {
      var b := activity[n];
      CountsStep(window, activity[..n], b, counts);
      var i := WindowIndex(window, b.id);
      if i < 7 {
        counts := counts[i := b.count];
      }
      assert activity[..n + 1] == activity[..n] + [b];
      n := n + 1;
    }
    assert activity[..n] == activity;
    days := SeriesOf(window, counts);
    SeriesFromCounts(window, activity, counts);
    SeriesZeroWhereAbsent(window, activity);
  }

  /** The impact score: 50 points per device and 100 more per high-hazard device. */
  function ImpactScore(total: nat, highHazard: nat): (r: nat)
    ensures highHazard <= total ==> 50 * total <= r <= 150 * total
    ensures r % 50 == 0
  {
    total * 50 + highHazard * 100
  }

  /** Recording one more device raises the score by 50, or by 150 when it is high-hazard. */
  lemma ImpactScoreStep(total: nat, highHazard: nat)
    ensures ImpactScore(total + 1, highHazard) == ImpactScore(total, highHazard) + 50
    ensures ImpactScore(total + 1, highHazard + 1) == ImpactScore(total, highHazard) + 150
  {
  }

  /** The statistics reply from the two counts and the aggregated buckets. */
  method GetStats(total: nat, highHazard: nat, window: seq<WindowDay>, activity: seq<Bucket>) returns (s: Stats)
    requires |window| == 7 && DistinctKeys(window)
    ensures s.totalDevices == total && s.highHazardDevices == highHazard
    ensures s.impactScore == 50 * total + 100 * highHazard
    ensures s.dailyActivity == ActivitySeries(window, activity)
    ensures |s.dailyActivity| == 7
  {
    var days := DailyActivity(window, activity);
    s := Stats(total, highHazard, ImpactScore(total, highHazard), days);
  }
}
