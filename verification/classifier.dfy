/**
 * The keyword-table classifier of the device controller: the first table key,
 * in declaration order, that occurs in the lower-cased name or the lower-cased
 * category selects its entry; otherwise the generic profile applies.
 */
module Classifier {
  import opened Wrappers
  import opened Text
  import opened Hazard
  import opened KnowledgeBase

  /** `name.toLowerCase().includes(key) || category.toLowerCase().includes(key)`. */
  predicate Matches(key: string, name: string, category: string)
  {
    Contains(Lower(name), key) || Contains(Lower(category), key)
  }

  /** `Array.prototype.find` over the keys of `table` from position `from` on. */
  function FindKeyFrom(table: seq<Entry>, name: string, category: string, from: nat): (r: Option<nat>)
    requires from <= |table|
    ensures r.Some? ==> from <= r.value < |table| && Matches(table[r.value].key, name, category)
    ensures r.Some? ==> forall j :: from <= j < r.value ==> !Matches(table[j].key, name, category)
    ensures r.None? ==> forall j :: from <= j < |table| ==> !Matches(table[j].key, name, category)
    decreases |table| - from
  {
    if from == |table| then None
    else if Matches(table[from].key, name, category) then Some(from)
    else FindKeyFrom(table, name, category, from + 1)
  }

  /** The position of the first matching key of `table`, if any. */
  function FindKey(table: seq<Entry>, name: string, category: string): (r: Option<nat>)
    ensures r.Some? <==> exists i :: 0 <= i < |table| && Matches(table[i].key, name, category)
    ensures r.Some? ==> r.value < |table| && Matches(table[r.value].key, name, category)
    ensures r.Some? ==> forall j :: 0 <= j < r.value ==> !Matches(table[j].key, name, category)
  {
    FindKeyFrom(table, name, category, 0)
  }

  /** The fields the controller computes before it builds the device record. */
  datatype Classification = Classification(
    hazardLevel: Level,
    recommendations: seq<string>,
    classificationResults: string,
    detailedData: Profile)

  /** The summary text for a matched entry: its material names joined by ", ". */
  function ScientificSummary(p: Profile): string
  {
    "Scientific Analysis: This device contains critical hazards. "
      + Join(Elements(p.hazards), ", ") + " were identified."
  }

  /** The summary text when no key matches; it quotes the category as given. */
  function GeneralSummary(category: string): string
  {
    "General Analysis: This " + category
      + " requires professional handling to prevent environmental impact from plastics and trace metals."
  }

  /** No key of the table matches the device. */
  predicate NoKeyMatches(name: string, category: string)
  {
    forall i :: 0 <= i < |WasteDatabase| ==> !Matches(WasteDatabase[i].key, name, category)
  }

  /** Entry `i` is the first entry of the table whose key matches. */
  predicate FirstMatchAt(i: int, name: string, category: string)
  {
    && 0 <= i < |WasteDatabase|
    && Matches(WasteDatabase[i].key, name, category)
    && forall j :: 0 <= j < i ==> !Matches(WasteDatabase[j].key, name, category)
  }

  /**
   * The classification the controller stores. The initial values it assigns
   * ('Low', the single generic recommendation, the "Detected ..." text and the
   * empty object) are overwritten on both branches and never reach the result.
   */
  function Classify(name: string, category: string): (c: Classification)
    ensures forall i :: FirstMatchAt(i, name, category) ==>
      && c.detailedData == WasteDatabase[i].profile
      && c.classificationResults == ScientificSummary(WasteDatabase[i].profile)
    ensures NoKeyMatches(name, category) ==>
      && c.detailedData == GenericFallback
      && c.classificationResults == GeneralSummary(category)
    ensures c.hazardLevel == c.detailedData.hazardLevel
    ensures c.recommendations == c.detailedData.process
    ensures c.hazardLevel != Low
    ensures 3 <= |c.recommendations| <= 4
    ensures IsKnownProfile(c.detailedData)
  {
    match FindKey(WasteDatabase, name, category)
    case Some(i) =>
      var data := WasteDatabase[i].profile;
      Classification(data.hazardLevel, data.process, ScientificSummary(data), data)
    case None =>
      Classification(GenericFallback.hazardLevel, GenericFallback.process,
                     GeneralSummary(category), GenericFallback)
  }

  /**
   * Matching only looks at the lower-cased fields: inputs that agree after
   * lower-casing get the same level, recommendations and profile, and the same
   * text whenever some key matches (the no-match text quotes the raw category).
   */
  lemma ClassifyCaseInsensitive(name1: string, category1: string, name2: string, category2: string)
    requires Lower(name1) == Lower(name2) && Lower(category1) == Lower(category2)
    ensures Classify(name1, category1).hazardLevel == Classify(name2, category2).hazardLevel
    ensures Classify(name1, category1).recommendations == Classify(name2, category2).recommendations
    ensures Classify(name1, category1).detailedData == Classify(name2, category2).detailedData
    ensures !NoKeyMatches(name1, category1) ==>
      Classify(name1, category1).classificationResults == Classify(name2, category2).classificationResults
  {
    assert forall k :: Matches(k, name1, category1) == Matches(k, name2, category2);
    assert FindKey(WasteDatabase, name1, category1) == FindKey(WasteDatabase, name2, category2);
  }

  /** One of the first four keys matches: the device is the first of those entries to match. */
  predicate HighRiskKeyMatches(name: string, category: string)
  {
    exists j :: 0 <= j < 4 && Matches(WasteDatabase[j].key, name, category)
  }

  /** The keys rated High are exactly the first four, in declaration order. */
  lemma {:induction false} ClassifyHighIffHighKey(name: string, category: string)
    ensures Classify(name, category).hazardLevel == High <==> HighRiskKeyMatches(name, category)
  {
    var r := FindKey(WasteDatabase, name, category);
    if HighRiskKeyMatches(name, category) {
      var j :| 0 <= j < 4 && Matches(WasteDatabase[j].key, name, category);
      assert r.Some? && r.value <= j;
      assert WasteDatabase[r.value].profile.hazardLevel == High;
    } else if r.Some? {
      assert r.value == 4;
      assert WasteDatabase[4].profile.hazardLevel == Medium;
    }
  }

  /** The first four keys of the table, spelled out. */
  lemma HighRiskKeysSpelledOut(name: string, category: string)
    ensures HighRiskKeyMatches(name, category) <==>
      || Matches("smartphone", name, category)
      || Matches("laptop", name, category)
      || Matches("battery", name, category)
      || Matches("monitor", name, category)
  {
    assert WasteDatabase[0].key == "smartphone" && WasteDatabase[1].key == "laptop";
    assert WasteDatabase[2].key == "battery" && WasteDatabase[3].key == "monitor";
  }

  /** Only the cable entry and the generic profile are rated Medium; the other four keys give High. */
  lemma ClassifyMediumIff(name: string, category: string)
    ensures Classify(name, category).hazardLevel == Medium <==>
      && !Matches("smartphone", name, category)
      && !Matches("laptop", name, category)
      && !Matches("battery", name, category)
      && !Matches("monitor", name, category)
  {
    var level := Classify(name, category).hazardLevel;
    ClassifyHighIffHighKey(name, category);
    HighRiskKeysSpelledOut(name, category);
    assert level != Low;
  }

  /** The summary of a profile names every one of its materials. */
  lemma ScientificSummaryNamesMaterials(p: Profile, m: int)
    requires 0 <= m < |p.hazards|
    ensures Contains(ScientificSummary(p), p.hazards[m].element)
  {
    var joined := Join(Elements(p.hazards), ", ");
    var prefix := "Scientific Analysis: This device contains critical hazards. ";
    var text := ScientificSummary(p);
    var element := p.hazards[m].element;
    JoinContainsItem(Elements(p.hazards), ", ", m);
    ContainsIffOccurs(joined, element);
    var at :| OccursAt(joined, element, at);
    assert text == prefix + joined + " were identified.";
    assert text[|prefix| + at..|prefix| + at + |element|] == joined[at..at + |element|];
    ContainsAt(text, element, |prefix| + at);
  }

  /** On a match, the stored summary names every material of the matched entry. */
  lemma SummaryNamesMaterials(name: string, category: string, i: int, m: int)
    requires FirstMatchAt(i, name, category)
    requires 0 <= m < |WasteDatabase[i].profile.hazards|
    ensures Contains(Classify(name, category).classificationResults, WasteDatabase[i].profile.hazards[m].element)
  {
    var p := WasteDatabase[i].profile;
    assert Classify(name, category).classificationResults == ScientificSummary(p);
    ScientificSummaryNamesMaterials(p, m);
  }

  /** Any device whose name or category mentions "smartphone" is classified as a smartphone, whatever else it mentions. */
  lemma SmartphoneKeyWins(name: string, category: string)
    requires Matches("smartphone", name, category)
    ensures Classify(name, category).detailedData == Smartphone
  {
    assert WasteDatabase[0].key == "smartphone";
    assert FirstMatchAt(0, name, category);
  }

  /** Declaration order breaks ties: "smartphone battery" is classified as a smartphone, not a battery. */
  lemma SmartphoneBeatsBattery(category: string)
    ensures Matches("battery", "smartphone battery", category)
    ensures Classify("smartphone battery", category).detailedData == Smartphone
  {
    var lowered := "smartphone battery";
    LowerOfLower(lowered);
    assert OccursAt(lowered, "smartphone", 0);
    ContainsAt(lowered, "smartphone", 0);
    assert OccursAt(lowered, "battery", 11);
    ContainsAt(lowered, "battery", 11);
    SmartphoneKeyWins("smartphone battery", category);
  }

  /** A device that mentions no keyword gets the generic profile verbatim, rated Medium. */
  lemma NoMatchGivesGenericProfile(name: string, category: string)
    requires NoKeyMatches(name, category)
    ensures Classify(name, category)
      == Classification(Medium, GenericFallback.process, GeneralSummary(category), GenericFallback)
  {
  }

  /** Fields that lack a letter of every key match no key. */
  lemma NoKeyLettersNoMatch(name: string, category: string)
    requires forall c :: c in "slbmc" ==> c !in Lower(name) && c !in Lower(category)
    ensures NoKeyMatches(name, category)
  {
    var keys := ["smartphone", "laptop", "battery", "monitor", "cable"];
    assert forall i :: 0 <= i < 5 ==> WasteDatabase[i].key == keys[i];
    forall i | 0 <= i < 5
      ensures !Matches(WasteDatabase[i].key, name, category)
    {
      var c := "slbmc"[i];
      assert c == keys[i][0];
      MissingCharNotContained(Lower(name), keys[i], c);
      MissingCharNotContained(Lower(category), keys[i], c);
    }
  }

  /** "Unknown Gadget X" in category "Unknown" mentions no keyword and gets the generic profile. */
  lemma UnknownGadgetGetsGenericProfile(name: string, category: string)
    requires name == "Unknown Gadget X" && category == "Unknown"
    ensures Classify(name, category)
      == Classification(Medium, GenericFallback.process, GeneralSummary(category), GenericFallback)
  {
    assert Lower(name) == "unknown gadget x" && Lower(category) == "unknown";
    NoKeyLettersNoMatch(name, category);
    NoMatchGivesGenericProfile(name, category);
  }
}
