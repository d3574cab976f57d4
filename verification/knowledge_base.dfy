/**
 * The static e-waste knowledge base of the device controller: five keyword
 * entries in declaration order and the generic profile used when none matches.
 */
module KnowledgeBase {
  import opened Hazard

  /** One keyword of the table together with its profile. */
  datatype Entry = Entry(key: string, profile: Profile)

  const Smartphone: Profile := Profile(
    High,
    [ Material("Lithium", "Highly reactive, fire risk if punctured, environmental toxicity."),
      Material("Cobalt", "Mining ethics and high toxicity in soil/water."),
      Material("Arsenic", "Found in microchips; chronic exposure is carcinogenic.") ],
    [ "Battery Extraction: Safely remove Li-ion battery for specialized processing.",
      "Manual Dismantling: Separate screen, circuit boards, and plastic casing.",
      "Material Recovery: Smelt circuit boards to recover gold, silver, and copper.",
      "Shredding: Process plastic and glass into secondary raw materials." ])

  const Laptop: Profile := Profile(
    High,
    [ Material("Mercury", "Used in LCD backlights; potent neurotoxin."),
      Material("Lead", "Found in CRT monitors and solder; causes cognitive damage."),
      Material("Brominated Flame Retardants", "PBT substances that accumulate in humans.") ],
    [ "Hazardous Removal: Extract mercury-containing backlights and CMOS batteries.",
      "Partial Shredding: Mechanical separation of ferrous and non-ferrous metals.",
      "Electromagnetic Separation: Filter out precious metal components.",
      "Polishing: Refine recovered glass for industrial reuse." ])

  const Battery: Profile := Profile(
    High,
    [ Material("Cadmium", "Extremely toxic to kidneys and bones."),
      Material("Sulfuric Acid", "Causes severe chemical burns and soil acidification.") ],
    [ "Neutralization: Stabilize acids and reactive chemicals.",
      "Hydrometallurgical Processing: Use aqueous chemistry for metal recovery.",
      "Pyrometallurgical Treatment: High-heat smelting to isolate nickel and cadmium." ])

  const Monitor: Profile := Profile(
    High,
    [ Material("Phosphor Powder", "Toxic when inhaled; used in older CRT screens."),
      Material("Barium", "Used to protect users from X-rays; toxic but stable unless crushed.") ],
    [ "Glass Separation: Separate panel glass from funnel glass (which contains lead).",
      "Phosphor Recovery: Vacuum remove phosphor coating for hazardous waste disposal.",
      "Metal Extraction: Recover steel and copper from yolk and housing." ])

  const Cable: Profile := Profile(
    Medium,
    [ Material("PVC", "Releases dioxins when burned; non-biodegradable."),
      Material("Phthalates", "Endocrine disruptors found in plastic insulation.") ],
    [ "Mechanical Stripping: Strip insulation from copper wire.",
      "Granulation: Chop cables into fine pieces for density separation.",
      "Refining: Purify copper through electrolysis." ])

  /** The keyword table, in the order its keys are declared (and therefore enumerated). */
  const WasteDatabase: seq<Entry> := [
    Entry("smartphone", Smartphone),
    Entry("laptop", Laptop),
    Entry("battery", Battery),
    Entry("monitor", Monitor),
    Entry("cable", Cable)
  ]

  /** The profile for devices that match no keyword. */
  const GenericFallback: Profile := Profile(
    Medium,
    [ Material("Complex Polymers", "Hard-to-recycle plastics that may contain stabilizers."),
      Material("Heavy Metals", "Potential trace amounts of lead or cadmium in solder."),
      Material("Residual Charge", "Risk of electric shock or short circuit if disassembled roughly.") ],
    [ "Safe Storage: Keep in a dry place to prevent leaching of chemicals.",
      "Collection: Deliver to a certified e-waste aggregator.",
      "Sorting: Professionals will categorize the device for component recovery.",
      "Downcycling: Materials that cannot be recovered will be safely downcycled." ])

  /**
   * The table's keys in declaration order, the first four rated High and the
   * last Medium, each with a three- or four-step process and two or three materials; the generic profile
   * is Medium with four steps and three materials.
   */
  lemma TableShape()
    ensures |WasteDatabase| == 5
    ensures WasteDatabase[0].key == "smartphone" && WasteDatabase[1].key == "laptop"
    ensures WasteDatabase[2].key == "battery" && WasteDatabase[3].key == "monitor"
    ensures WasteDatabase[4].key == "cable"
    ensures forall i :: 0 <= i < 4 ==> WasteDatabase[i].profile.hazardLevel == High
    ensures WasteDatabase[4].profile.hazardLevel == Medium
    ensures forall i :: 0 <= i < 5 ==> 3 <= |WasteDatabase[i].profile.process| <= 4
    ensures forall i :: 0 <= i < 5 ==> 2 <= |WasteDatabase[i].profile.hazards| <= 3
    ensures GenericFallback.hazardLevel == Medium
    ensures |GenericFallback.process| == 4 && |GenericFallback.hazards| == 3
  {
  }

  /** A profile the classifier can emit: a table entry's or the generic one. */
  predicate IsKnownProfile(p: Profile)
  {
    p == GenericFallback || exists i :: 0 <= i < |WasteDatabase| && WasteDatabase[i].profile == p
  }
}
