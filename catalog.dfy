/**
 * The hazard catalog: for each hazard-type id the details page's title,
 * colour and ordered list of type-specific fields, and the ids offered on
 * the type-selection page.
 */
module Catalog {
  import opened Common

  /** A slider stores a position in `min..max`; a button row stores one of its labels. */
  datatype FieldKind = Slider(min: int, max: int) | Buttons

  datatype Field = Field(name: string, caption: string, kind: FieldKind, options: seq<string>)

  /** One catalog entry; `fields` is in declaration order, the order the page renders. */
  datatype HazardConfig = HazardConfig(title: string, color: string, fields: seq<Field>)

  // The fields of each entry, in the order the page renders them.

  const OilSize := Field("size", "Size of Oil Spill", Slider(0, 3),
    ["Sheen", "Small Slick", "Large Patch", "Major Spill"])
  const OilColor := Field("color", "Oil Color", Buttons,
    ["Rainbow", "Black", "Brown", "Silver/Gray"])
  const OilSpill := HazardConfig("Oil Spill Report", "bg-hazard-oil", [OilSize, OilColor])

  const DebrisType := Field("type", "Debris Type", Buttons,
    ["Plastic Bottles", "Fishing Gear", "Large Objects", "Debris Field"])
  const DebrisAmount := Field("amount", "Amount of Debris", Slider(0, 3),
    ["Few Items", "Multiple Items", "Large Amount", "Massive Field"])
  const MarineDebris := HazardConfig("Marine Debris Report", "bg-hazard-debris", [DebrisType, DebrisAmount])

  const WaveSeverity := Field("severity", "Wave Severity", Slider(0, 3),
    ["Moderate", "High", "Dangerous", "Extreme"])
  const WaveConditions := Field("conditions", "Conditions", Buttons,
    ["Strong Winds", "Large Swells", "Storm Surge", "Dangerous Currents"])
  const StormWaves := HazardConfig("Storm/Wave Report", "bg-hazard-storm", [WaveSeverity, WaveConditions])

  const AnimalType := Field("animalType", "Animal Type", Buttons,
    ["Seal/Sea Lion", "Whale/Dolphin", "Sea Bird", "Fish/Other"])
  const AnimalCondition := Field("condition", "Condition", Buttons,
    ["Injured", "Entangled", "Stranded", "Dead"])
  const InjuredAnimal := HazardConfig("Marine Life Report", "bg-hazard-animal", [AnimalType, AnimalCondition])

  const WaterIssue := Field("issue", "Water Quality Issue", Buttons,
    ["Discoloration", "Algae Bloom", "Foam/Scum", "Strong Odor"])
  const WaterSeverity := Field("severity", "Severity", Slider(0, 3),
    ["Mild", "Moderate", "Severe", "Extreme"])
  const WaterQuality := HazardConfig("Water Quality Report", "bg-hazard-water", [WaterIssue, WaterSeverity])

  const OtherCategory := Field("category", "General Category", Buttons,
    ["Navigation Hazard", "Pollution", "Safety Concern", "Unknown"])
  const OtherHazard := HazardConfig("Other Hazard Report", "bg-hazard-other", [OtherCategory])

  /** The ids of the six cards on the type-selection page, in grid order. */
  const SelectableIds: seq<string> :=
    ["oil-spill", "marine-debris", "storm-waves", "injured-animal", "water-quality", "other"]

  /** `hazardConfig[hazardType]`: the entry of a known id, nothing for any other string. */
  function ConfigFor(hazardType: string): Option<HazardConfig>
  {
    if hazardType == "oil-spill" then Some(OilSpill)
    else if hazardType == "marine-debris" then Some(MarineDebris)
    else if hazardType == "storm-waves" then Some(StormWaves)
    else if hazardType == "injured-animal" then Some(InjuredAnimal)
    else if hazardType == "water-quality" then Some(WaterQuality)
    else if hazardType == "other" then Some(OtherHazard)
    else None
  }

  /** The field called `name` in `fields`, if there is one. */
  function FieldNamed(fields: seq<Field>, name: string): (r: Option<Field>)
    ensures r.Some? ==> r.value in fields && r.value.name == name
    ensures r.None? ==> forall f :: f in fields ==> f.name != name
  {
    if fields == [] then None
    else if fields[0].name == name then Some(fields[0])
    else FieldNamed(fields[1..], name)
  }

  predicate Distinct(s: seq<string>)
  {
    forall i, j :: 0 <= i < j < |s| ==> s[i] != s[j]
  }

  function Names(fields: seq<Field>): (names: seq<string>)
    ensures |names| == |fields|
    ensures forall i :: 0 <= i < |fields| ==> names[i] == fields[i].name
  {
    if fields == [] then [] else [fields[0].name] + Names(fields[1..])
  }

  /**
   * A field is well formed when it has distinct option labels and, for a
   * slider, its range runs from 0 to the last option's index.
   */
  predicate FieldWellFormed(f: Field)
  {
    |f.options| >= 1 && Distinct(f.options) &&
    (f.kind.Slider? ==> f.kind.min == 0 && f.kind.max == |f.options| - 1)
  }

  /** A catalog entry has at least one field, uniquely named, each well formed. */
  predicate WellFormed(cfg: HazardConfig)
  {
    |cfg.fields| >= 1 && Distinct(Names(cfg.fields)) &&
    forall f :: f in cfg.fields ==> FieldWellFormed(f)
  }

  /**
   * What holds of every catalog field: it is well formed, it has four
   * options, each option label is longer than one character, and a slider
   * runs from 0 to 3.
   */
  predicate FourChoiceField(f: Field)
  {
    FieldWellFormed(f) && |f.options| == 4 &&
    (forall k :: 0 <= k < |f.options| ==> |f.options[k]| > 1) &&
    (f.kind.Slider? ==> f.kind == Slider(0, 3))
  }

  /** A well-formed entry whose fields are all four-choice fields. */
  predicate FourChoiceEntry(cfg: HazardConfig)
  {
    WellFormed(cfg) && forall f :: f in cfg.fields ==> FourChoiceField(f)
  }

  /**
   * Every catalog entry is well formed; every field has four options with
   * labels longer than one character, and every slider runs from 0 to 3.
   */
  lemma CatalogWellFormed(hazardType: string)
    requires ConfigFor(hazardType).Some?
    ensures FourChoiceEntry(ConfigFor(hazardType).value)
  {
    if hazardType == "oil-spill" { OilSpillEntry(); }
    else if hazardType == "marine-debris" { MarineDebrisEntry(); }
    else if hazardType == "storm-waves" { StormWavesEntry(); }
    else if hazardType == "injured-animal" { InjuredAnimalEntry(); }
    else if hazardType == "water-quality" { WaterQualityEntry(); }
    else { OtherHazardEntry(); }
  }

  // One lemma per catalog entry keeps each proof small.

  lemma OilSpillEntry()
    ensures FourChoiceEntry(OilSpill)
  {
  }

  lemma MarineDebrisEntry()
    ensures FourChoiceEntry(MarineDebris)
  {
  }

  lemma StormWavesEntry()
    ensures FourChoiceEntry(StormWaves)
  {
  }

  lemma InjuredAnimalEntry()
    ensures FourChoiceEntry(InjuredAnimal)
  {
  }

  lemma WaterQualityEntry()
    ensures FourChoiceEntry(WaterQuality)
  {
  }

  lemma OtherHazardEntry()
    ensures FourChoiceEntry(OtherHazard)
  {
  }

  /** The selectable ids are exactly the catalog's keys. */
  lemma SelectableIdsAreCatalogKeys(hazardType: string)
    ensures ConfigFor(hazardType).Some? <==> hazardType in SelectableIds
  {
  }
}
