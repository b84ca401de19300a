/**
 * The details page's pure logic: the page guard, the field map and what each
 * control shows and stores, and the report handed to the review page.
 */
module ReportForm {
  import opened Common
  import opened Catalog
  import opened Location

  /** A stored field value: a slider's position or a button's label. */
  datatype FieldValue = Num(n: int) | Text(s: string)

  /** The page's `formData`: field name to value, only for fields touched. */
  type FormData = map<string, FieldValue>

  /** The report the details page hands to the review page. */
  datatype ReportData = ReportData(
    hazardType: string,
    location: Option<Coord>,
    locationName: string,
    photo: Option<string>,
    formData: FormData,
    description: string,
    timestamp: int)

  /**
   * The page guard: the catalog entry to render, or nothing when the hazard
   * type is unknown or no location state was carried, in which case the page
   * renders nothing and sends the user back to "/report".
   */
  function FormGuard(hazardType: string, carried: Option<CarriedLocation>): (cfg: Option<HazardConfig>)
    ensures cfg.Some? <==> hazardType in SelectableIds && carried.Some?
    ensures cfg.Some? ==> WellFormed(cfg.value) && cfg == ConfigFor(hazardType)
  {
    SelectableIdsAreCatalogKeys(hazardType);
    if carried.None? || ConfigFor(hazardType).None? then None
    else
      CatalogWellFormed(hazardType);
      ConfigFor(hazardType)
  }

  /** What a control of `field` can pass to the change handler. */
  predicate Accepts(field: Field, v: FieldValue)
  {
    match field.kind
    case Slider(lo, hi) => v.Num? && lo <= v.n <= hi
    case Buttons => v.Text? && v.s in field.options
  }

  /** Every stored value belongs to a field of `cfg` and is one its control can produce. */
  predicate Fits(cfg: HazardConfig, data: FormData)
  {
    forall k :: k in data ==> FieldNamed(cfg.fields, k).Some? && Accepts(FieldNamed(cfg.fields, k).value, data[k])
  }

  /** The field-change handler: store `v` under `name`, keep every other entry. */
  function WithField(data: FormData, name: string, v: FieldValue): (r: FormData)
    ensures name in r && r[name] == v
    ensures r.Keys == data.Keys + {name}
    ensures forall k :: k in data && k != name ==> r[k] == data[k]
  {
    data[name := v]
  }

  /** Storing a value a control of the page produced keeps the field map fitting the page. */
  lemma WithFieldFits(cfg: HazardConfig, data: FormData, name: string, v: FieldValue)
    requires Fits(cfg, data)
    requires FieldNamed(cfg.fields, name).Some? && Accepts(FieldNamed(cfg.fields, name).value, v)
    ensures Fits(cfg, WithField(data, name, v))
  {
  }

  /** The empty map the page starts from fits every entry. */
  lemma EmptyFits(cfg: HazardConfig)
    ensures Fits(cfg, map[])
  {
  }

  /** The position a slider shows (`formData[name] || 0`): 0 until the slider is moved. */
  function SliderPosition(data: FormData, name: string): (p: int)
    ensures name !in data ==> p == 0
    ensures name in data && data[name].Num? ==> p == data[name].n
  {
    if name in data && data[name].Num? then data[name].n else 0
  }

  /** Whether the `index`-th label under a slider is drawn highlighted. */
  predicate SliderHighlighted(data: FormData, name: string, index: nat)
  {
    SliderPosition(data, name) == index
  }

  /**
   * The label drawn highlighted under a slider: exactly one of its labels,
   * the one at the shown position, which is the first label until the
   * slider is moved.
   */
  function HighlightedIndex(field: Field, data: FormData): (i: nat)
    requires field.kind.Slider? && FieldWellFormed(field)
    requires field.name in data ==> Accepts(field, data[field.name])
    ensures i < |field.options|
    ensures forall k :: 0 <= k < |field.options| ==> (SliderHighlighted(data, field.name, k) <==> k == i)
    ensures field.name !in data ==> i == 0
    ensures field.name in data ==> Num(i) == data[field.name]
  {
    SliderPosition(data, field.name)
  }

  /**
   * The "Selected" badge under a slider: absent until a value is stored, then
   * the label of the stored position. An untouched slider shows position 0
   * and has no badge.
   */
  function SliderBadge(field: Field, data: FormData): (badge: Option<string>)
    requires field.kind.Slider? && FieldWellFormed(field)
    requires field.name in data ==> Accepts(field, data[field.name])
    ensures badge.Some? <==> field.name in data
    ensures badge.Some? ==> var v := data[field.name];
      v.Num? && 0 <= v.n < |field.options| && badge.value == "Selected: " + field.options[v.n]
  {
    if field.name in data then
      Some("Selected: " + field.options[data[field.name].n])
    else None
  }

  /** Whether a choice button is drawn selected: its label is the stored value. */
  predicate ButtonSelected(data: FormData, name: string, option: string)
  {
    name in data && data[name] == Text(option)
  }

  /**
   * Clicking a choice button replaces the stored value: afterwards exactly
   * that button is selected, the map gains at most this one key, and no other
   * field changes.
   */
  lemma {:induction false} ClickReplaces(field: Field, data: FormData, option: string)
    requires field.kind.Buttons? && option in field.options
    ensures var r := WithField(data, field.name, Text(option));
      (forall o :: ButtonSelected(r, field.name, o) <==> o == option) &&
      |r.Keys| <= |data.Keys| + 1 &&
      (forall k :: k in data && k != field.name ==> r[k] == data[k])
  {
    var r := WithField(data, field.name, Text(option));
    assert r.Keys == data.Keys + {field.name};
    if field.name in data {
      assert r.Keys == data.Keys;
    } else {
      assert |data.Keys + {field.name}| == |data.Keys| + 1;
    }
  }

  /** The "Review Report" button is enabled only once there is a photo. */
  predicate CanReview(photo: Option<string>)
  {
    Truthy(photo)
  }

  /** The report built when leaving the page at time `now`. */
  function BuildReport(
    hazardType: string, carried: CarriedLocation, photo: Option<string>,
    data: FormData, description: string, now: int): ReportData
  {
    ReportData(hazardType, carried.location, carried.locationName, photo, data, description, now)
  }
}
