/**
 * The review page: the guard on the carried report, the hazard badge, the
 * label shown for each field key, the text shown for each field value and
 * which sections appear.
 */
module ReportReview {
  import opened Common
  import opened Text
  import opened Catalog
  import opened ReportForm

  /** The badge labels of the six catalog ids. */
  const HazardTypeLabels: map<string, string> := map[
    "oil-spill" := "Oil Spill",
    "marine-debris" := "Marine Debris",
    "storm-waves" := "Storm/Waves",
    "injured-animal" := "Injured Marine Life",
    "water-quality" := "Water Quality Issue",
    "other" := "Other Hazard"]

  /** The hazard badge: the mapped label of a catalog id, the raw id for anything else. */
  function HazardLabel(hazardType: string): (badge: string)
    ensures hazardType in SelectableIds ==> badge == HazardTypeLabels[hazardType]
    ensures hazardType !in SelectableIds ==> badge == hazardType
    ensures badge == hazardType <==> hazardType !in SelectableIds
  {
    if hazardType in HazardTypeLabels && HazardTypeLabels[hazardType] != "" then HazardTypeLabels[hazardType]
    else hazardType
  }

  predicate IsUpper(c: char)
  {
    'A' <= c <= 'Z'
  }

  function ToLower(c: char): char
  {
    if IsUpper(c) then (c as int + 32) as char else c
  }

  function ToUpper(c: char): char
  {
    if 'a' <= c <= 'z' then (c as int - 32) as char else c
  }

  function CountUpper(s: string): nat
  {
    if s == [] then 0 else (if IsUpper(s[0]) then 1 else 0) + CountUpper(s[1..])
  }

  /**
   * The label of a field key: a space before every upper-case letter, then
   * everything lower-cased ("animalType" becomes "animal type").
   */
  function KeyLabel(key: string): (text: string)
    ensures |text| == |key| + CountUpper(key)
  {
    if key == [] then []
    else (if IsUpper(key[0]) then [' ', ToLower(key[0])] else [key[0]]) + KeyLabel(key[1..])
  }

  /** A key label is all lower case. */
  lemma {:induction false} KeyLabelLowerCase(key: string)
    ensures forall i :: 0 <= i < |KeyLabel(key)| ==> !IsUpper(KeyLabel(key)[i])
  {
    if key != [] {
      KeyLabelLowerCase(key[1..]);
    }
  }

  /** The inverse of `KeyLabel` on keys without spaces: drop each space, upper-case what follows. */
  function KeyFromLabel(text: string): (key: string)
    ensures |key| <= |text|
  {
    if text == [] then []
    else if text[0] == ' ' && |text| >= 2 then [ToUpper(text[1])] + KeyFromLabel(text[2..])
    else [text[0]] + KeyFromLabel(text[1..])
  }

  /** A key without spaces is recovered from its label, so distinct such keys get distinct labels. */
  lemma {:induction false} KeyLabelRoundTrip(key: string)
    requires ' ' !in key
    ensures KeyFromLabel(KeyLabel(key)) == key
  {
    if key != [] {
      var rest := KeyLabel(key[1..]);
      assert ' ' !in key[1..] by { assert forall c :: c in key[1..] ==> c in key; }
      KeyLabelRoundTrip(key[1..]);
      if IsUpper(key[0]) {
        var l := [' ', ToLower(key[0])] + rest;
        assert l[2..] == rest;
      } else {
        var l := [key[0]] + rest;
        assert l[1..] == rest;
      }
    }
  }

  /** A key with no upper-case letter is shown as it is. */
  lemma {:induction false} KeyLabelOfLowerKey(key: string)
    requires CountUpper(key) == 0
    ensures KeyLabel(key) == key
  {
    if key != [] {
      KeyLabelOfLowerKey(key[1..]);
    }
  }

  /**
   * A camel-case key with one upper-case letter gets one space before that
   * letter, lower-cased; "animalType" becomes "animal type".
   */
  lemma CamelKeyLabel(head: string, c: char, tail: string)
    requires CountUpper(head) == 0 && CountUpper(tail) == 0 && IsUpper(c)
    ensures KeyLabel(head + [c] + tail) == head + [' ', ToLower(c)] + tail
  {
    var rest := [c] + tail;
    assert rest[0] == c && rest[1..] == tail;
    calc {
      KeyLabel(head + [c] + tail);
      { assert head + [c] + tail == head + rest; }
      KeyLabel(head + rest);
      { KeyLabelConcat(head, rest); }
      KeyLabel(head) + KeyLabel(rest);
      { KeyLabelOfLowerKey(head); }
      head + KeyLabel(rest);
      head + ([' ', ToLower(c)] + KeyLabel(tail));
      { KeyLabelOfLowerKey(tail); }
      head + ([' ', ToLower(c)] + tail);
      head + [' ', ToLower(c)] + tail;
    }
  }

  /** Labels are made letter by letter, so the label of a concatenation is the concatenation of labels. */
  lemma {:induction false} KeyLabelConcat(a: string, b: string)
    ensures KeyLabel(a + b) == KeyLabel(a) + KeyLabel(b)
  {
    if a != [] {
      var ab := a + b;
      assert ab[0] == a[0] && ab[1..] == a[1..] + b;
      KeyLabelConcat(a[1..], b);
      calc {
        KeyLabel(ab);
        (if IsUpper(a[0]) then [' ', ToLower(a[0])] else [a[0]]) + KeyLabel(a[1..] + b);
        (if IsUpper(a[0]) then [' ', ToLower(a[0])] else [a[0]]) + (KeyLabel(a[1..]) + KeyLabel(b));
        KeyLabel(a) + KeyLabel(b);
      }
    } else {
      assert a + b == b;
    }
  }

  /**
   * The text shown for a field value, as the page renders it: a button's
   * label as it is, a slider's position as its decimal index.
   */
  function RawValueText(v: FieldValue): (text: string)
    ensures v.Text? ==> text == v.s
    ensures v.Num? ==> |text| >= 1 && (text[0] == '-' <==> v.n < 0)
    ensures v.Num? && v.n >= 0 ==> AllDigits(text) && ParseNat(text) == v.n
    ensures v.Num? && v.n >= 0 && text[0] == '0' ==> v.n == 0 && text == "0"
  {
    match v
    case Text(s) => s
    case Num(n) => IntToString(n)
  }

  /**
   * A slider entry on the review page never shows its option label: the
   * index's digits are never one of a catalog slider's labels.
   */
  lemma {:induction false} SliderShownAsIndex(hazardType: string, field: Field, position: nat)
    requires ConfigFor(hazardType).Some? && field in ConfigFor(hazardType).value.fields
    requires field.kind.Slider? && position < |field.options|
    ensures RawValueText(Num(position)) !in field.options
  {
    CatalogWellFormed(hazardType);
    var text := RawValueText(Num(position));
    assert |text| == 1;
  }

  /** The review page as written: for oil-spill size position 2 it shows "2", not "Large Patch". */
  lemma RawSizeExample()
    ensures RawValueText(Num(2)) == "2"
    ensures RawValueText(Num(2)) != OilSize.options[2]
  {
  }

  /**
   * The evidently intended display: a slider's position shown as the label
   * of that option, a button's label as it is.
   */
  function LabelledValueText(field: Field, v: FieldValue): (text: string)
    requires Accepts(field, v) && FieldWellFormed(field)
    ensures text in field.options
    ensures v.Num? ==> text == field.options[v.n]
    ensures v.Text? ==> text == v.s
  {
    match v
    case Num(n) => field.options[n]
    case Text(s) => s
  }

  /**
   * With the intended display, every entry of a field map built on the
   * details page is shown as one of its field's option labels, the one the
   * user picked.
   */
  lemma LabelledShowsPick(cfg: HazardConfig, data: FormData, key: string)
    requires WellFormed(cfg) && Fits(cfg, data) && key in data
    ensures var field := FieldNamed(cfg.fields, key).value;
      LabelledValueText(field, data[key]) in field.options &&
      (data[key].Num? ==> LabelledValueText(field, data[key]) == field.options[data[key].n]) &&
      (data[key].Text? ==> LabelledValueText(field, data[key]) == data[key].s)
  {
  }

  /** The intended display of oil-spill {size: 1, color: "Black"}: "Small Slick" and "Black". */
  lemma LabelledOilSpillExample()
    ensures LabelledValueText(OilSize, Num(1)) == "Small Slick"
    ensures LabelledValueText(OilColor, Text("Black")) == "Black"
  {
    CatalogWellFormed("oil-spill");
  }

  /** What the review card shows; an absent section is `None`. */
  datatype Summary = Summary(
    badge: string,
    photo: Option<string>,
    locationName: string,
    timestamp: int,
    details: Option<set<(string, string)>>,
    description: Option<string>)

  /**
   * The review card of a carried report: the photo section only with a photo,
   * the details only with at least one field entry, the description only when
   * it is not empty.
   */
  function Summarize(r: ReportData): (s: Summary)
    ensures s.badge == HazardLabel(r.hazardType)
    ensures s.photo.Some? <==> Truthy(r.photo)
    ensures s.photo.Some? ==> s.photo == r.photo
    ensures s.details.Some? <==> |r.formData| > 0
    ensures s.details.Some? ==> forall k :: k in r.formData ==>
      (KeyLabel(k), RawValueText(r.formData[k])) in s.details.value
    ensures s.details.Some? ==> forall row :: row in s.details.value ==>
      exists k :: k in r.formData && row == (KeyLabel(k), RawValueText(r.formData[k]))
    ensures s.description.Some? <==> r.description != ""
    ensures s.description.Some? ==> s.description.value == r.description
    ensures s.locationName == r.locationName && s.timestamp == r.timestamp
  {
    Summary(
      HazardLabel(r.hazardType),
      if Truthy(r.photo) then r.photo else None,
      r.locationName,
      r.timestamp,
      if |r.formData| > 0 then Some(set k | k in r.formData :: (KeyLabel(k), RawValueText(r.formData[k]))) else None,
      if r.description != "" then Some(r.description) else None)
  }

  /** The page guard: the card for a carried report, nothing (and a redirect to "/report") without one. */
  function ReviewGuard(state: Option<ReportData>): (card: Option<Summary>)
    ensures card.Some? <==> state.Some?
  {
    match state
    case None => None
    case Some(r) => Some(Summarize(r))
  }

  /** Where submitting the report leads; the simulated request has no failure outcome. */
  const ThankYouPath := "/report/thank-you"
}
