/**
 * The map page: which reports are shown under the type checkboxes and the
 * time-period radio buttons, how a report's age is printed, and the marker
 * colour of each type. The current time is a parameter.
 */
module MapPage {
  import opened Common
  import opened Text
  import opened IdList

  /** A report shown on the map; `kind` is its type id, `timestamp` in milliseconds. */
  datatype Hazard = Hazard(id: string, kind: string, title: string, timestamp: int)

  /** The time-period radio buttons: "all", "24h" and "week". */
  datatype TimeFilter = All | Last24Hours | LastWeek

  const MinuteMs := 60_000
  const HourMs := 3_600_000
  /** 24 hours. */
  const DayMs := 86_400_000
  /** 7 days. */
  const WeekMs := 604_800_000

  /** The type ids of the filter checkboxes, in panel order. */
  const MapTypeIds: seq<string> := ["oil", "debris", "storm", "animal", "water", "other"]

  /** The marker colour of the "other" type, also used for any unknown type. */
  const OtherColor := "#6b7280"

  const MarkerColors: map<string, string> := map[
    "oil" := "#ea580c",
    "debris" := "#22c55e",
    "storm" := "#3b82f6",
    "animal" := "#ec4899",
    "water" := "#06b6d4",
    "other" := OtherColor]

  /** Whether a report's age at `now` falls in the chosen time period. */
  predicate TimeMatch(h: Hazard, tf: TimeFilter, now: int)
  {
    match tf
    case All => true
    case Last24Hours => now - h.timestamp < DayMs
    case LastWeek => now - h.timestamp < WeekMs
  }

  /** Whether a report is shown: its type is checked and its age matches the period. */
  predicate Shown(h: Hazard, selected: seq<string>, tf: TimeFilter, now: int)
  {
    h.kind in selected && TimeMatch(h, tf, now)
  }

  /**
   * The reports shown on the map: those of `hazards` whose type is checked
   * and whose age matches the period, in their original order.
   */
  function FilterHazards(hazards: seq<Hazard>, selected: seq<string>, tf: TimeFilter, now: int)
    : (shown: seq<Hazard>)
    ensures IsSubsequence(shown, hazards)
    ensures forall h :: h in shown <==> h in hazards && Shown(h, selected, tf, now)
    ensures forall h :: multiset(shown)[h] == if Shown(h, selected, tf, now) then multiset(hazards)[h] else 0
  {
    if hazards == [] then []
    else
      var init := FilterHazards(hazards[..|hazards| - 1], selected, tf, now);
      var last := hazards[|hazards| - 1];
      assert hazards == hazards[..|hazards| - 1] + [last];
      if Shown(last, selected, tf, now) then init + [last] else init
  }

  /** "24h" shows exactly what "week" shows, further narrowed to the last 24 hours. */
  lemma {:induction false} DayWithinWeek(hazards: seq<Hazard>, selected: seq<string>, now: int)
    ensures FilterHazards(hazards, selected, Last24Hours, now) ==
      FilterHazards(FilterHazards(hazards, selected, LastWeek, now), selected, Last24Hours, now)
    ensures IsSubsequence(FilterHazards(hazards, selected, Last24Hours, now),
                          FilterHazards(hazards, selected, LastWeek, now))
  {
    if hazards != [] {
      var init := hazards[..|hazards| - 1];
      var last := hazards[|hazards| - 1];
      DayWithinWeek(init, selected, now);
      var week := FilterHazards(init, selected, LastWeek, now);
      if Shown(last, selected, LastWeek, now) {
        var w := week + [last];
        assert w[..|w| - 1] == week;
      }
    }
  }

  /** With every type checked and the period "all", every report is shown. */
  lemma {:induction false} AllShownInitially(hazards: seq<Hazard>, now: int)
    requires forall h :: h in hazards ==> h.kind in MapTypeIds
    ensures FilterHazards(hazards, MapTypeIds, All, now) == hazards
  {
    if hazards != [] {
      var init := hazards[..|hazards| - 1];
      assert hazards == init + [hazards[|hazards| - 1]];
      AllShownInitially(init, now);
    }
  }

  /**
   * A report's age as the popup prints it: whole hours followed by "h ago"
   * once at least an hour has passed, whole minutes followed by "m ago"
   * otherwise (a report from the future gets a negative minute count).
   */
  function FormatTimeAgo(timestamp: int, now: int): (text: string)
    ensures |text| >= 6
    ensures text[|text| - 5..] == (if now - timestamp >= HourMs then "h ago" else "m ago")
    ensures now - timestamp >= HourMs ==> var count := text[..|text| - 5];
      AllDigits(count) && ParseNat(count) * HourMs <= now - timestamp < (ParseNat(count) + 1) * HourMs
    ensures 0 <= now - timestamp < HourMs ==> var count := text[..|text| - 5];
      AllDigits(count) && ParseNat(count) * MinuteMs <= now - timestamp < (ParseNat(count) + 1) * MinuteMs
    ensures now - timestamp >= HourMs ==> text[..|text| - 5] == IntToString((now - timestamp) / HourMs)
    ensures now - timestamp < HourMs ==> text[..|text| - 5] == IntToString((now - timestamp) / MinuteMs)
    ensures now - timestamp < 0 ==> text[0] == '-'
  {
    var diff := now - timestamp;
    var hours := diff / HourMs;
    FloorBounds(diff, HourMs);
    if hours > 0 then
      var text := WithSuffix(hours, "h ago");
      assert ParseNat(text[..|text| - 5]) == hours;
      text
    else
      var minutes := diff / MinuteMs;
      FloorBounds(diff, MinuteMs);
      var text := WithSuffix(minutes, "m ago");
      assert diff >= 0 ==> ParseNat(text[..|text| - 5]) == minutes;
      text
  }

  /** `${n}` followed by a five-character unit suffix. */
  function WithSuffix(n: int, suffix: string): (text: string)
    requires |suffix| == 5
    ensures |text| >= 6 && text[..|text| - 5] == IntToString(n) && text[|text| - 5..] == suffix
  {
    var text := IntToString(n) + suffix;
    assert text[..|text| - 5] == IntToString(n);
    text
  }

  /** Division by a positive divisor rounds down, as `Math.floor(d / m)` does. */
  lemma FloorBounds(d: int, m: int)
    requires m > 0
    ensures (d / m) * m <= d < (d / m + 1) * m
  {
  }

  /** The marker colour of a type: its own colour when known, the "other" colour otherwise. */
  function MarkerColor(kind: string): (color: string)
    ensures kind in MarkerColors ==> color == MarkerColors[kind]
    ensures kind !in MarkerColors ==> color == OtherColor
    ensures color != OtherColor <==> kind in MapTypeIds && kind != "other"
  {
    if kind in MarkerColors then MarkerColors[kind] else OtherColor
  }

  /** The filter panel's state: the checked type ids and the chosen period. */
  class MapFilters {
    var selectedTypes: seq<string>
    var timeFilter: TimeFilter

    /** Every type is checked and every report is shown, whatever its age. */
    constructor ()
      ensures selectedTypes == MapTypeIds && timeFilter == All
    {
      selectedTypes := MapTypeIds;
      timeFilter := All;
    }

    /** A type checkbox: checking appends the id, unchecking removes every occurrence. */
    method SetTypeChecked(id: string, checked: bool)
      requires id in MapTypeIds
      modifies this
      ensures selectedTypes == Toggle(old(selectedTypes), id, checked)
      ensures timeFilter == old(timeFilter)
    {
      selectedTypes := Toggle(selectedTypes, id, checked);
    }

    /** A time-period radio button. */
    method SetTimeFilter(tf: TimeFilter)
      modifies this
      ensures timeFilter == tf && selectedTypes == old(selectedTypes)
    {
      timeFilter := tf;
    }

    /** The reports on the map at `now`. */
    function Visible(hazards: seq<Hazard>, now: int): seq<Hazard>
      reads this
    {
      FilterHazards(hazards, selectedTypes, timeFilter, now)
    }

    /** The "active reports" count: the number of reports on the map. */
    method ActiveCount(hazards: seq<Hazard>, now: int) returns (count: nat)
      ensures count == |Visible(hazards, now)|
      ensures count <= |hazards|
    {
      var shown := FilterHazards(hazards, selectedTypes, timeFilter, now);
      SubsequenceLength(shown, hazards);
      count := |shown|;
    }
  }
}
