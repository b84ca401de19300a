/**
 * The hazard-report wizard: the type-selection page, the details page and
 * the review page, with the page state each of them keeps and the router
 * state carried from one to the next. One object holds the state of the
 * page on screen; entering a page starts that page's state afresh.
 */
module Wizard {
  import opened Common
  import opened Catalog
  import opened Location
  import opened ReportForm
  import opened ReportReview

  /** The page on screen. */
  datatype Route = SelectType | Details(hazardType: string) | Review | ThankYou

  function Path(r: Route): (path: string)
    ensures |path| >= 7 && path[..7] == "/report"
  {
    match r
    case SelectType => "/report"
    case Details(t) => "/report/" + t
    case Review => "/report/review"
    case ThankYou => ThankYouPath
  }

  class ReportWizard {
    var route: Route

    // The type-selection page.
    var status: LocationStatus
    var location: Option<Coord>
    var locationName: string

    // The details page: the router state it was given and its own state.
    var carried: Option<CarriedLocation>
    var photo: Option<string>
    var fileChosen: bool
    var formData: FormData
    var description: string

    // The review page: the report it was given.
    var draft: Option<ReportData>

    /**
     * An acquired location has a position; the details page is only on
     * screen for a catalog type with carried location state, and its field
     * map holds only values its controls produce; the review page is only on
     * screen with a report.
     */
    ghost predicate Valid()
      reads this
    {
      (status == Success ==> location.Some?) &&
      (route.Details? ==>
        ConfigFor(route.hazardType).Some? && carried.Some? &&
        Fits(ConfigFor(route.hazardType).value, formData)) &&
      (route.Review? ==> draft.Some?)
    }

    /** The wizard opens on the type-selection page, acquiring the location. */
    constructor ()
      ensures Valid()
      ensures route == SelectType && status == Loading && location == None && locationName == ""
      ensures carried == None && photo == None && !fileChosen && formData == map[] && description == ""
      ensures draft == None
    {
      route := SelectType;
      status, location, locationName := Loading, None, "";
      carried, photo, fileChosen, formData, description := None, None, false, map[], "";
      draft := None;
    }

    /** Navigating to "/report": the type-selection page starts again, acquiring the location. */
    method OpenSelect()
      requires Valid()
      modifies this
      ensures Valid()
      ensures route == SelectType && status == Loading && location == None && locationName == ""
      ensures carried == old(carried) && photo == old(photo) && fileChosen == old(fileChosen)
      ensures formData == old(formData) && description == old(description) && draft == old(draft)
    {
      route := SelectType;
      status, location, locationName := Loading, None, "";
    }

    /**
     * One run of the location query. `capability` says whether the browser
     * offers geolocation at all, `fix` is the position query's outcome and
     * `lookup` the reverse lookup's. The run ends in exactly one of
     * `Success` and `Error`; without the capability no position query is
     * issued; a failed lookup still ends in `Success`, with a generic name.
     */
    method GetLocation(capability: bool, fix: Option<Coord>, lookup: Option<Address>) returns (queried: bool)
      requires Valid() && route == SelectType
      modifies this
      ensures Valid()
      ensures queried == capability
      ensures status == (if capability && fix.Some? then Success else Error)
      ensures status == Success ==> location == fix && locationName == NameAfterLookup(lookup)
      ensures status == Success && lookup.None? ==> locationName == LookupFailedName
      ensures status == Error ==> location == old(location) && locationName == old(locationName)
      ensures route == old(route) && carried == old(carried) && photo == old(photo)
      ensures fileChosen == old(fileChosen) && formData == old(formData)
      ensures description == old(description) && draft == old(draft)
    {
      status := Loading;
      if !capability {
        status := Error;
        return false;
      }
      queried := true;
      match fix {
        case None =>
          status := Error;
        case Some(position) =>
          location := Some(position);
          match lookup {
            case None =>
              locationName := LookupFailedName;
              status := Success;
            case Some(addr) =>
              locationName := PlaceName(addr);
              status := Success;
          }
      }
    }

    /**
     * Arriving at "/report/<hazardType>" with the router state `state`. An
     * unknown type or missing state sends the user back to "/report";
     * otherwise the details page starts with no photo, no field values and
     * an empty description.
     */
    method OpenForm(hazardType: string, state: Option<CarriedLocation>)
      requires Valid()
      modifies this
      ensures Valid()
      ensures FormGuard(hazardType, state).None? ==>
        Path(route) == "/report" && route == SelectType && status == Loading && location == None && locationName == "" &&
        carried == old(carried) && photo == old(photo) && fileChosen == old(fileChosen) &&
        formData == old(formData) && description == old(description) && draft == old(draft)
      ensures FormGuard(hazardType, state).Some? ==>
        route == Details(hazardType) && carried == state &&
        photo == None && !fileChosen && formData == map[] && description == "" &&
        status == old(status) && location == old(location) && locationName == old(locationName) &&
        draft == old(draft)
    {
      if FormGuard(hazardType, state).None? {
        OpenSelect();
      } else {
        route := Details(hazardType);
        carried := state;
        photo, fileChosen, formData, description := None, false, map[], "";
        EmptyFits(ConfigFor(hazardType).value);
      }
    }

    /**
     * Choosing a hazard card. Only once the location is acquired does it
     * open the details page with the position and its name; before that, or
     * after a failure, nothing happens.
     */
    method SelectHazard(hazardId: string)
      requires Valid() && route == SelectType && hazardId in SelectableIds
      modifies this
      ensures Valid()
      ensures old(status) != Success ==>
        route == old(route) && status == old(status) && location == old(location) &&
        locationName == old(locationName) && carried == old(carried) && photo == old(photo) &&
        fileChosen == old(fileChosen) && formData == old(formData) &&
        description == old(description) && draft == old(draft)
      ensures old(status) == Success ==>
        route == Details(hazardId) && Path(route) == "/report/" + hazardId &&
        carried == Some(CarriedLocation(old(location), old(locationName))) &&
        carried.value.location.Some? &&
        photo == None && !fileChosen && formData == map[] && description == "" &&
        status == old(status) && location == old(location) && locationName == old(locationName) &&
        draft == old(draft)
    {
      var nav := HazardSelect(status, location, locationName, hazardId);
      if nav.Some? {
        OpenForm(hazardId, Some(nav.value.1));
      }
    }

    /**
     * The file input's change event. `file` is the chosen picture, already
     * read as a data URL, or `None` when no file came with the event, which
     * leaves everything as it was.
     */
    method CapturePhoto(file: Option<string>)
      requires Valid() && route.Details?
      modifies this
      ensures Valid()
      ensures file.None? ==> photo == old(photo) && fileChosen == old(fileChosen)
      ensures file.Some? ==> photo == file && fileChosen
      ensures route == old(route) && status == old(status) && location == old(location)
      ensures locationName == old(locationName) && carried == old(carried)
      ensures formData == old(formData) && description == old(description) && draft == old(draft)
    {
      if file.Some? {
        photo := file;
        fileChosen := true;
      }
    }

    /** Retake: no photo, and the file input is cleared so the same file can be chosen again. */
    method Retake()
      requires Valid() && route.Details?
      modifies this
      ensures Valid()
      ensures photo == None && !fileChosen && !CanReview(photo)
      ensures route == old(route) && status == old(status) && location == old(location)
      ensures locationName == old(locationName) && carried == old(carried)
      ensures formData == old(formData) && description == old(description) && draft == old(draft)
    {
      photo := None;
      fileChosen := false;
    }

    /**
     * The field-change handler, called by a slider with a position in its
     * range or by a choice button with its label. It stores that value under
     * that name and leaves every other entry as it was.
     */
    method SetField(name: string, v: FieldValue)
      requires Valid() && route.Details?
      requires FieldNamed(ConfigFor(route.hazardType).value.fields, name).Some?
      requires Accepts(FieldNamed(ConfigFor(route.hazardType).value.fields, name).value, v)
      modifies this
      ensures Valid()
      ensures formData == WithField(old(formData), name, v)
      ensures route == old(route) && status == old(status) && location == old(location)
      ensures locationName == old(locationName) && carried == old(carried) && photo == old(photo)
      ensures fileChosen == old(fileChosen) && description == old(description) && draft == old(draft)
    {
      WithFieldFits(ConfigFor(route.hazardType).value, formData, name, v);
      formData := WithField(formData, name, v);
    }

    /** Typing in the description box replaces the description. */
    method SetDescription(text: string)
      requires Valid() && route.Details?
      modifies this
      ensures Valid()
      ensures description == text
      ensures route == old(route) && status == old(status) && location == old(location)
      ensures locationName == old(locationName) && carried == old(carried) && photo == old(photo)
      ensures fileChosen == old(fileChosen) && formData == old(formData) && draft == old(draft)
    {
      description := text;
    }

    /**
     * Arriving at "/report/review" with the router state `state`: without a
     * report the user is sent back to "/report"; with one the review page
     * shows it.
     */
    method OpenReview(state: Option<ReportData>)
      requires Valid()
      modifies this
      ensures Valid()
      ensures state.None? ==>
        Path(route) == "/report" && route == SelectType && status == Loading && location == None && locationName == "" &&
        draft == old(draft)
      ensures state.Some? ==>
        route == Review && draft == state &&
        status == old(status) && location == old(location) && locationName == old(locationName)
      ensures carried == old(carried) && photo == old(photo) && fileChosen == old(fileChosen)
      ensures formData == old(formData) && description == old(description)
    {
      if state.None? {
        OpenSelect();
      } else {
        route := Review;
        draft := state;
      }
    }

    /**
     * "Review Report" at time `now`. The button is disabled while there is no
     * photo; otherwise the review page receives the report made of the
     * current values, unchanged, stamped with `now`.
     */
    method Next(now: int)
      requires Valid() && route.Details?
      modifies this
      ensures Valid()
      ensures !CanReview(old(photo)) ==>
        route == old(route) && draft == old(draft)
      ensures CanReview(old(photo)) ==>
        route == Review && draft.Some? &&
        draft.value.hazardType == old(route).hazardType &&
        draft.value.location == old(carried).value.location &&
        draft.value.locationName == old(carried).value.locationName &&
        draft.value.photo == old(photo) &&
        draft.value.formData == old(formData) &&
        draft.value.description == old(description) &&
        draft.value.timestamp == now
      ensures status == old(status) && location == old(location) && locationName == old(locationName)
      ensures carried == old(carried) && photo == old(photo) && fileChosen == old(fileChosen)
      ensures formData == old(formData) && description == old(description)
    {
      if CanReview(photo) {
        var report := BuildReport(route.hazardType, carried.value, photo, formData, description, now);
        OpenReview(Some(report));
      }
    }

    /**
     * "Submit Report": after the simulated request the user always lands on
     * the thank-you page; there is no failure outcome. `sent` is the report
     * handed over.
     */
    method Submit() returns (sent: ReportData)
      requires Valid() && route == Review
      modifies this
      ensures Valid()
      ensures sent == old(draft).value
      ensures route == ThankYou && Path(route) == ThankYouPath
      ensures status == old(status) && location == old(location) && locationName == old(locationName)
      ensures carried == old(carried) && photo == old(photo) && fileChosen == old(fileChosen)
      ensures formData == old(formData) && description == old(description) && draft == old(draft)
    {
      sent := draft.value;
      route := ThankYou;
    }
  }
}
