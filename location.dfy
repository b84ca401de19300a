/**
 * The type-selection page's location logic: the three-valued status, the
 * place name built from a reverse lookup's address, and the guard on
 * choosing a hazard card. The geolocation query and the lookup request are
 * outside the model; their outcomes arrive as values.
 */
module Location {
  import opened Common

  datatype LocationStatus = Loading | Success | Error

  datatype Coord = Coord(lat: real, lng: real)

  /** The `address` part of a reverse-lookup answer; a part it lacks is `None`. */
  datatype Address = Address(
    city: Option<string>, town: Option<string>, village: Option<string>, state: Option<string>)

  /** The router state the type-selection page hands to the details page. */
  datatype CarriedLocation = CarriedLocation(location: Option<Coord>, locationName: string)

  /** Name shown when the lookup answered without a usable city and state. */
  const GenericName := "Your Location"

  /** Name shown when the lookup request or its decoding failed. */
  const LookupFailedName := "Location Acquired"

  /** `a || b || c` over optional strings: the first truthy one, if any. */
  function FirstTruthy(a: Option<string>, b: Option<string>, c: Option<string>): (r: Option<string>)
    ensures r.Some? <==> Truthy(a) || Truthy(b) || Truthy(c)
    ensures Truthy(a) ==> r == a
    ensures !Truthy(a) && Truthy(b) ==> r == b
    ensures !Truthy(a) && !Truthy(b) && Truthy(c) ==> r == c
  {
    if Truthy(a) then a else if Truthy(b) then b else if Truthy(c) then c else None
  }

  /**
   * The place name: "<city>, <state>" where the city is the first present of
   * city, town and village, or the generic name when either part is missing.
   */
  function PlaceName(addr: Address): (name: string)
    ensures name != ""
    ensures Truthy(addr.state) && Truthy(addr.city) ==>
      name == addr.city.value + ", " + addr.state.value
    ensures Truthy(addr.state) && !Truthy(addr.city) && Truthy(addr.town) ==>
      name == addr.town.value + ", " + addr.state.value
    ensures Truthy(addr.state) && !Truthy(addr.city) && !Truthy(addr.town) && Truthy(addr.village) ==>
      name == addr.village.value + ", " + addr.state.value
    ensures !Truthy(addr.state) || !(Truthy(addr.city) || Truthy(addr.town) || Truthy(addr.village)) ==>
      name == GenericName
  {
    var city := FirstTruthy(addr.city, addr.town, addr.village);
    if city.Some? && Truthy(addr.state) then city.value + ", " + addr.state.value else GenericName
  }

  /** The name recorded after a position fix, given the lookup's outcome. */
  function NameAfterLookup(lookup: Option<Address>): (name: string)
    ensures name != ""
    ensures lookup.None? ==> name == LookupFailedName
    ensures lookup.Some? ==> name == PlaceName(lookup.value)
  {
    match lookup
    case None => LookupFailedName
    case Some(addr) => PlaceName(addr)
  }

  /**
   * The hazard-card handler: when the location has been acquired, the path of
   * the details page for `hazardId` and the state carried there; otherwise
   * nothing happens.
   */
  function HazardSelect(status: LocationStatus, location: Option<Coord>, locationName: string, hazardId: string)
    : (nav: Option<(string, CarriedLocation)>)
    ensures nav.Some? <==> status == Success
    ensures nav.Some? ==> nav.value.0 == "/report/" + hazardId
    ensures nav.Some? ==> nav.value.1.location == location && nav.value.1.locationName == locationName
  {
    if status == Success then Some(("/report/" + hazardId, CarriedLocation(location, locationName))) else None
  }
}
