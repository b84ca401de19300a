/**
 * The alert subscription page: the preferences it keeps, the checkbox list
 * of hazard types, and the configuration record assembled on save.
 */
module Alerts {
  import opened Common
  import opened IdList

  /** The type ids of the hazard checkboxes, in grid order. */
  const AlertTypeIds: seq<string> := ["oil", "debris", "storm", "animal", "water", "other"]

  /** The radius control's declared range and the starting radius, in miles. */
  const MinRadius := 5
  const MaxRadius := 50
  const DefaultRadius := 10

  datatype Notifications = Notifications(email: Option<string>, sms: Option<string>)

  /** The saved configuration; a switched-off channel is `None` (`null`). */
  datatype AlertConfig = AlertConfig(
    enabled: bool,
    hazardTypes: seq<string>,
    location: string,
    radius: int,
    notifications: Notifications)

  /** `on ? address : null`: the address of a channel that is switched on. */
  function Channel(on: bool, address: string): (target: Option<string>)
    ensures target.Some? <==> on
    ensures target.Some? ==> target.value == address
  {
    if on then Some(address) else None
  }

  /**
   * The configuration record: `enabled`, the selected ids, the location and
   * the radius copied unchanged; each channel's address only when that
   * channel is switched on.
   */
  function AssembleConfig(
    enabled: bool, hazards: seq<string>, location: string, radius: int,
    emailOn: bool, email: string, smsOn: bool, phone: string): (config: AlertConfig)
    ensures config.enabled == enabled && config.hazardTypes == hazards
    ensures config.location == location && config.radius == radius
    ensures config.notifications.email.Some? <==> emailOn
    ensures config.notifications.sms.Some? <==> smsOn
    ensures emailOn ==> config.notifications.email.value == email
    ensures smsOn ==> config.notifications.sms.value == phone
  {
    AlertConfig(enabled, hazards, location, radius, Notifications(Channel(emailOn, email), Channel(smsOn, phone)))
  }

  /** The page's preferences. */
  class AlertSettings {
    var alertsEnabled: bool
    var selectedHazards: seq<string>
    var emailNotifications: bool
    var smsNotifications: bool
    var email: string
    var phone: string
    var radius: int
    var location: string

    /** The radius stays in the range its control allows; only checkbox ids are selected. */
    ghost predicate Valid()
      reads this
    {
      MinRadius <= radius <= MaxRadius &&
      forall id :: id in selectedHazards ==> id in AlertTypeIds
    }

    /** Alerts off, no type selected, email on, SMS off, radius 10, empty inputs. */
    constructor ()
      ensures Valid()
      ensures !alertsEnabled && selectedHazards == [] && emailNotifications && !smsNotifications
      ensures email == "" && phone == "" && radius == DefaultRadius && location == ""
    {
      alertsEnabled := false;
      selectedHazards := [];
      emailNotifications := true;
      smsNotifications := false;
      email, phone := "", "";
      radius := DefaultRadius;
      location := "";
    }

    /** A hazard checkbox: checking appends the id, unchecking removes every occurrence. */
    method ToggleHazard(id: string, checked: bool)
      requires Valid() && id in AlertTypeIds
      modifies this
      ensures Valid()
      ensures selectedHazards == Toggle(old(selectedHazards), id, checked)
      ensures alertsEnabled == old(alertsEnabled) && emailNotifications == old(emailNotifications)
      ensures smsNotifications == old(smsNotifications) && email == old(email) && phone == old(phone)
      ensures radius == old(radius) && location == old(location)
    {
      selectedHazards := Toggle(selectedHazards, id, checked);
    }

    /** The switches and text inputs each replace their one value. */
    method SetAlertsEnabled(on: bool)
      requires Valid()
      modifies this`alertsEnabled
      ensures Valid() && alertsEnabled == on
    {
      alertsEnabled := on;
    }

    method SetEmailNotifications(on: bool)
      requires Valid()
      modifies this`emailNotifications
      ensures Valid() && emailNotifications == on
    {
      emailNotifications := on;
    }

    method SetSmsNotifications(on: bool)
      requires Valid()
      modifies this`smsNotifications
      ensures Valid() && smsNotifications == on
    {
      smsNotifications := on;
    }

    method SetEmail(text: string)
      requires Valid()
      modifies this`email
      ensures Valid() && email == text
    {
      email := text;
    }

    method SetPhone(text: string)
      requires Valid()
      modifies this`phone
      ensures Valid() && phone == text
    {
      phone := text;
    }

    method SetLocation(text: string)
      requires Valid()
      modifies this`location
      ensures Valid() && location == text
    {
      location := text;
    }

    /** The radius slider, which only offers whole miles from 5 to 50. */
    method SetRadius(miles: int)
      requires Valid() && MinRadius <= miles <= MaxRadius
      modifies this`radius
      ensures Valid() && radius == miles
    {
      radius := miles;
    }

    /** The Save button is enabled only while alerts are on. */
    predicate CanSave()
      reads this
    {
      alertsEnabled
    }

    /** The configuration built from the current preferences. */
    function Config(): AlertConfig
      reads this
    {
      AssembleConfig(alertsEnabled, selectedHazards, location, radius,
                     emailNotifications, email, smsNotifications, phone)
    }

    /**
     * Saving: possible only while alerts are on, and only when every shown
     * required input (the address of each switched-on channel) is filled in;
     * the result is then the configuration of the current preferences.
     */
    method Save() returns (saved: Option<AlertConfig>)
      requires Valid()
      ensures saved.Some? <==>
        CanSave() && (emailNotifications ==> email != "") && (smsNotifications ==> phone != "")
      ensures saved.Some? ==> saved.value == Config()
      ensures saved.Some? ==> saved.value.enabled && MinRadius <= saved.value.radius <= MaxRadius
      ensures saved.Some? ==> forall id :: id in saved.value.hazardTypes ==> id in AlertTypeIds
    {
      if alertsEnabled && (!emailNotifications || email != "") && (!smsNotifications || phone != "") {
        saved := Some(Config());
      } else {
        saved := None;
      }
    }
  }
}
