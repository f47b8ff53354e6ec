/** The settings screen: the choices its radio groups, switch and slider make,
    and how its listeners write them into the settings. Button identifiers and
    font-style resources are integers the build assigns; they are parameters
    here. */
module SettingsFragments {
  import opened JavaLang
  import opened AppSettings

  /** The identifiers of the three font-size radio buttons. */
  datatype FontButtons = FontButtons(small: int, medium: int, large: int)

  /** The three font-style resources. */
  datatype FontStyles = FontStyles(small: int, medium: int, large: int)

  /** The identifiers of the two distance-unit radio buttons. */
  datatype UnitButtons = UnitButtons(kilometers: int, miles: int)

  predicate DistinctButtons(b: FontButtons) {
    b.small != b.medium && b.small != b.large && b.medium != b.large
  }

  predicate DistinctStyles(s: FontStyles) {
    s.small != s.medium && s.small != s.large && s.medium != s.large
  }

  // ---------------------------------------------------------------------------
  // The choice rules

  /** The font style selected by checking button `checkedId`. */
  function FontSizeFor(checkedId: int, buttons: FontButtons, styles: FontStyles): (r: int)
    ensures r == styles.small || r == styles.medium || r == styles.large
  {
    if checkedId == buttons.small then styles.small
    else if checkedId == buttons.large then styles.large
    else styles.medium
  }

  /** The button toggled on when the screen is built, for the stored font size;
      an unknown size shows as medium. */
  function FontButtonFor(fontSize: int, buttons: FontButtons, styles: FontStyles): (r: int)
    ensures r == buttons.small || r == buttons.medium || r == buttons.large
  {
    if fontSize == styles.small then buttons.small
    else if fontSize == styles.large then buttons.large
    else buttons.medium
  }

  /** The small button selects the small style, the large button the large
      style, and every other identifier the medium style. */
  lemma FontChoice(checkedId: int, buttons: FontButtons, styles: FontStyles)
    requires DistinctButtons(buttons) && DistinctStyles(styles)
    ensures FontSizeFor(checkedId, buttons, styles) == styles.small <==> checkedId == buttons.small
    ensures FontSizeFor(checkedId, buttons, styles) == styles.large <==> checkedId == buttons.large
    ensures FontSizeFor(checkedId, buttons, styles) == styles.medium
            <==> checkedId != buttons.small && checkedId != buttons.large
  {
  }

  /** Checking a font button and rebuilding the screen shows the same button
      checked; a stored style that is not one of the three shows as medium. */
  lemma FontChoiceRoundTrip(checkedId: int, fontSize: int, buttons: FontButtons, styles: FontStyles)
    requires DistinctButtons(buttons) && DistinctStyles(styles)
    ensures checkedId in {buttons.small, buttons.medium, buttons.large}
            ==> FontButtonFor(FontSizeFor(checkedId, buttons, styles), buttons, styles) == checkedId
    ensures FontSizeFor(FontButtonFor(fontSize, buttons, styles), buttons, styles)
            == (if fontSize in {styles.small, styles.large} then fontSize else styles.medium)
  {
  }

  /** The distance unit after button `checkedId` is checked. */
  function UnitFor(checkedId: int, buttons: UnitButtons, current: DistanceUnit): (r: DistanceUnit)
    ensures r != current ==> checkedId == buttons.kilometers || checkedId == buttons.miles
  {
    if checkedId == buttons.kilometers then Kilometer
    else if checkedId == buttons.miles then Mile
    else current
  }

  /** The kilometres button selects kilometres, the miles button miles, and any
      other identifier keeps the current unit. */
  lemma UnitChoice(checkedId: int, buttons: UnitButtons, current: DistanceUnit)
    requires buttons.kilometers != buttons.miles
    ensures checkedId == buttons.kilometers ==> UnitFor(checkedId, buttons, current) == Kilometer
    ensures checkedId == buttons.miles ==> UnitFor(checkedId, buttons, current) == Mile
    ensures checkedId != buttons.kilometers && checkedId != buttons.miles
            ==> UnitFor(checkedId, buttons, current) == current
  {
  }

  /** The maximum distance `handleSliderValue` stores: no limit for slider 0 or
      without location permission, else the slider times the unit's rate in
      `int` arithmetic. */
  function MaxDistanceFor(distanceSelected: int, permissionsGranted: bool, unit: DistanceUnit): (d: MaxDistance)
    ensures d.Unbounded? <==> distanceSelected == 0 || !permissionsGranted
    ensures d.Meters? ==> IsInt(d.meters)
  {
    if distanceSelected == 0 || !permissionsGranted then Unbounded
    else Meters(Mul(distanceSelected, unit.ConversionRate()))
  }

  /** Slider positions 1..10 give exactly that many units in meters. */
  lemma MaxDistanceInUnits(s: int, unit: DistanceUnit)
    requires 1 <= s <= 10
    ensures MaxDistanceFor(s, true, unit) == Meters(s * unit.ConversionRate())
  {
    assert 0 <= s * unit.ConversionRate() <= 10 * 1609;
  }

  /** Round trip: with permission granted, a slider position 0..10 turned into
      a distance and back gives the same position. */
  lemma SliderRoundTrip(s: int, unit: DistanceUnit)
    requires 0 <= s <= 10
    ensures SliderPosition(MaxDistanceFor(s, true, unit), unit) == s
  {
    if s == 0 {
      SliderPositionOfUnbounded(unit);
    } else {
      MaxDistanceInUnits(s, unit);
      SliderPositionOfWholeUnits(s, unit);
    }
  }

  /** Without permission the distance is unlimited and the slider falls to 0,
      whatever position was chosen. */
  lemma SliderIgnoredWithoutPermission(s: int, unit: DistanceUnit)
    ensures MaxDistanceFor(s, false, unit) == Unbounded
    ensures SliderPosition(MaxDistanceFor(s, false, unit), unit) == 0
  {
    SliderPositionOfUnbounded(unit);
  }

  /** The permission flag the location switch records. */
  function PermissionFor(isChecked: bool, servicesEnabled: bool): (granted: bool)
    ensures granted ==> isChecked
    ensures !servicesEnabled ==> !granted
    ensures isChecked && servicesEnabled ==> granted
  {
    isChecked && servicesEnabled
  }

  // ---------------------------------------------------------------------------
  // The screen and its listeners

  class SettingsFragment {
    const settings: Settings
    const fontButtons: FontButtons
    const fontStyles: FontStyles
    const unitButtons: UnitButtons
    /** Whether the distance slider takes input. */
    var sliderEnabled: bool
    /** The font button toggled on when the screen was built. */
    var checkedFontButton: int

    /** Builds the screen: toggles the button of the stored font size and
        enables the slider only when location permission is recorded. */
    constructor (settings: Settings, fontButtons: FontButtons, fontStyles: FontStyles, unitButtons: UnitButtons)
      ensures this.settings == settings && this.fontButtons == fontButtons
      ensures this.fontStyles == fontStyles && this.unitButtons == unitButtons
      ensures checkedFontButton == FontButtonFor(settings.fontSize, fontButtons, fontStyles)
      ensures sliderEnabled == settings.locationPermissionsGranted
    {
      this.settings := settings;
      this.fontButtons, this.fontStyles, this.unitButtons := fontButtons, fontStyles, unitButtons;
      var fontSize := settings.fontSize;
      if fontSize == fontStyles.small {
        checkedFontButton := fontButtons.small;
      } else if fontSize == fontStyles.large {
        checkedFontButton := fontButtons.large;
      } else {
        checkedFontButton := fontButtons.medium;
      }
      sliderEnabled := settings.locationPermissionsGranted;
    }

    /** `handleSliderValue`: stores the distance the slider position selects,
        under the permission and unit recorded now. */
    method HandleSliderValue(distanceSelected: int)
      modifies settings
      ensures settings.Valid()
      ensures settings.maxDistance
              == MaxDistanceFor(distanceSelected, old(settings.locationPermissionsGranted), old(settings.distanceUnit))
      ensures settings.maxDistanceSliderVal == SliderPosition(settings.maxDistance, settings.distanceUnit)
      ensures settings.locationPermissionsGranted && 0 <= distanceSelected <= 10
              ==> settings.maxDistanceSliderVal == distanceSelected
      ensures !settings.locationPermissionsGranted ==> settings.maxDistanceSliderVal == 0
      ensures settings.fontSize == old(settings.fontSize) && settings.distanceUnit == old(settings.distanceUnit)
      ensures settings.locationPermissionsGranted == old(settings.locationPermissionsGranted)
      ensures settings.likedLocations == old(settings.likedLocations)
    {
      if distanceSelected == 0 || !settings.locationPermissionsGranted {
        settings.SetMaxDistance(Unbounded);
      } else {
        settings.SetMaxDistance(Meters(Mul(distanceSelected, settings.distanceUnit.ConversionRate())));
      }
      if settings.locationPermissionsGranted && 0 <= distanceSelected <= 10 {
        SliderRoundTrip(distanceSelected, settings.distanceUnit);
      }
      if !settings.locationPermissionsGranted {
        SliderIgnoredWithoutPermission(distanceSelected, settings.distanceUnit);
      }
    }

    /** The slider listener: the slider's `float` value, truncated to `int`. */
    method OnSliderValueChanged(value: real)
      modifies settings
      ensures settings.Valid()
      ensures settings.maxDistance
              == MaxDistanceFor(RealToInt(value), old(settings.locationPermissionsGranted), old(settings.distanceUnit))
      ensures settings.maxDistanceSliderVal == SliderPosition(settings.maxDistance, settings.distanceUnit)
      ensures settings.locationPermissionsGranted && 0 <= RealToInt(value) <= 10
              ==> settings.maxDistanceSliderVal == RealToInt(value)
      ensures settings.fontSize == old(settings.fontSize) && settings.distanceUnit == old(settings.distanceUnit)
      ensures settings.locationPermissionsGranted == old(settings.locationPermissionsGranted)
      ensures settings.likedLocations == old(settings.likedLocations)
    {
      HandleSliderValue(RealToInt(value));
    }

    /** The font-size listener. */
    method OnFontSizeChanged(checkedId: int)
      modifies settings
      ensures settings.fontSize == FontSizeFor(checkedId, fontButtons, fontStyles)
      ensures settings.distanceUnit == old(settings.distanceUnit)
      ensures settings.locationPermissionsGranted == old(settings.locationPermissionsGranted)
      ensures settings.maxDistance == old(settings.maxDistance)
      ensures settings.maxDistanceSliderVal == old(settings.maxDistanceSliderVal)
      ensures settings.likedLocations == old(settings.likedLocations)
    {
      if checkedId == fontButtons.small {
        settings.SetFontSize(fontStyles.small);
      } else if checkedId == fontButtons.large {
        settings.SetFontSize(fontStyles.large);
      } else {
        settings.SetFontSize(fontStyles.medium);
      }
    }

    /** The distance-unit listener. */
    method OnDistanceUnitChanged(checkedId: int)
      modifies settings
      ensures settings.distanceUnit == UnitFor(checkedId, unitButtons, old(settings.distanceUnit))
      ensures settings.fontSize == old(settings.fontSize)
      ensures settings.locationPermissionsGranted == old(settings.locationPermissionsGranted)
      ensures settings.maxDistance == old(settings.maxDistance)
      ensures settings.maxDistanceSliderVal == old(settings.maxDistanceSliderVal)
      ensures settings.likedLocations == old(settings.likedLocations)
    {
      if checkedId == unitButtons.kilometers {
        settings.SetDistanceUnit(Kilometer);
      } else if checkedId == unitButtons.miles {
        settings.SetDistanceUnit(Mile);
      }
    }

    /** The location-switch listener. Switching on first re-applies the stored
        slider position under the permission recorded so far, then records
        permission only if location services are on; switching off records
        no permission and leaves the distance alone. */
    method OnLocationSwitchChanged(isChecked: bool, servicesEnabled: bool)
      requires settings.Valid()
      modifies this, settings
      ensures settings.Valid()
      ensures settings.locationPermissionsGranted == PermissionFor(isChecked, servicesEnabled)
      ensures sliderEnabled == settings.locationPermissionsGranted
      ensures !isChecked ==> settings.maxDistance == old(settings.maxDistance)
                             && settings.maxDistanceSliderVal == old(settings.maxDistanceSliderVal)
      ensures isChecked ==> settings.maxDistance
                            == MaxDistanceFor(old(settings.maxDistanceSliderVal),
                                              old(settings.locationPermissionsGranted), old(settings.distanceUnit))
      ensures isChecked && old(settings.locationPermissionsGranted)
              ==> settings.maxDistanceSliderVal == old(settings.maxDistanceSliderVal)
      ensures isChecked && !old(settings.locationPermissionsGranted)
              ==> settings.maxDistance == Unbounded && settings.maxDistanceSliderVal == 0
      ensures settings.fontSize == old(settings.fontSize) && settings.distanceUnit == old(settings.distanceUnit)
      ensures settings.likedLocations == old(settings.likedLocations)
      ensures checkedFontButton == old(checkedFontButton)
    {
      var checked := isChecked;
      if checked {
        HandleSliderValue(settings.maxDistanceSliderVal);
        if !servicesEnabled {
          checked := false;
        }
      }
      sliderEnabled := checked;
      settings.SetLocationPermissionsGranted(checked);
    }
  }
}
