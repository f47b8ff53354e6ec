/** The application-wide settings: distance unit, maximum distance and the
    slider position derived from it, location-permission flag, font size and
    the set of liked locations. The source keeps them in static fields behind
    a singleton; here they are the fields of one object. */
module AppSettings {
  import opened JavaLang

  /** The distance units, each with its conversion rate from meters. */
  datatype DistanceUnit = Kilometer | Mile {
    function ConversionRate(): (r: int)
      ensures r == 1000 || r == 1609
    {
      match this
      case Kilometer => 1000
      case Mile => 1609
    }

    /** The name the settings screen shows for the unit. */
    function DisplayName(): (name: string)
      ensures name == "kilometers" || name == "miles"
    {
      match this
      case Kilometer => "kilometers"
      case Mile => "miles"
    }
  }

  /** One kilometre is 1000 meters and one mile 1609. */
  lemma ConversionRates()
    ensures Kilometer.ConversionRate() == 1000 && Mile.ConversionRate() == 1609
  {
  }

  /** The two units show distinct names, "kilometers" and "miles". */
  lemma DisplayNames()
    ensures Kilometer.DisplayName() == "kilometers" && Mile.DisplayName() == "miles"
    ensures Kilometer.DisplayName() != Mile.DisplayName()
  {
  }

  /** The maximum distance, a `double` in the source. Every value ever stored is
      either `Double.MAX_VALUE` (no limit) or an `int` number of meters. */
  datatype MaxDistance = Unbounded | Meters(meters: int)

  /** `(int) maxDistance`: the narrowing cast saturates at the ends of the
      `int` range, so `Double.MAX_VALUE` becomes `Integer.MAX_VALUE`. */
  function CastToInt(d: MaxDistance): (r: int)
    ensures IsInt(r)
    ensures d.Unbounded? ==> r == IntMax
    ensures d.Meters? && IsInt(d.meters) ==> r == d.meters
    ensures d.Meters? && d.meters > IntMax ==> r == IntMax
    ensures d.Meters? && d.meters < IntMin ==> r == IntMin
  {
    match d
    case Unbounded => DoubleMaxAsInt
    case Meters(m) => if m > IntMax then IntMax else if m < IntMin then IntMin else m
  }

  /** The slider position `setMaxDistance` derives: the truncated distance
      divided, rounding toward zero, by the unit's conversion rate, or 0 when
      that quotient is outside 0..10. */
  function SliderPosition(d: MaxDistance, unit: DistanceUnit): (r: int)
    ensures 0 <= r <= 10
  {
    var q := Div(CastToInt(d), unit.ConversionRate());
    if q < 0 || q > 10 then 0 else q
  }

  /** The slider position counts the whole units in the distance, up to 10;
      beyond 10 units, and for negative distances, it is 0. */
  lemma SliderPositionCountsUnits(d: MaxDistance, unit: DistanceUnit)
    ensures var m, rate, r := CastToInt(d), unit.ConversionRate(), SliderPosition(d, unit);
            (0 <= m < 11 * rate ==> r * rate <= m < r * rate + rate)
            && (m < 0 || m >= 11 * rate ==> r == 0)
  {
    var m, rate := CastToInt(d), unit.ConversionRate();
    var q := Div(m, rate);
    if m >= 11 * rate {
      assert q * rate > 10 * rate;
    }
    if m < 0 {
      assert q <= 0;
      if q == 0 {
        assert SliderPosition(d, unit) == 0;
      }
    }
  }

  /** The unlimited distance puts the slider at 0. */
  lemma SliderPositionOfUnbounded(unit: DistanceUnit)
    ensures SliderPosition(Unbounded, unit) == 0
  {
  }

  /** A whole number of units from 0 to 10 puts the slider at that number. */
  lemma SliderPositionOfWholeUnits(s: int, unit: DistanceUnit)
    requires 0 <= s <= 10
    ensures SliderPosition(Meters(s * unit.ConversionRate()), unit) == s
  {
    var rate := unit.ConversionRate();
    assert 0 <= s * rate <= 10 * rate;
    SliderPositionCountsUnits(Meters(s * rate), unit);
  }

  class Settings {
    var fontSize: int
    var distanceUnit: DistanceUnit
    var locationPermissionsGranted: bool
    var maxDistance: MaxDistance
    var maxDistanceSliderVal: int
    /** Null until the liked set is read in from the device. */
    var likedLocations: Nullable<set<string>>

    ghost predicate Valid()
      reads this
    {
      0 <= maxDistanceSliderVal <= 10
    }

    /** The first construction: kilometres, and Java's defaults elsewhere. */
    constructor ()
      ensures Valid()
      ensures distanceUnit == Kilometer
      ensures fontSize == 0 && !locationPermissionsGranted
      ensures maxDistance == Meters(0) && maxDistanceSliderVal == 0 && likedLocations == Null
    {
      fontSize := 0;
      distanceUnit := Kilometer;
      locationPermissionsGranted := false;
      maxDistance := Meters(0);
      maxDistanceSliderVal := 0;
      likedLocations := Null;
    }

    method SetFontSize(newFontSize: int)
      modifies this
      ensures fontSize == newFontSize
      ensures distanceUnit == old(distanceUnit) && locationPermissionsGranted == old(locationPermissionsGranted)
      ensures maxDistance == old(maxDistance) && maxDistanceSliderVal == old(maxDistanceSliderVal)
      ensures likedLocations == old(likedLocations)
    {
      fontSize := newFontSize;
    }

    /** Stores the distance as given and derives the slider position from it
        in the current unit. */
    method SetMaxDistance(newMaxDistance: MaxDistance)
      modifies this
      ensures Valid()
      ensures maxDistance == newMaxDistance
      ensures maxDistanceSliderVal == SliderPosition(newMaxDistance, distanceUnit)
      ensures fontSize == old(fontSize) && distanceUnit == old(distanceUnit)
      ensures locationPermissionsGranted == old(locationPermissionsGranted)
      ensures likedLocations == old(likedLocations)
    {
      maxDistance := newMaxDistance;
      maxDistanceSliderVal := Div(CastToInt(maxDistance), distanceUnit.ConversionRate());
      if maxDistanceSliderVal < 0 || maxDistanceSliderVal > 10 {
        maxDistanceSliderVal := 0;
      }
    }

    /** Changes the unit only: the stored distance and slider position stay. */
    method SetDistanceUnit(newDistanceUnit: DistanceUnit)
      modifies this
      ensures distanceUnit == newDistanceUnit
      ensures fontSize == old(fontSize) && locationPermissionsGranted == old(locationPermissionsGranted)
      ensures maxDistance == old(maxDistance) && maxDistanceSliderVal == old(maxDistanceSliderVal)
      ensures likedLocations == old(likedLocations)
    {
      distanceUnit := newDistanceUnit;
    }

    method SetLocationPermissionsGranted(granted: bool)
      modifies this
      ensures locationPermissionsGranted == granted
      ensures fontSize == old(fontSize) && distanceUnit == old(distanceUnit)
      ensures maxDistance == old(maxDistance) && maxDistanceSliderVal == old(maxDistanceSliderVal)
      ensures likedLocations == old(likedLocations)
    {
      locationPermissionsGranted := granted;
    }

    /** Installs the liked set read in from the device. */
    method SetLikedLocations(initialLikedLocations: set<string>)
      modifies this
      ensures likedLocations == Ref(initialLikedLocations)
      ensures fontSize == old(fontSize) && distanceUnit == old(distanceUnit)
      ensures locationPermissionsGranted == old(locationPermissionsGranted)
      ensures maxDistance == old(maxDistance) && maxDistanceSliderVal == old(maxDistanceSliderVal)
    {
      likedLocations := Ref(initialLikedLocations);
    }

    /** Whether the location is in the installed liked set. */
    predicate LocationIsLiked(locationId: string)
      reads this
      requires likedLocations.Ref?
      ensures LocationIsLiked(locationId) <==> locationId in likedLocations.value
    {
      locationId in likedLocations.value
    }

    /** Afterwards the location is liked and every other location is as before. */
    method AddLikedLocation(likedLocationId: string)
      requires likedLocations.Ref?
      modifies this
      ensures likedLocations == Ref(old(likedLocations.value) + {likedLocationId})
      ensures LocationIsLiked(likedLocationId)
      ensures forall id :: id != likedLocationId ==> (LocationIsLiked(id) <==> old(LocationIsLiked(id)))
      ensures fontSize == old(fontSize) && distanceUnit == old(distanceUnit)
      ensures locationPermissionsGranted == old(locationPermissionsGranted)
      ensures maxDistance == old(maxDistance) && maxDistanceSliderVal == old(maxDistanceSliderVal)
    {
      likedLocations := Ref(likedLocations.value + {likedLocationId});
    }

    /** Afterwards the location is not liked and every other location is as before. */
    method RemoveLikedLocation(likedLocationId: string)
      requires likedLocations.Ref?
      modifies this
      ensures likedLocations == Ref(old(likedLocations.value) - {likedLocationId})
      ensures !LocationIsLiked(likedLocationId)
      ensures forall id :: id != likedLocationId ==> (LocationIsLiked(id) <==> old(LocationIsLiked(id)))
      ensures fontSize == old(fontSize) && distanceUnit == old(distanceUnit)
      ensures locationPermissionsGranted == old(locationPermissionsGranted)
      ensures maxDistance == old(maxDistance) && maxDistanceSliderVal == old(maxDistanceSliderVal)
    {
      likedLocations := Ref(likedLocations.value - {likedLocationId});
    }
  }
}
