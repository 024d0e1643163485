/** The frontend's ground-station locations (js/LocationManager.js): the ground-station
    form and its stored configuration, the list of saved locations, saving a new location
    after validating it (with an upsert when the name is taken), selecting a saved
    location, and clearing the list. Browser storage is modelled by two fields; the form
    inputs by four more. */
module LocationManager {
  import opened Common
  import opened Text

  /** A saved location. Coordinates are kept as the text the user typed. */
  datatype Location = Location(name: string, latitude: string, longitude: string, altitude: string,
                               gimbalDirection: string)

  /** The stored ground-station configuration; a field may be absent from the stored JSON. */
  datatype StoredConfig = StoredConfig(latitude: Option<string>, longitude: Option<string>,
                                       altitude: Option<string>, gimbalDirection: Option<string>)

  /** Why a new location was not saved, or that it was. */
  datatype SaveOutcome = MissingFields | InvalidCoordinates | Declined | Saved

  /** The mount direction given to every location saved from the dialog. */
  const DefaultDirection: string := "auto"

  // ---------------------------------------------------------------------------
  // Defaults (`x || default`)
  // ---------------------------------------------------------------------------

  /** JavaScript's `value || fallback` for a string that may be absent: an absent or empty
      value gives the fallback. */
  function OrDefault(value: Option<string>, fallback: string): (r: string)
    ensures value.Some? && value.value != [] ==> r == value.value
    ensures value.None? || value.value == [] ==> r == fallback
  {
    if value.Some? && value.value != [] then value.value else fallback
  }

  // ---------------------------------------------------------------------------
  // Validation (saveNewLocation)
  // ---------------------------------------------------------------------------

  /** The checks on the dialog's inputs, in the order the source makes them. The parsed
      coordinates are `None` when the text does not parse as a number (NaN). */
  function Validate(name: string, latitude: string, longitude: string,
                    parsedLat: Option<real>, parsedLon: Option<real>): (r: Option<SaveOutcome>)
    ensures r == Some(MissingFields) <==> name == [] || latitude == [] || longitude == []
    ensures r == Some(InvalidCoordinates) <==>
      name != [] && latitude != [] && longitude != [] && !ValidCoordinates(parsedLat, parsedLon)
    ensures r == None <==>
      name != [] && latitude != [] && longitude != [] && ValidCoordinates(parsedLat, parsedLon)
  {
    if name == [] || latitude == [] || longitude == [] then Some(MissingFields)
    else if parsedLat.None? || parsedLon.None? ||
            parsedLat.value < -90.0 || parsedLat.value > 90.0 ||
            parsedLon.value < -180.0 || parsedLon.value > 180.0 then Some(InvalidCoordinates)
    else None
  }

  /** Both coordinates are numbers, the latitude within [-90, 90] and the longitude within
      [-180, 180]. */
  predicate ValidCoordinates(parsedLat: Option<real>, parsedLon: Option<real>)
  {
    && parsedLat.Some? && -90.0 <= parsedLat.value <= 90.0
    && parsedLon.Some? && -180.0 <= parsedLon.value <= 180.0
  }

  // ---------------------------------------------------------------------------
  // The saved list
  // ---------------------------------------------------------------------------

  /** Whether a saved location has the name (`some`). */
  predicate HasName(locations: seq<Location>, name: string)
    decreases |locations|
  {
    locations != [] && (locations[0].name == name || HasName(locations[1..], name))
  }

  lemma {:induction false} HasNameAt(locations: seq<Location>, name: string)
    ensures HasName(locations, name) <==> exists i :: 0 <= i < |locations| && locations[i].name == name
    decreases |locations|
  {
    if locations != [] {
      var rest := locations[1..];
      HasNameAt(rest, name);
      if HasName(rest, name) {
        var i :| 0 <= i < |rest| && rest[i].name == name;
        assert locations[i + 1] == rest[i];
      }
      if exists i :: 0 <= i < |locations| && locations[i].name == name {
        var i :| 0 <= i < |locations| && locations[i].name == name;
        if i > 0 {
          assert rest[i - 1] == locations[i];
        }
      }
    }
  }

  /** The saved locations with the name, in order. */
  function Named(locations: seq<Location>, name: string): (r: seq<Location>)
    decreases |locations|
  {
    if locations == [] then []
    else (if locations[0].name == name then [locations[0]] else []) + Named(locations[1..], name)
  }

  /** The saved locations without the name, in order (`filter(loc => loc.name !== name)`). */
  function WithoutName(locations: seq<Location>, name: string): (r: seq<Location>)
    decreases |locations|
  {
    if locations == [] then []
    else (if locations[0].name != name then [locations[0]] else []) + WithoutName(locations[1..], name)
  }

  /** Removing a name leaves no location with it, leaves every other name's locations as
      they were, in order, and changes nothing when no location had the name. */
  lemma {:induction false} WithoutNameSpec(locations: seq<Location>, name: string, other: string)
    ensures Named(WithoutName(locations, name), name) == []
    ensures other != name ==> Named(WithoutName(locations, name), other) == Named(locations, other)
    ensures !HasName(locations, name) ==> WithoutName(locations, name) == locations
    decreases |locations|
  {
    if locations != [] {
      var head, rest := locations[0], locations[1..];
      WithoutNameSpec(rest, name, other);
      var kept := if head.name != name then [head] else [];
      assert WithoutName(locations, name) == kept + WithoutName(rest, name);
      NamedAppend(kept, WithoutName(rest, name), name);
      NamedAppend(kept, WithoutName(rest, name), other);
      if !HasName(locations, name) {
        assert [head] + rest == locations;
      }
    }
  }

  lemma {:induction false} NamedAppend(a: seq<Location>, b: seq<Location>, name: string)
    ensures Named(a + b, name) == Named(a, name) + Named(b, name)
    decreases |a|
  {
    if a != [] {
      NamedAppend(a[1..], b, name);
      assert (a + b)[1..] == a[1..] + b;
    } else {
      assert a + b == b;
    }
  }

  /** No two saved locations share a name. */
  predicate UniqueNames(locations: seq<Location>)
  {
    forall i, j :: 0 <= i < j < |locations| ==> locations[i].name != locations[j].name
  }

  /** The first saved location with the name (`find`). */
  function FindNamed(locations: seq<Location>, name: string): (r: Option<Location>)
    decreases |locations|
  {
    if locations == [] then None
    else if locations[0].name == name then Some(locations[0])
    else FindNamed(locations[1..], name)
  }

  /** `find` returns the first location with the name, and nothing exactly when no
      location has it. */
  lemma {:induction false} FindNamedSpec(locations: seq<Location>, name: string)
    ensures FindNamed(locations, name).None? <==> !HasName(locations, name)
    ensures FindNamed(locations, name).Some? ==>
      exists i :: 0 <= i < |locations| && locations[i] == FindNamed(locations, name).value &&
        locations[i].name == name && forall k :: 0 <= k < i ==> locations[k].name != name
    decreases |locations|
  {
    if locations != [] && locations[0].name != name {
      var rest := locations[1..];
      FindNamedSpec(rest, name);
      if FindNamed(rest, name).Some? {
        var i :| 0 <= i < |rest| && rest[i] == FindNamed(rest, name).value &&
          rest[i].name == name && forall k :: 0 <= k < i ==> rest[k].name != name;
        assert locations[i + 1] == rest[i];
        forall k | 0 <= k < i + 1 ensures locations[k].name != name {
          if k > 0 {
            assert locations[k] == rest[k - 1];
          }
        }
      }
    } else if locations != [] {
      assert locations[0] == FindNamed(locations, name).value;
    }
  }

  /** The list after saving `loc`: every location with its name removed, the others in
      their order, and `loc` appended last. */
  function Upsert(locations: seq<Location>, loc: Location): seq<Location>
  {
    WithoutName(locations, loc.name) + [loc]
  }

  /** After an upsert exactly one location has the saved name, and it is the new one,
      last; every other name keeps its locations, in order; names that were unique stay
      unique. */
  lemma UpsertSpec(locations: seq<Location>, loc: Location, other: string)
    ensures var r := Upsert(locations, loc);
      && Named(r, loc.name) == [loc] && r[|r| - 1] == loc
      && (other != loc.name ==> Named(r, other) == Named(locations, other))
      && (!HasName(locations, loc.name) ==> r == locations + [loc])
  {
    var rest := WithoutName(locations, loc.name);
    WithoutNameSpec(locations, loc.name, other);
    NamedAppend(rest, [loc], loc.name);
    NamedAppend(rest, [loc], other);
  }

  /** Upserting into a list with unique names keeps the names unique. */
  lemma UpsertUnique(locations: seq<Location>, loc: Location)
    requires UniqueNames(locations)
    ensures UniqueNames(Upsert(locations, loc))
  {
    var rest := WithoutName(locations, loc.name);
    var r := rest + [loc];
    forall i, j | 0 <= i < j < |r| ensures r[i].name != r[j].name {
      KeptAt(locations, loc.name, i);
      assert r[i] == rest[i];
      if j < |rest| {
        KeptAt(locations, loc.name, j);
        IndexIncreasing(locations, loc.name, i, j);
        assert r[j] == rest[j];
      }
    }
  }

  /** Where the `i`-th kept location sits in the original list. */
  function Index(locations: seq<Location>, name: string, i: nat): (k: nat)
    decreases |locations|
  {
    if locations == [] then 0
    else if locations[0].name != name then (if i == 0 then 0 else 1 + Index(locations[1..], name, i - 1))
    else 1 + Index(locations[1..], name, i)
  }

  /** The `i`-th kept location is the location at `Index(locations, name, i)`, and it does
      not have the removed name. */
  lemma {:induction false} KeptAt(locations: seq<Location>, name: string, i: nat)
    requires i < |WithoutName(locations, name)|
    ensures Index(locations, name, i) < |locations|
    ensures WithoutName(locations, name)[i] == locations[Index(locations, name, i)]
    ensures WithoutName(locations, name)[i].name != name
    decreases |locations|
  {
    var rest := locations[1..];
    var w := WithoutName(rest, name);
    if locations[0].name != name {
      assert WithoutName(locations, name) == [locations[0]] + w;
      if i > 0 {
        KeptAt(rest, name, i - 1);
        assert locations[1 + Index(rest, name, i - 1)] == rest[Index(rest, name, i - 1)];
      }
    } else {
      assert WithoutName(locations, name) == w;
      KeptAt(rest, name, i);
      assert locations[1 + Index(rest, name, i)] == rest[Index(rest, name, i)];
    }
  }

  /** Kept locations keep their relative order. */
  lemma {:induction false} IndexIncreasing(locations: seq<Location>, name: string, i: nat, j: nat)
    requires i < j < |WithoutName(locations, name)|
    ensures Index(locations, name, i) < Index(locations, name, j)
    decreases |locations|
  {
    var rest := locations[1..];
    var w := WithoutName(rest, name);
    if locations[0].name != name {
      assert WithoutName(locations, name) == [locations[0]] + w;
      if i > 0 {
        IndexIncreasing(rest, name, i - 1, j - 1);
      }
    } else {
      assert WithoutName(locations, name) == w;
      IndexIncreasing(rest, name, i, j);
    }
  }

  // ---------------------------------------------------------------------------
  // The manager
  // ---------------------------------------------------------------------------

  class LocationManager {
    /** The ground-station form: latitude, longitude, altitude and mount direction. */
    var latitude: string
    var longitude: string
    var altitude: string
    var gimbalDirection: string
    /** The stored configuration (browser storage key `groundStationConfig`). */
    var groundStationConfig: Option<StoredConfig>
    /** The saved locations (browser storage key `savedLocations`). */
    var savedLocations: seq<Location>

    constructor(savedLocations: seq<Location>, groundStationConfig: Option<StoredConfig>)
      ensures this.savedLocations == savedLocations && this.groundStationConfig == groundStationConfig
      ensures latitude == [] && longitude == [] && altitude == [] && gimbalDirection == []
    {
      this.savedLocations := savedLocations;
      this.groundStationConfig := groundStationConfig;
      latitude, longitude, altitude, gimbalDirection := [], [], [], [];
    }

    /** Fills the form from the stored configuration, if there is one: an absent or empty
        field gives the empty string, and an absent or empty direction gives "auto". */
    method LoadGroundStationConfig()
      modifies this
      ensures groundStationConfig == old(groundStationConfig) && savedLocations == old(savedLocations)
      ensures old(groundStationConfig).None? ==>
        latitude == old(latitude) && longitude == old(longitude) &&
        altitude == old(altitude) && gimbalDirection == old(gimbalDirection)
      ensures old(groundStationConfig).Some? ==>
        var c := old(groundStationConfig).value;
        latitude == OrDefault(c.latitude, "") && longitude == OrDefault(c.longitude, "") &&
        altitude == OrDefault(c.altitude, "") && gimbalDirection == OrDefault(c.gimbalDirection, DefaultDirection)
    {
      if groundStationConfig.Some? {
        var c := groundStationConfig.value;
        latitude := OrDefault(c.latitude, "");
        longitude := OrDefault(c.longitude, "");
        altitude := OrDefault(c.altitude, "");
        gimbalDirection := OrDefault(c.gimbalDirection, DefaultDirection);
      }
    }

    /** Stores the form as the configuration. */
    method SaveGroundStationConfig()
      modifies this
      ensures groundStationConfig == Some(StoredConfig(Some(latitude), Some(longitude), Some(altitude), Some(gimbalDirection)))
      ensures latitude == old(latitude) && longitude == old(longitude)
      ensures altitude == old(altitude) && gimbalDirection == old(gimbalDirection)
      ensures savedLocations == old(savedLocations)
    {
      groundStationConfig := Some(StoredConfig(Some(latitude), Some(longitude), Some(altitude), Some(gimbalDirection)));
    }

    /** Copies the first saved location with the name into the form and stores the form;
        an empty name or an unknown one changes nothing. */
    method SelectLocation(locationName: string)
      modifies this
      ensures savedLocations == old(savedLocations)
      ensures locationName == [] || FindNamed(savedLocations, locationName).None? ==>
        latitude == old(latitude) && longitude == old(longitude) && altitude == old(altitude) &&
        gimbalDirection == old(gimbalDirection) && groundStationConfig == old(groundStationConfig)
      ensures locationName != [] && FindNamed(savedLocations, locationName).Some? ==>
        var loc := FindNamed(savedLocations, locationName).value;
        && latitude == loc.latitude && longitude == loc.longitude
        && altitude == OrDefault(Some(loc.altitude), "")
        && gimbalDirection == OrDefault(Some(loc.gimbalDirection), DefaultDirection)
        && groundStationConfig == Some(StoredConfig(Some(latitude), Some(longitude), Some(altitude), Some(gimbalDirection)))
    {
      if locationName == [] {
        return;
      }
      var location := FindNamed(savedLocations, locationName);
      if location.Some? {
        latitude := location.value.latitude;
        longitude := location.value.longitude;
        altitude := OrDefault(Some(location.value.altitude), "");
        gimbalDirection := OrDefault(Some(location.value.gimbalDirection), DefaultDirection);
        SaveGroundStationConfig();
      }
    }

    /** Saves the dialog's location. The name is trimmed; a missing field or an invalid
        coordinate rejects the input; a taken name is overwritten only when the user
        confirms; a saved location always gets the direction "auto". */
    method SaveNewLocation(nameInput: string, dialogLatitude: string, dialogLongitude: string,
                           dialogAltitude: string, parsedLat: Option<real>, parsedLon: Option<real>,
                           confirmOverwrite: bool)
      returns (outcome: SaveOutcome)
      modifies this
      ensures latitude == old(latitude) && longitude == old(longitude)
      ensures altitude == old(altitude) && gimbalDirection == old(gimbalDirection)
      ensures groundStationConfig == old(groundStationConfig)
      ensures var v := Validate(Strip(nameInput), dialogLatitude, dialogLongitude, parsedLat, parsedLon);
        && (v.Some? ==> outcome == v.value)
        && (v.None? && HasName(old(savedLocations), Strip(nameInput)) && !confirmOverwrite ==> outcome == Declined)
        && (v.None? && (!HasName(old(savedLocations), Strip(nameInput)) || confirmOverwrite) ==> outcome == Saved)
      ensures outcome != Saved ==> savedLocations == old(savedLocations)
      ensures outcome == Saved ==>
        savedLocations == Upsert(old(savedLocations),
          Location(Strip(nameInput), dialogLatitude, dialogLongitude, dialogAltitude, DefaultDirection))
    {
      var name := Strip(nameInput);
      var gimbal := DefaultDirection;
      var rejected := Validate(name, dialogLatitude, dialogLongitude, parsedLat, parsedLon);
      if rejected.Some? {
        return rejected.value;
      }
      var locations := savedLocations;
      if HasName(locations, name) {
        if !confirmOverwrite {
          return Declined;
        }
        locations := WithoutName(locations, name);
      } else {
        WithoutNameSpec(locations, name, name);
      }
      var newLocation := Location(name, dialogLatitude, dialogLongitude, dialogAltitude, gimbal);
      locations := locations + [newLocation];
      savedLocations := locations;
      outcome := Saved;
    }

    /** Empties the saved list when the user confirms. */
    method ClearAllLocations(confirmed: bool)
      modifies this
      ensures confirmed ==> savedLocations == []
      ensures !confirmed ==> savedLocations == old(savedLocations)
      ensures latitude == old(latitude) && longitude == old(longitude)
      ensures altitude == old(altitude) && gimbalDirection == old(gimbalDirection)
      ensures groundStationConfig == old(groundStationConfig)
    {
      if confirmed {
        savedLocations := [];
      }
    }
  }

  /** Storing the form and loading it back gives the same form, except that an empty
      mount direction comes back as "auto". */
  lemma ConfigRoundTrip(latitude: string, longitude: string, altitude: string, gimbalDirection: string)
    ensures var c := StoredConfig(Some(latitude), Some(longitude), Some(altitude), Some(gimbalDirection));
      && OrDefault(c.latitude, "") == latitude
      && OrDefault(c.longitude, "") == longitude
      && OrDefault(c.altitude, "") == altitude
      && OrDefault(c.gimbalDirection, DefaultDirection) == (if gimbalDirection == [] then DefaultDirection else gimbalDirection)
  {
  }
}
