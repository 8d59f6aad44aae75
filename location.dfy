/** The geocoding front end (`LocationService`): coordinate checks, the
    blank-name check, and the shaping of the first geocoder result into a
    `pb.Location`. The Maps calls are oracles: `answer` is what the geocoder
    returned, a list of results or an error. */
module LocationService {
  import opened Wrappers
  import opened Records
  import opened GoStrings

  datatype AddressComponent = AddressComponent(longName: string, types: seq<string>)

  datatype GeocodeResult = GeocodeResult(formattedAddress: string, components: seq<AddressComponent>, lat: real, lng: real)

  /** `isValidLatitude`: inclusive bounds. */
  predicate IsValidLatitude(lat: real) {
    -90.0 <= lat <= 90.0
  }

  /** `isValidLongitude`: inclusive bounds. */
  predicate IsValidLongitude(lng: real) {
    -180.0 <= lng <= 180.0
  }

  // ---- resolving city and country ----------------------------------------

  /** The city and country fields while the components are scanned. */
  datatype Place = Place(city: string, country: string)

  const Locality := "locality"
  const Country := "country"
  const AdminArea := "administrative_area_level_1"

  /** One step of the switch: a component's long name under one of its types. */
  function ApplyType(p: Place, name: string, t: string): Place {
    if t == Locality then p.(city := name)
    else if t == Country then p.(country := name)
    else if t == AdminArea && p.city == "" then p.(city := name)
    else p
  }

  /** All of one component's types, in order. */
  function ApplyTypes(p: Place, name: string, types: seq<string>): Place
    decreases |types|
  {
    if |types| == 0 then p
    else ApplyType(ApplyTypes(p, name, types[..|types| - 1]), name, types[|types| - 1])
  }

  /** All components, in order, from empty fields. */
  function Resolve(comps: seq<AddressComponent>): Place
    decreases |comps|
  {
    if |comps| == 0 then Place("", "")
    else
      var last := comps[|comps| - 1];
      ApplyTypes(Resolve(comps[..|comps| - 1]), last.longName, last.types)
  }

  /** The component loop of `reverseGeocode` and `geocode`. */
  method ExtractComponents(comps: seq<AddressComponent>) returns (city: string, country: string)
    ensures Place(city, country) == Resolve(comps)
  {
    city, country := "", "";
    for i := 0 to |comps|
      invariant Place(city, country) == Resolve(comps[..i])
    {
      var component := comps[i];
      assert comps[..i + 1][..i] == comps[..i];
      for j := 0 to |component.types|
        invariant Place(city, country) == ApplyTypes(Resolve(comps[..i]), component.longName, component.types[..j])
      {
        assert component.types[..j + 1][..j] == component.types[..j];
        var componentType := component.types[j];
        if componentType == Locality {
          city := component.longName;
        } else if componentType == Country {
          country := component.longName;
        } else if componentType == AdminArea {
          if city == "" {
            city := component.longName;
          }
        }
      }
      assert component.types[..|component.types|] == component.types;
    }
    assert comps[..|comps|] == comps;
  }

  /** The position of the last component listing type `t`. */
  function LastWith(comps: seq<AddressComponent>, t: string): (r: Option<nat>)
    ensures r.Some? ==> r.value < |comps| && t in comps[r.value].types
    ensures r.Some? ==> forall k :: r.value < k < |comps| ==> t !in comps[k].types
    ensures r.None? ==> forall k :: 0 <= k < |comps| ==> t !in comps[k].types
    decreases |comps|
  {
    if |comps| == 0 then None
    else if t in comps[|comps| - 1].types then Some(|comps| - 1)
    else LastWith(comps[..|comps| - 1], t)
  }

  /** The position of the first component listing the admin-area type with a
      non-empty long name. */
  function FirstNamedAdminArea(comps: seq<AddressComponent>): (r: Option<nat>)
    ensures r.Some? ==> r.value < |comps| && AdminArea in comps[r.value].types && comps[r.value].longName != ""
    ensures r.Some? ==> forall k :: 0 <= k < r.value ==> !(AdminArea in comps[k].types && comps[k].longName != "")
    ensures r.None? ==> forall k :: 0 <= k < |comps| ==> !(AdminArea in comps[k].types && comps[k].longName != "")
    decreases |comps|
  {
    if |comps| == 0 then None
    else
      var first := FirstNamedAdminArea(comps[..|comps| - 1]);
      if first.Some? then first
      else if AdminArea in comps[|comps| - 1].types && comps[|comps| - 1].longName != "" then Some(|comps| - 1)
      else None
  }

  /** Within one component, the country field ends as its name iff it lists
      "country"; otherwise it is untouched. */
  lemma {:induction false} ApplyTypesCountry(p: Place, name: string, types: seq<string>)
    ensures ApplyTypes(p, name, types).country == if Country in types then name else p.country
    decreases |types|
  {
    if |types| > 0 {
      var init := types[..|types| - 1];
      ApplyTypesCountry(p, name, init);
      assert types == init + [types[|types| - 1]];
    }
  }

  /** Within one component, a "locality" type leaves the city as the
      component's name, whatever other types it lists. */
  lemma {:induction false} ApplyTypesLocality(p: Place, name: string, types: seq<string>)
    requires Locality in types
    ensures ApplyTypes(p, name, types).city == name
    decreases |types|
  {
    var init := types[..|types| - 1];
    assert types == init + [types[|types| - 1]];
    if types[|types| - 1] != Locality {
      ApplyTypesLocality(p, name, init);
    }
  }

  /** Without a "locality" type, a component writes the city only when it is
      still empty and the component lists the admin-area type. */
  lemma {:induction false} ApplyTypesNoLocality(p: Place, name: string, types: seq<string>)
    requires Locality !in types
    ensures ApplyTypes(p, name, types).city == if p.city == "" && AdminArea in types then name else p.city
    decreases |types|
  {
    if |types| > 0 {
      var init := types[..|types| - 1];
      assert types == init + [types[|types| - 1]];
      ApplyTypesNoLocality(p, name, init);
    }
  }

  /** The country is the name of the last component listing "country", or
      "" when none does. */
  lemma {:induction false} CountryIsLastCountry(comps: seq<AddressComponent>)
    ensures Resolve(comps).country == if LastWith(comps, Country).Some? then comps[LastWith(comps, Country).value].longName else ""
    decreases |comps|
  {
    if |comps| > 0 {
      var init := comps[..|comps| - 1];
      var last := comps[|comps| - 1];
      CountryIsLastCountry(init);
      ApplyTypesCountry(Resolve(init), last.longName, last.types);
      if Country !in last.types {
        assert LastWith(comps, Country) == LastWith(init, Country);
      }
    }
  }

  /** The city is the name of the last "locality" component whenever that
      name is non-empty: later admin areas do not overwrite it. */
  lemma {:induction false} CityFromLastLocality(comps: seq<AddressComponent>)
    requires LastWith(comps, Locality).Some? && comps[LastWith(comps, Locality).value].longName != ""
    ensures Resolve(comps).city == comps[LastWith(comps, Locality).value].longName
    decreases |comps|
  {
    var init := comps[..|comps| - 1];
    var last := comps[|comps| - 1];
    if Locality in last.types {
      ApplyTypesLocality(Resolve(init), last.longName, last.types);
    } else {
      assert LastWith(comps, Locality) == LastWith(init, Locality);
      CityFromLastLocality(init);
      ApplyTypesNoLocality(Resolve(init), last.longName, last.types);
    }
  }

  /** With no "locality" component, the city is the first non-empty
      admin-area name, or "" when there is none. */
  lemma {:induction false} CityWithoutLocality(comps: seq<AddressComponent>)
    requires LastWith(comps, Locality).None?
    ensures Resolve(comps).city == if FirstNamedAdminArea(comps).Some? then comps[FirstNamedAdminArea(comps).value].longName else ""
    decreases |comps|
  {
    if |comps| > 0 {
      var init := comps[..|comps| - 1];
      var last := comps[|comps| - 1];
      assert LastWith(init, Locality).None? by {
        forall k | 0 <= k < |init| ensures Locality !in init[k].types {
          assert init[k] == comps[k];
        }
      }
      CityWithoutLocality(init);
      ApplyTypesNoLocality(Resolve(init), last.longName, last.types);
      var f := FirstNamedAdminArea(init);
      if f.Some? {
        assert init[f.value] == comps[f.value];
      }
    }
  }

  // ---- shaping results -----------------------------------------------------

  /** A field's value, or its placeholder when it is empty. */
  function OrDefault(s: string, placeholder: string): (r: string)
    ensures s != "" ==> r == s
    ensures s == "" ==> r == placeholder
  {
    if s == "" then placeholder else s
  }

  /** The location `reverseGeocode` builds from the first result: the input
      coordinates, the resolved city and country with their placeholders,
      and the city as the name. */
  function ReverseLocation(lat: real, lng: real, result: GeocodeResult): (l: Location)
    ensures l.latitude == lat && l.longitude == lng && l.address == result.formattedAddress
    ensures l.city == OrDefault(Resolve(result.components).city, "Unknown City")
    ensures l.country == OrDefault(Resolve(result.components).country, "Unknown Country")
    ensures l.name == l.city && l.city != "" && l.country != ""
  {
    var place := Resolve(result.components);
    var city := OrDefault(place.city, "Unknown City");
    Location(lat, lng, city, OrDefault(place.country, "Unknown Country"), city, result.formattedAddress)
  }

  /** The location `geocode` builds from the first result: the query as the
      name, the result's coordinates, and the resolved city and country. */
  function ForwardLocation(query: string, result: GeocodeResult): (l: Location)
    ensures l.name == query && l.latitude == result.lat && l.longitude == result.lng
    ensures l.address == result.formattedAddress
    ensures l.city == OrDefault(Resolve(result.components).city, "Unknown City")
    ensures l.country == OrDefault(Resolve(result.components).country, "Unknown Country")
    ensures l.city != "" && l.country != ""
  {
    var place := Resolve(result.components);
    Location(result.lat, result.lng, query, OrDefault(place.country, "Unknown Country"),
             OrDefault(place.city, "Unknown City"), result.formattedAddress)
  }

  /** `reverseGeocode`. */
  method ReverseGeocode(lat: real, lng: real, answer: Result<seq<GeocodeResult>>) returns (r: Result<Location>)
    ensures answer.Err? ==> r == Err("reverse geocoding failed: " + answer.error)
    ensures answer.Ok? && |answer.value| == 0 ==> r == Err("no results found for coordinates")
    ensures answer.Ok? && |answer.value| > 0 ==> r == Ok(ReverseLocation(lat, lng, answer.value[0]))
  {
    if answer.Err? {
      return Err("reverse geocoding failed: " + answer.error);
    }
    if |answer.value| == 0 {
      return Err("no results found for coordinates");
    }
    var result := answer.value[0];
    var location := Location(lat, lng, "", "", "", result.formattedAddress);
    var city, country := ExtractComponents(result.components);
    location := location.(city := city, country := country);
    if location.city == "" {
      location := location.(city := "Unknown City");
    }
    if location.country == "" {
      location := location.(country := "Unknown Country");
    }
    if location.name == "" {
      location := location.(name := location.city);
    }
    return Ok(location);
  }

  /** `geocode`. */
  method Geocode(query: string, answer: Result<seq<GeocodeResult>>) returns (r: Result<Location>)
    ensures answer.Err? ==> r == Err("geocoding failed: " + answer.error)
    ensures answer.Ok? && |answer.value| == 0 ==> r == Err("no results found for location: " + query)
    ensures answer.Ok? && |answer.value| > 0 ==> r == Ok(ForwardLocation(query, answer.value[0]))
  {
    if answer.Err? {
      return Err("geocoding failed: " + answer.error);
    }
    if |answer.value| == 0 {
      return Err("no results found for location: " + query);
    }
    var result := answer.value[0];
    var location := Location(result.lat, result.lng, query, "", "", result.formattedAddress);
    var city, country := ExtractComponents(result.components);
    location := location.(city := city, country := country);
    if location.city == "" {
      location := location.(city := "Unknown City");
    }
    if location.country == "" {
      location := location.(country := "Unknown Country");
    }
    return Ok(location);
  }

  /** `GetLocationFromCoords`: coordinates out of range are refused before
      the geocoder is asked; geocoder failures fold into the response. */
  method GetLocationFromCoords(lat: real, lng: real, answer: Result<seq<GeocodeResult>>) returns (resp: LocationResponse, err: Option<string>)
    ensures err.None?
    ensures !(IsValidLatitude(lat) && IsValidLongitude(lng)) ==> resp == LocationResponse(false, "Invalid coordinates provided", None)
    ensures resp.success <==> IsValidLatitude(lat) && IsValidLongitude(lng) && answer.Ok? && |answer.value| > 0
    ensures IsValidLatitude(lat) && IsValidLongitude(lng) && answer.Err? ==>
              resp == LocationResponse(false, "Failed to get location: " + ("reverse geocoding failed: " + answer.error), None)
    ensures IsValidLatitude(lat) && IsValidLongitude(lng) && answer.Ok? && |answer.value| == 0 ==>
              resp == LocationResponse(false, "Failed to get location: " + "no results found for coordinates", None)
    ensures resp.success ==> resp == LocationResponse(true, "Location retrieved successfully", Some(ReverseLocation(lat, lng, answer.value[0])))
  {
    if !IsValidLatitude(lat) || !IsValidLongitude(lng) {
      return LocationResponse(false, "Invalid coordinates provided", None), None;
    }
    var location := ReverseGeocode(lat, lng, answer);
    if location.Err? {
      return LocationResponse(false, "Failed to get location: " + location.error, None), None;
    }
    return LocationResponse(true, "Location retrieved successfully", Some(location.value)), None;
  }

  /** `GetLocationFromName`: a name that is empty after trimming whitespace
      is refused before the geocoder is asked; the untrimmed name is what is
      geocoded and kept as the location's name. */
  method GetLocationFromName(name: string, answer: Result<seq<GeocodeResult>>) returns (resp: LocationResponse, err: Option<string>)
    ensures err.None?
    ensures AllSpace(name) ==> resp == LocationResponse(false, "Location name cannot be empty", None)
    ensures resp.success <==> !AllSpace(name) && answer.Ok? && |answer.value| > 0
    ensures !AllSpace(name) && answer.Err? ==>
              resp == LocationResponse(false, "Failed to get location: " + ("geocoding failed: " + answer.error), None)
    ensures !AllSpace(name) && answer.Ok? && |answer.value| == 0 ==>
              resp == LocationResponse(false, "Failed to get location: " + ("no results found for location: " + name), None)
    ensures resp.success ==> resp == LocationResponse(true, "Location retrieved successfully", Some(ForwardLocation(name, answer.value[0])))
  {
    if TrimSpace(name) == "" {
      return LocationResponse(false, "Location name cannot be empty", None), None;
    }
    var location := Geocode(name, answer);
    if location.Err? {
      return LocationResponse(false, "Failed to get location: " + location.error, None), None;
    }
    return LocationResponse(true, "Location retrieved successfully", Some(location.value)), None;
  }
}
