/** `build_dict` (weather.py:194-245): the projection of the provider's decoded
    response onto the record the terminal display shows. Local-time formatting
    of the timestamps is not modelled: the record keeps the raw timestamps. */
module Record {
  import opened Wrappers
  import opened Json
  import opened Display

  /** `chr(176)`, the degree sign. */
  const Degree: char := 176 as char

  /** The unit labels of the record: temperature, then wind speed. */
  datatype Labels = Labels(temperature: string, speed: string)

  /** Labels for the stored unit token: only "m" is metric. */
  function UnitLabels(units: string): Labels
  {
    if units == "m" then Labels([Degree] + "C", "m/s") else Labels([Degree] + "F", "miles/h")
  }

  /** `units[0][-1]`: the last character of the temperature label, which is the
      unit `get_color` is called with. */
  function ColorUnit(tempLabel: string): string
    requires |tempLabel| > 0
  {
    [tempLabel[|tempLabel| - 1]]
  }

  /** Metric labels are chosen exactly for "m", and the colour unit they hand to
      `get_color` is "C" for metric and "F" otherwise. */
  lemma LabelsFollowUnits(units: string)
    ensures UnitLabels(units) == Labels([Degree] + "C", "m/s") <==> units == "m"
    ensures UnitLabels(units) == Labels([Degree] + "F", "miles/h") <==> units != "m"
    ensures ColorUnit(UnitLabels(units).temperature) == (if units == "m" then "C" else "F")
  {
  }

  /** The display-ready record. Values the display prints as they came are kept
      as the provider's JSON values. */
  datatype WeatherRecord = WeatherRecord(
    city: string,
    lat: Value,
    lon: Value,
    country: Value,
    observedAt: Value,
    temp: Value,
    tempColor: Color,
    unit: string,
    description: string,
    icon: string,
    tempMax: Value,
    tempMaxColor: Color,
    tempMin: Value,
    tempMinColor: Color,
    windSpeed: Value,
    speedUnit: string,
    clouds: Value,
    sunrise: Value,
    sunset: Value,
    precipitation: map<string, Value>)

  /** An operation that Python would abort with an exception fails here,
      naming the field it was reading. */
  function Need<T>(o: Option<T>, field: string): Result<T, string>
  {
    match o
    case Some(v) => Success(v)
    case None => Failure(field)
  }

  /** The name of an optional entry: "rain_1h", "snow_3h", ... */
  function EntryName(kind: string, window: string): string
  {
    kind + "_" + window
  }

  /** Python's `v[k]`, failing with `field` where Python raises. */
  function Entry(v: Value, k: string, field: string): (r: Result<Value, string>)
    ensures r.Success? <==> HasEntry(v, k)
    ensures r.Success? ==> r.value == v.fields[k]
  {
    Need(Index(v, k), field)
  }

  /** Python's `v.get(k)` used as a number: `v` must be a dict holding a number at `k`. */
  function NumberEntry(v: Value, k: string, field: string): (r: Result<(Value, real), string>)
    ensures r.Success? <==> NumberAt(v, k)
    ensures r.Success? ==> r.value.0 == v.fields[k] && Some(r.value.1) == Number(v.fields[k])
  {
    var x :- Need(Get(v, k), field);
    var n :- Need(Number(x), field);
    Success((x, n))
  }

  /** Python's `v.get(k)` used as a string: `v` must be a dict holding a string at `k`. */
  function StringEntry(v: Value, k: string, field: string): (r: Result<string, string>)
    ensures r.Success? <==> StringAt(v, k)
    ensures r.Success? ==> r.value == v.fields[k].s
  {
    var x :- Need(Get(v, k), field);
    Need(AsString(x), field)
  }

  /** `if window in v: final_data[kind_window] = v[window]`: Python's `in` must not
      raise, and where it answers yes, `v[window]` must not raise either. */
  function Window(v: Value, kind: string, window: string): (r: Result<map<string, Value>, string>)
    ensures r.Success? <==> v.Obj? || (v.Str? && !IsSubstring(window, v.s)) || (v.Arr? && Str(window) !in v.items)
    ensures r.Success? ==> r.value == if HasEntry(v, window) then map[EntryName(kind, window) := v.fields[window]] else map[]
  {
    match Contains(v, window)
    case None => Failure(kind)
    case Some(found) =>
      if !found then Success(map[])
      else
        match Index(v, window)
        case None => Failure(kind + "." + window)
        case Some(x) => Success(map[EntryName(kind, window) := x])
  }

  /** The optional `<kind>_1h` and `<kind>_3h` entries for `kind` "rain" or "snow". */
  function Precipitation(data: map<string, Value>, kind: string): (r: Result<map<string, Value>, string>)
    ensures r.Success? <==> PrecipitationReadable(data, kind)
    ensures r.Success? ==> r.value.Keys <= {EntryName(kind, "1h"), EntryName(kind, "3h")}
    ensures r.Success? ==> Carries(r.value, data, kind, "1h") && Carries(r.value, data, kind, "3h")
  {
    DistinctWindows(kind);
    if kind !in data then Success(map[])
    else
      var one :- Window(data[kind], kind, "1h");
      var three :- Window(data[kind], kind, "3h");
      Success(one + three)
  }

  /** The hourly and three-hourly entries of one kind have different names. */
  lemma DistinctWindows(kind: string)
    ensures EntryName(kind, "1h") != EntryName(kind, "3h")
  {
    assert EntryName(kind, "1h")[|kind| + 1] != EntryName(kind, "3h")[|kind| + 1];
  }

  /** Rain entries and snow entries have different names. */
  lemma DistinctKinds(w1: string, w2: string)
    ensures EntryName("rain", w1) != EntryName("snow", w2)
  {
    assert EntryName("rain", w1)[0] != EntryName("snow", w2)[0];
  }

  /** All optional entries: rain first, then snow, as `build_dict` adds them. */
  function Extras(data: map<string, Value>): (r: Result<map<string, Value>, string>)
    ensures r.Success? <==> PrecipitationReadable(data, "rain") && PrecipitationReadable(data, "snow")
    ensures r.Success? ==> r.value.Keys <= {"rain_1h", "rain_3h", "snow_1h", "snow_3h"}
    ensures r.Success? ==> && Carries(r.value, data, "rain", "1h") && Carries(r.value, data, "rain", "3h")
                           && Carries(r.value, data, "snow", "1h") && Carries(r.value, data, "snow", "3h")
  {
    var rain :- Precipitation(data, "rain");
    var snow :- Precipitation(data, "snow");
    DistinctKinds("1h", "1h");
    DistinctKinds("1h", "3h");
    DistinctKinds("3h", "1h");
    DistinctKinds("3h", "3h");
    assert EntryName("rain", "1h") == "rain_1h" && EntryName("rain", "3h") == "rain_3h";
    assert EntryName("snow", "1h") == "snow_1h" && EntryName("snow", "3h") == "snow_3h";
    Success(rain + snow)
  }

  /** `build_dict` for the decoded response `data`, the stored unit token and the
      configured city; `capitalize` stands for Python's `str.capitalize`. */
  function BuildDict(data: map<string, Value>, units: string, city: string, capitalize: string -> string)
    : (r: Result<WeatherRecord, string>)
    ensures r.Success? <==> Readable(data)
    ensures r.Success? ==> Projects(data, units, city, capitalize, r.value)
  {
    var sys := Lookup(data, "sys");
    var main := Lookup(data, "main");
    var weather := Lookup(data, "weather");
    var coord := Lookup(data, "coord");
    var labels := UnitLabels(units);
    var colorUnit := ColorUnit(labels.temperature);
    var lat :- Entry(coord, "lat", "coord.lat");
    var lon :- Entry(coord, "lon", "coord.lon");
    var country :- Need(Get(sys, "country"), "sys.country");
    var dt := Lookup(data, "dt");
    var dtSeconds :- Need(Number(dt), "dt");
    var temp :- NumberEntry(main, "temp", "main.temp");
    var first :- Need(First(weather), "weather");
    var desc :- StringEntry(first, "description", "weather.description");
    var iconCode :- StringEntry(first, "icon", "weather.icon");
    var icon :- Need(GetIcon(iconCode), "weather.icon");
    var tempMax :- NumberEntry(main, "temp_max", "main.temp_max");
    var tempMin :- NumberEntry(main, "temp_min", "main.temp_min");
    var speed :- Entry(Lookup(data, "wind"), "speed", "wind.speed");
    var clouds :- Entry(Lookup(data, "clouds"), "all", "clouds.all");
    var sunrise :- NumberEntry(sys, "sunrise", "sys.sunrise");
    var sunset :- NumberEntry(sys, "sunset", "sys.sunset");
    var extras :- Extras(data);
    LabelsFollowUnits(units);
    Success(WeatherRecord(
      capitalize(city), lat, lon, country, dt,
      temp.0, GetColor(temp.1, colorUnit).value, labels.temperature,
      capitalize(desc), icon,
      tempMax.0, GetColor(tempMax.1, colorUnit).value,
      tempMin.0, GetColor(tempMin.1, colorUnit).value,
      speed, labels.speed, clouds, sunrise.0, sunset.0,
      extras))
  }

  // Reference description of which responses `build_dict` accepts and what it keeps.

  /** `v` is a JSON object with entry `k`. */
  predicate HasEntry(v: Value, k: string)
  {
    v.Obj? && k in v.fields
  }

  /** `v` is a JSON object whose entry `k` is a number (or a boolean, which Python counts as one). */
  predicate NumberAt(v: Value, k: string)
  {
    HasEntry(v, k) && (v.fields[k].Num? || v.fields[k].Bool?)
  }

  /** `v` is a JSON object whose entry `k` is a string. */
  predicate StringAt(v: Value, k: string)
  {
    HasEntry(v, k) && v.fields[k].Str?
  }

  /** The `rain`/`snow` entry, if any, can be searched for "1h" and "3h" without
      error, and whatever it is found in can be indexed: an object always, a
      string or list only when neither window occurs in it. */
  predicate PrecipitationReadable(data: map<string, Value>, kind: string)
  {
    kind !in data
    || data[kind].Obj?
    || (data[kind].Str? && !IsSubstring("1h", data[kind].s) && !IsSubstring("3h", data[kind].s))
    || (data[kind].Arr? && Str("1h") !in data[kind].items && Str("3h") !in data[kind].items)
  }

  /** Every field the record needs is present with a usable shape. */
  predicate Readable(data: map<string, Value>)
  {
    && "coord" in data && HasEntry(data["coord"], "lat") && HasEntry(data["coord"], "lon")
    && "sys" in data && data["sys"].Obj?
    && "dt" in data && (data["dt"].Num? || data["dt"].Bool?)
    && "main" in data && NumberAt(data["main"], "temp")
    && NumberAt(data["main"], "temp_max") && NumberAt(data["main"], "temp_min")
    && "weather" in data && data["weather"].Arr? && |data["weather"].items| > 0
    && StringAt(data["weather"].items[0], "description")
    && StringAt(data["weather"].items[0], "icon")
    && GetIcon(data["weather"].items[0].fields["icon"].s).Some?
    && "wind" in data && HasEntry(data["wind"], "speed")
    && "clouds" in data && HasEntry(data["clouds"], "all")
    && NumberAt(data["sys"], "sunrise") && NumberAt(data["sys"], "sunset")
    && PrecipitationReadable(data, "rain") && PrecipitationReadable(data, "snow")
  }

  /** `<kind>_<window>` is in the record exactly when the response holds an object
      `kind` with entry `window`, and then carries that entry's value. */
  predicate Carries(extra: map<string, Value>, data: map<string, Value>, kind: string, window: string)
  {
    && (EntryName(kind, window) in extra <==> kind in data && HasEntry(data[kind], window))
    && (EntryName(kind, window) in extra ==> extra[EntryName(kind, window)] == data[kind].fields[window])
  }

  /** The colour of a numeric JSON value under `unit`. */
  function ColorOf(v: Value, unit: string): Color
    requires v.Num? || v.Bool?
  {
    GetColor(Number(v).value, unit).value
  }

  /** What a record built from a readable response holds: the unit labels of the
      token, colours computed in the label's unit, the provider's values passed
      through, and only the four optional precipitation entries. */
  predicate Projects(data: map<string, Value>, units: string, city: string,
                     capitalize: string -> string, rec: WeatherRecord)
    requires Readable(data)
  {
    var main := data["main"].fields;
    var unit := if units == "m" then "C" else "F";
    && rec.city == capitalize(city)
    && rec.unit == [Degree] + unit
    && rec.speedUnit == (if units == "m" then "m/s" else "miles/h")
    && rec.lat == data["coord"].fields["lat"] && rec.lon == data["coord"].fields["lon"]
    && rec.country == Lookup(data["sys"].fields, "country")
    && rec.observedAt == data["dt"]
    && rec.temp == main["temp"] && rec.tempColor == ColorOf(main["temp"], unit)
    && rec.tempMax == main["temp_max"] && rec.tempMaxColor == ColorOf(main["temp_max"], unit)
    && rec.tempMin == main["temp_min"] && rec.tempMinColor == ColorOf(main["temp_min"], unit)
    && rec.description == capitalize(data["weather"].items[0].fields["description"].s)
    && Some(rec.icon) == GetIcon(data["weather"].items[0].fields["icon"].s)
    && rec.windSpeed == data["wind"].fields["speed"]
    && rec.clouds == data["clouds"].fields["all"]
    && rec.sunrise == data["sys"].fields["sunrise"] && rec.sunset == data["sys"].fields["sunset"]
    && rec.precipitation.Keys <= {"rain_1h", "rain_3h", "snow_1h", "snow_3h"}
    && Carries(rec.precipitation, data, "rain", "1h") && Carries(rec.precipitation, data, "rain", "3h")
    && Carries(rec.precipitation, data, "snow", "1h") && Carries(rec.precipitation, data, "snow", "3h")
  }
}
