/** `fetch_and_display` (weather.py:282-294) without the network and the
    terminal: the URL it requests, and the record it builds from the response
    the provider returned for that URL. */
module Pipeline {
  import opened Wrappers
  import opened Json
  import opened Url
  import opened Record
  import opened Config
  import Display
  import Text

  /** What one run shows: the URL fetched and the record built from the reply. */
  datatype Shown = Shown(url: string, record: WeatherRecord)

  /** The URL for `request`, and the record built from `response`, the decoded
      body the provider sent back for it. */
  function FetchAndDisplay(request: Request, response: map<string, Value>, capitalize: string -> string)
    : (r: Result<Shown, string>)
    ensures r.Success? <==> Readable(response)
    ensures r.Success? ==>
      (UnitsToken(request.units) == "metric" <==> r.value.record.unit == [Degree] + "C")
    ensures r.Success? ==> r.value.url == BuildUrl(request.city, request.units, request.key)
    ensures r.Success? ==> Projects(response, request.units, request.city, capitalize, r.value.record)
    ensures r.Success? ==> r.value.record.city == capitalize(request.city)
  {
    var url := BuildUrl(request.city, request.units, request.key);
    var record :- BuildDict(response, request.units, request.city, capitalize);
    Success(Shown(url, record))
  }

  /** A clear day in London, requested in metric units. */
  function LondonReply(): map<string, Value>
  {
    map[
      "coord" := Obj(map["lat" := Num(51.51), "lon" := Num(-0.13)]),
      "sys" := Obj(map["country" := Str("GB"), "sunrise" := Num(1600000000.0), "sunset" := Num(1600040000.0)]),
      "dt" := Num(1600020000.0),
      "main" := Obj(map["temp" := Num(15.2), "temp_max" := Num(17.0), "temp_min" := Num(13.5)]),
      "weather" := Arr([Obj(map["description" := Str("clear sky"), "icon" := Str("01d")])]),
      "wind" := Obj(map["speed" := Num(3.6)]),
      "clouds" := Obj(map["all" := Num(0.0)])
    ]
  }

  /** Every field the London reply needs is there. */
  lemma LondonIsReadable()
    ensures Readable(LondonReply())
  {
    assert Display.GetIcon("01d") == Some(":sun:") by {
      assert Text.DropLast("01d") == "01";
    }
  }

  /** The London request asks for metric units and carries city and key unchanged. */
  lemma LondonRequest(capitalize: string -> string)
    ensures var r := FetchAndDisplay(Request("london", "m", "VALIDKEY"), LondonReply(), capitalize);
      && r.Success?
      && ReadQuery(r.value.url) == Some([("q", "london"), ("mode", "json"), ("units", "metric"), ("APPID", "VALIDKEY")])
  {
    LondonIsReadable();
    QueryRoundTrip("london", "m", "VALIDKEY");
  }

  /** The London temperature: 15.2 labelled in degrees Celsius, with the colour
      of the [4,16) band. */
  lemma LondonTemperature(capitalize: string -> string)
    ensures var r := FetchAndDisplay(Request("london", "m", "VALIDKEY"), LondonReply(), capitalize);
      && r.Success?
      && r.value.record.temp == Num(15.2) && r.value.record.unit == [Degree] + "C"
      && r.value.record.tempColor == Display.BrightGreen
  {
    LondonIsReadable();
  }

  /** The London conditions: the sun icon for code "01d", and the country as the
      provider sent it. */
  lemma LondonConditions(capitalize: string -> string)
    ensures var r := FetchAndDisplay(Request("london", "m", "VALIDKEY"), LondonReply(), capitalize);
      && r.Success?
      && r.value.record.icon == ":sun:"
      && r.value.record.country == Str("GB")
  {
    LondonIsReadable();
    assert Display.GetIcon("01d") == Some(":sun:") by {
      assert Text.DropLast("01d") == "01";
    }
  }

  /** The London reply has no `rain` or `snow`, so its record has no precipitation entries. */
  lemma LondonHasNoPrecipitation(capitalize: string -> string)
    ensures var r := FetchAndDisplay(Request("london", "m", "VALIDKEY"), LondonReply(), capitalize);
      && r.Success?
      && r.value.record.precipitation == map[]
  {
    LondonIsReadable();
    var data := LondonReply();
    assert "rain" !in data && "snow" !in data;
    assert EntryName("rain", "1h") == "rain_1h" && EntryName("rain", "3h") == "rain_3h";
    assert EntryName("snow", "1h") == "snow_1h" && EntryName("snow", "3h") == "snow_3h";
  }
}
