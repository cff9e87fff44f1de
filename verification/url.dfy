/** The request URL of `build_url` (weather.py:81-99), and a reference reader
    that takes the query back apart into its name/value parameters. */
module Url {
  import opened Wrappers
  import opened Text

  /** Scheme, host and path of the current-weather endpoint, up to the query. */
  const Endpoint: string := "http://api.openweathermap.org/data/2.5/weather?"

  /** The provider's unit token: only the exact stored token "m" asks for metric. */
  function UnitsToken(unit: string): (token: string)
    ensures token == "metric" || token == "imperial"
    ensures token == "metric" <==> unit == "m"
  {
    if unit == "m" then "metric" else "imperial"
  }

  /** The request URL for `city`, unit token `unit` and API key `key`.
      City and key are inserted verbatim: nothing is percent-encoded. */
  function BuildUrl(city: string, unit: string, key: string): (url: string)
    ensures |url| == |Endpoint| + |city| + |key| + |UnitsToken(unit)| + 26
    ensures url[..|Endpoint|] == Endpoint
    ensures url[|Endpoint|..|Endpoint| + 2] == "q="
    ensures url[|Endpoint| + 2..|Endpoint| + 2 + |city|] == city
    ensures url[|url| - |key|..] == key
  {
    Endpoint + "q=" + city + "&mode=json&units=" + UnitsToken(unit) + "&APPID=" + key
  }

  /** One query parameter: its name and its value. */
  type Param = (string, string)

  /** The parameters of a URL on the endpoint, read by a minimal reader: split
      at every '&', then each piece at its first '='. It does no `%XX` decoding,
      does not read '+' as a space and gives '#' no meaning; '&' is the only
      character it treats specially in a value. */
  function ReadQuery(url: string): (r: Option<seq<Param>>)
    ensures r.Some? <==> |url| >= |Endpoint| && url[..|Endpoint|] == Endpoint
    ensures r.Some? ==> |r.value| >= 1
  {
    if |url| >= |Endpoint| && url[..|Endpoint|] == Endpoint then
      Some(Params(Split(url[|Endpoint|..], '&')))
    else None
  }

  /** Each piece of a query cut at its first '=' into name and value. */
  function Params(pieces: seq<string>): seq<Param>
  {
    seq(|pieces|, i requires 0 <= i < |pieces| => Cut(pieces[i], '='))
  }

  /** The parameters `BuildUrl` means to send, in order. */
  function Intended(city: string, unit: string, key: string): seq<Param>
  {
    [("q", city), ("mode", "json"), ("units", UnitsToken(unit)), ("APPID", key)]
  }

  /** The four '&'-separated pieces of the query `BuildUrl` writes. */
  function Pieces(city: string, unit: string, key: string): seq<string>
  {
    ["q=" + city, "mode=json", "units=" + UnitsToken(unit), "APPID=" + key]
  }

  /** Four pieces joined: each separated from the next by one `sep`. */
  lemma JoinFour(a: string, b: string, c: string, d: string, sep: char)
    ensures Join([a, b, c, d], sep) == a + [sep] + b + [sep] + c + [sep] + d
  {
    assert [c, d][1..] == [d];
    assert Join([c, d], sep) == c + [sep] + d;
    assert [b, c, d][1..] == [c, d];
    assert Join([b, c, d], sep) == b + [sep] + (c + [sep] + d);
    assert [a, b, c, d][1..] == [b, c, d];
    assert Join([a, b, c, d], sep) == a + [sep] + (b + [sep] + (c + [sep] + d));
  }

  /** The literal text of the URL is the endpoint followed by the four pieces
      joined with '&', for any city, token and key. */
  lemma QueryText(city: string, tok: string, key: string)
    ensures Endpoint + "q=" + city + "&mode=json&units=" + tok + "&APPID=" + key
         == Endpoint + Join(["q=" + city, "mode=json", "units=" + tok, "APPID=" + key], '&')
  {
    JoinFour("q=" + city, "mode=json", "units=" + tok, "APPID=" + key, '&');
    assert "&mode=json&units=" == ['&'] + "mode=json" + ['&'] + "units=";
    assert "&APPID=" == ['&'] + "APPID=";
  }

  /** The query part of the URL is its pieces joined with '&'. */
  lemma QueryIsJoin(city: string, unit: string, key: string)
    ensures BuildUrl(city, unit, key) == Endpoint + Join(Pieces(city, unit, key), '&')
  {
    var tok := UnitsToken(unit);
    QueryText(city, tok, key);
  }

  /** A URL on the endpoint is read by splitting what follows the endpoint. */
  lemma ReadAfterEndpoint(query: string, pieces: seq<string>)
    requires Split(query, '&') == pieces
    ensures ReadQuery(Endpoint + query) == Some(Params(pieces))
  {
    var url := Endpoint + query;
    assert url[..|Endpoint|] == Endpoint;
    assert url[|Endpoint|..] == query;
  }

  /** When neither city nor key contains '&', the query reads back, under the
      minimal reader `ReadQuery`, as exactly the four intended parameters: city
      and key unchanged, units as chosen. A reader that also percent-decodes
      would change a city holding '%' or '+'; that reading is not modelled. */
  lemma QueryRoundTrip(city: string, unit: string, key: string)
    requires '&' !in city && '&' !in key
    ensures ReadQuery(BuildUrl(city, unit, key)) == Some(Intended(city, unit, key))
  {
    var tok := UnitsToken(unit);
    var pieces := Pieces(city, unit, key);
    var query := Join(pieces, '&');
    QueryIsJoin(city, unit, key);
    assert Split(query, '&') == pieces by {
      assert '&' !in pieces[0] && '&' !in pieces[1] && '&' !in pieces[2] && '&' !in pieces[3];
      SplitJoin(pieces, '&');
    }
    ReadAfterEndpoint(query, pieces);
    CutEach(city, tok, key);
  }

  /** The four pieces are cut into the four intended parameters. */
  lemma CutEach(city: string, tok: string, key: string)
    ensures Params(["q=" + city, "mode=json", "units=" + tok, "APPID=" + key])
         == [("q", city), ("mode", "json"), ("units", tok), ("APPID", key)]
  {
    var params := Params(["q=" + city, "mode=json", "units=" + tok, "APPID=" + key]);
    assert params[0] == ("q", city) by {
      CutLiteral("q=", city);
      assert "q="[..1] == "q";
    }
    assert params[1] == ("mode", "json") by {
      CutLiteral("mode=", "json");
      assert "mode="[..4] == "mode" && "mode=" + "json" == "mode=json";
    }
    assert params[2] == ("units", tok) by {
      CutLiteral("units=", tok);
      assert "units="[..5] == "units";
    }
    assert params[3] == ("APPID", key) by {
      CutLiteral("APPID=", key);
      assert "APPID="[..5] == "APPID";
    }
  }

  /** A piece `name=value` with no '=' in the name is cut back into name and value. */
  lemma CutParam(name: string, value: string)
    requires '=' !in name
    ensures Cut(name + "=" + value, '=') == (name, value)
  {
    assert name + "=" + value == name + ['='] + value;
    CutAfterPrefix(name, value, '=');
  }

  /** A piece written as a literal `name=` followed by a value is cut back into
      the name and the value. */
  lemma CutLiteral(prefix: string, value: string)
    requires |prefix| > 0 && prefix[|prefix| - 1] == '=' && '=' !in prefix[..|prefix| - 1]
    ensures Cut(prefix + value, '=') == (prefix[..|prefix| - 1], value)
  {
    var name := prefix[..|prefix| - 1];
    assert prefix + value == name + "=" + value;
    CutParam(name, value);
  }

  /** A city containing '&' is not what the server reads back as `q`: the first
      '&' in the city ends the parameter, so the city is not recovered. */
  lemma AmpersandInCityIsLost(city: string, unit: string, key: string)
    requires '&' in city
    ensures ReadQuery(BuildUrl(city, unit, key)).value[0] != ("q", city)
  {
    var url := BuildUrl(city, unit, key);
    var pieces := Split(url[|Endpoint|..], '&');
    var first := Cut(pieces[0], '=');
    CutParts(pieces[0], '=');
    assert '&' !in first.1 by {
      if '=' in pieces[0] {
        forall j | 0 <= j < |first.1|
          ensures first.1[j] != '&'
        {
          assert first.1[j] == pieces[0][|first.0| + 1 + j];
        }
      }
    }
  }
}
