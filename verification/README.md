# weather — a Dafny model of the command-line weather client

`weather.py` is a small command-line client for the OpenWeatherMap
current-weather API. It keeps a city, a unit system and an API key in
`config.ini`, builds the request URL, fetches the JSON reply, projects it onto
a display record and prints that record. This project models the
deterministic decisions in that pipeline as pure Dafny functions and proves
properties about them:

- **Request URL** (`Url`). `build_url` concatenates the endpoint, the city, a
  unit token and the key. Only the stored token `"m"` selects `metric`; every
  other token selects `imperial`. A minimal reference reader (`ReadQuery`)
  splits the query at `&` and each parameter at its first `=`; it does no
  percent-decoding and gives `+` and `#` no meaning, so `&` is the only
  character the round trip considers. It reads the URL back as
  exactly the four parameters `q`, `mode`, `units` and `APPID`, provided
  neither the city nor the key contains `&`. The city is inserted without
  percent-encoding, so a city that does contain `&` is cut short when the
  query is read (`AmpersandInCityIsLost`).
- **Temperature colour and icon** (`Display`). `get_color` is a chain of
  `if` tests over a Celsius reading. Only the unit `"F"` is converted first.
  Over the reals the chain leaves no gap: every real temperature gets one of five
  colours in half-open bands (below 4, [4,16), [16,21), [21,31), 31 and
  above). The bands are monotone, and a Fahrenheit reading gets the same band
  as the same temperature in Celsius. `get_icon` looks up the icon code minus
  its last character. It succeeds exactly for three-character codes whose
  first two characters are one of nine known codes.
- **Display record** (`Record`). `build_dict` reads the nested fields of the
  decoded reply. It succeeds exactly when every field it needs is present
  with a usable shape (`Readable`). The record carries the unit labels of the
  unit token (`°C`/`m/s` only for `"m"`), colours computed in the label's
  unit, and the provider's values unchanged. The optional `rain_1h`,
  `rain_3h`, `snow_1h` and `snow_3h` entries appear exactly when the reply
  holds the outer object with the inner key. Python's `in` on a string or a
  list, and the TypeError that `in` raises on other values, are modelled as
  the source has them.
- **Configuration** (`Config`). `load_config` reads `MAIN.city`,
  `MAIN.units` and `API.key` in that order. It accepts them when the city is
  non-empty, the unit token has exactly one character and the key is
  non-empty. `save_config` replaces `MAIN` wholesale and stores the first
  letter of the unit answer. It keeps a stored key and asks for a key only
  when none is stored.
- **One run** (`Pipeline`). `fetch_and_display` is modelled with the
  provider's reply as a parameter. The unit system requested in the URL and
  the labels of the record always agree. A worked example, a clear day in
  London requested in metric units, is followed from the request to the
  record.

Errors the source raises as Python exceptions are `None`/`Failure` values.
`build_dict` fails with the name of the field it was reading. `load_config`
distinguishes a missing file, a missing section (NoSectionError, which the
source offers to repair), a missing option (NoOptionError, which the source
does not catch, so the program aborts) and a value that fails the check.

Three points of the code's behaviour that are easy to misread:

- The colour thresholds overlap rather than leave gaps: `temp < 4` is
  followed by `temp > 3 and temp < 16` and so on, so over the reals every
  temperature is coloured (`Display.GetColor` proves `r.Some?`).
- Only a missing section is caught by `load_config`; a missing option inside
  a present section raises an uncaught NoOptionError
  (`LoadOutcome.MissingOption`).
- A save followed by a load does not return the answers unchanged: the load
  returns `units[..1]` and the stored key (`Config.SaveThenLoad`).

## Model

| member | source | states |
|---|---|---|
| Url.UnitsToken | weather.py:93-97 | the token is `metric` or `imperial`, and it is `metric` exactly when the stored unit is the one-character string `"m"` |
| Url.BuildUrl | weather.py:81-99 | the URL starts with the endpoint followed by `q=`, has the city verbatim right after `q=`, ends with the key verbatim, and has the length of those parts plus the token and the fixed separators; the exact text between city and key is stated by `Url.QueryIsJoin` |
| Url.QueryIsJoin | weather.py:93-98 | the URL is exactly the endpoint followed by `q=<city>`, `mode=json`, `units=<token>` and `APPID=<key>`, joined with `&` |
| Url.QueryRoundTrip | weather.py:93-98 | with no `&` in city or key, the query reads back as exactly `q`=city, `mode`=`json`, `units`=token, `APPID`=key, in that order |
| Url.AmpersandInCityIsLost | weather.py:98 | a city containing `&` is not recovered as the `q` parameter, because the city is not percent-encoded |
| Display.Celsius | weather.py:180-181 | only the unit `"F"` is converted, and the converted value maps back to the input under `c * 1.8 + 32`; any other unit is read unchanged |
| Display.GetColor | weather.py:168-191 | no temperature falls through the chain of tests; the colour is determined by half-open Celsius bands: cyan below 4, green [4,16), yellow [16,21), orange [21,31), red from 31 |
| Display.NamesIdentifyBands | weather.py:182-191 | the five colour names `get_color` returns are pairwise distinct, so the returned string identifies the band |
| Display.ColorMonotone | weather.py:182-191 | a warmer reading never gets a colder band |
| Display.FahrenheitAgreesWithCelsius | weather.py:180-191 | a temperature given in Fahrenheit gets the same colour as the same temperature given in Celsius |
| Text.DropLast | weather.py:165 | Python's `icon[:-1]`: a non-empty string loses exactly its last character, and the empty string stays empty |
| Display.GetIcon | weather.py:146-165 | the lookup succeeds exactly for a three-character code whose first two characters are one of `01 02 03 04 09 10 11 13 50`, and yields the table's icon for those two characters (so `03x` and `04x` both give `:cloud:`) |
| Display.IconIgnoresSuffix | weather.py:165 | the last character of the code (day/night) does not change the icon |
| Display.IconsDistinctExceptClouds | weather.py:156-164 | two different codes share an icon exactly when they are `03` and `04` |
| Record.LabelsFollowUnits | weather.py:210-213 | the labels are `°C`/`m/s` exactly for `"m"` and `°F`/`miles/h` for every other token; the colour unit taken from the label's last character is `C` or `F` accordingly |
| Record.Window | weather.py:236-239 | an optional `<kind>_<window>` entry is added exactly when the value holds `window` as a dict key; a string or list that contains the window raises, and other non-containers raise |
| Record.Precipitation | weather.py:235-239 | only the `_1h` and `_3h` entries of one kind are added, each exactly when the reply has that kind as an object with that key, carrying its value |
| Record.Extras | weather.py:235-244 | the optional entries are among `rain_1h rain_3h snow_1h snow_3h`, each present exactly when the reply has the outer object with the inner key |
| Record.BuildDict | weather.py:194-245 | succeeds exactly on replies that have every needed field with a usable shape; the record has the token's labels, colours in the label's unit, and the reply's values unchanged |
| Config.LoadConfig | weather.py:47-64 | a run is ready exactly when the file exists, holds `MAIN.city`, `MAIN.units` and `API.key`, and they pass the check (non-empty city, one-character units, non-empty key); it is rejected by the check exactly when all three are present but fail it; otherwise the first missing item in the read order `MAIN.city`, `MAIN.units`, `API.key` is reported, as a missing section or a missing option |
| Config.SaveConfig | weather.py:24-44 | MAIN is replaced by exactly `city` and the first letter of the units, other sections are kept, a stored key is kept, the key prompt is shown exactly when no key is stored, in which case the API section is the prior one (or a new one) with only `key` set to the answer, and the fetch gets the unshortened units |
| Config.SaveThenLoad | weather.py:32-60 | the next load reads back the city, the one-letter units and the key that the save stored, and accepts them exactly when city and key are non-empty |
| Config.StoredKeySurvives | weather.py:34-39 | with a key stored, the key-prompt answer has no effect and the stored key is the one used |
| Config.FirstRunMetricRequestsImperial | weather.py:41-44 | answering `metric` makes the fetch right after saving request `imperial`, while the stored `m` makes later runs request `metric` |
| Config.EmptyStoredKeyIsNeverReplaced | weather.py:36-39 | with an empty key stored, the saved file is rejected by the next load, whatever the answers |
| Config.SaveConfigIntended | weather.py:24-44 | as `SaveConfig`, except that the fetch gets the stored one-letter token and the key prompt is also shown when the stored key is empty |
| Config.IntendedSaveMatchesNextLoad | weather.py:41-44 | with the intended save, the fetch right after saving uses exactly the arguments that the next load returns |
| Config.IntendedSaveRepairsEmptyKey | weather.py:36-39 | with the intended save, a non-empty city and a non-empty key answer always give a file that the next load accepts |
| Pipeline.FetchAndDisplay | weather.py:282-294 | the URL fetched is `build_url` of the request's city, units and key; the record is built exactly for readable replies and is `build_dict`'s projection of the reply; the unit system requested in the URL is metric exactly when the record's label is `°C` |
| Pipeline.LondonIsReadable | weather.py:206-244 | a typical reply for London (15.2 degrees, clear sky, icon `01d`, country `GB`) has every field the record needs |
| Pipeline.LondonRequest | weather.py:291 | the London request with stored units `m` reads back as `q=london`, `mode=json`, `units=metric`, `APPID=VALIDKEY` |
| Pipeline.LondonTemperature | weather.py:293 | the London record shows 15.2 with the label `°C` and the colour of the [4,16) band |
| Pipeline.LondonConditions | weather.py:293 | the London record shows the sun icon for code `01d` and the country `GB` |
| Pipeline.LondonHasNoPrecipitation | weather.py:293 | the London reply, which has no `rain` or `snow`, gives a record without any precipitation entry |

## Left out

- `fetch_data` and `urlopen`: network I/O. The decoded reply is a parameter of `Pipeline.FetchAndDisplay`. The HTTP 401/404 handling is left out too, because it only turns status codes into prompts and `exit`.
- File I/O and ConfigParser's text format: the file is its section map. Whitespace stripping, `%` interpolation, the `DEFAULT` section and option-name lower-casing are therefore not modelled.
- `Prompt.ask`: its answers are parameters. The unit answer is restricted to the four choices the prompt enforces.
- The control flow after a failed load or fetch: the yes/no prompts, the recursive calls to `save_config`, and the `exit(1)` calls. This is process control, not data logic.
- `convert_time`: it formats timestamps in the host's local time zone. The record keeps the provider's raw timestamps; only their presence and numeric type are checked, as `fromtimestamp` requires.
- `str.capitalize`: Unicode case mapping is library behaviour, so it is a function parameter.
- The wind-speed f-string: the record keeps the raw speed value and the speed label separately.
- `display`, `args` and `main`: terminal rendering with `rich`, and `argparse`.
- Float semantics: temperatures are Dafny `real`, so the IEEE rounding of `(temp-32)/1.8` near a band boundary is not modelled. Neither are `NaN` and `Infinity`, which Python's `json.loads` accepts: with `NaN` every test of `get_color` is false and it returns `None`, so "every temperature gets a colour" is a claim over the reals only.
- Record.BuildDict: fails with the name of the field it was reading. It does not distinguish Python's KeyError, TypeError, AttributeError and IndexError. An OverflowError from `fromtimestamp` on an out-of-range timestamp is not modelled.

## Findings

| source | as written | input that shows it | evidently intended | confidence | as-written member | corrected member |
|---|---|---|---|---|---|---|
| weather.py:41-44 | `save_config` stores `units[0]` but calls `fetch_and_display(city, units, key)` with the full answer, and `build_url` treats anything but `"m"` as imperial | answering `metric` at the units prompt: the first fetch requests `units=imperial` and labels `°F`, while later runs request `metric` | pass the stored one-letter token to the fetch | high (not executed) | Config.FirstRunMetricRequestsImperial | Config.SaveConfigIntended, proved by Config.IntendedSaveMatchesNextLoad |
| weather.py:36-39 | `save_config` asks for a key only when the option is absent, while `load_config` rejects an empty key (weather.py:60) | a file with `API.key` empty: "Create config now?" saves a file that is rejected again, whatever the answers | ask for the key when the stored one is missing or empty | medium (not executed) | Config.EmptyStoredKeyIsNeverReplaced | Config.SaveConfigIntended, proved by Config.IntendedSaveRepairsEmptyKey |
