/** The configuration file as `load_config` (weather.py:47-78) and `save_config`
    (weather.py:24-44) use it: sections of options, read from and written to
    `config.ini`. The file's text format is not modelled; a file is its map. */
module Config {
  import opened Wrappers
  import opened Url

  /** The options of one section, by name. */
  type Section = map<string, string>

  /** A configuration file: its sections by name. */
  type ConfigFile = map<string, Section>

  const Main: string := "MAIN"
  const Api: string := "API"

  /** The answers `Prompt.ask` accepts for the units system. */
  const UnitChoices: set<string> := {"metric", "m", "imperial", "i"}

  /** The arguments handed to `fetch_and_display`: city, units token and API key. */
  datatype Request = Request(city: string, units: string, key: string)

  /** How `load_config` ends, short of fetching. */
  datatype LoadOutcome =
    | NoFile                                   // no config.ini: go to `save_config`
    | MissingSection(section: string)          // NoSectionError: offer to recreate
    | MissingOption(section: string, option: string) // NoOptionError: not caught, the program aborts
    | MissingData                              // a stored value fails the check: offer to recreate
    | Ready(request: Request)                  // fetch with these arguments

  /** The check of weather.py:60: a city, a one-character unit token and a key. */
  predicate Acceptable(city: string, units: string, key: string)
  {
    |city| > 0 && |units| == 1 && |key| > 0
  }

  /** `config.get(section, option)`: the stored value, or the error ConfigParser raises. */
  function Read(file: ConfigFile, section: string, option: string): Result<string, LoadOutcome>
  {
    if section !in file then Failure(MissingSection(section))
    else if option !in file[section] then Failure(MissingOption(section, option))
    else Success(file[section][option])
  }

  /** The file holds all three options `load_config` reads. */
  predicate Stored(f: ConfigFile)
  {
    Main in f && "city" in f[Main] && "units" in f[Main] && Api in f && "key" in f[Api]
  }

  /** `load_config`: reads city, units and key in that order, then checks them.
      The first read that fails decides the outcome. */
  function LoadConfig(file: Option<ConfigFile>): (r: LoadOutcome)
    ensures file.None? <==> r == NoFile
    ensures r.Ready? <==> && file.Some? && Stored(file.value)
                          && Acceptable(file.value[Main]["city"], file.value[Main]["units"], file.value[Api]["key"])
    ensures r.Ready? ==> r.request == Request(file.value[Main]["city"], file.value[Main]["units"], file.value[Api]["key"])
    ensures r == MissingData <==> && file.Some? && Stored(file.value)
                                  && !Acceptable(file.value[Main]["city"], file.value[Main]["units"], file.value[Api]["key"])
    ensures file.Some? && Main !in file.value ==> r == MissingSection(Main)
    ensures file.Some? && Main in file.value && "city" !in file.value[Main] ==> r == MissingOption(Main, "city")
    ensures (file.Some? && Main in file.value && "city" in file.value[Main] && "units" !in file.value[Main])
            ==> r == MissingOption(Main, "units")
    ensures (file.Some? && Main in file.value && "city" in file.value[Main] && "units" in file.value[Main]
             && Api !in file.value)
            ==> r == MissingSection(Api)
    ensures (file.Some? && Main in file.value && "city" in file.value[Main] && "units" in file.value[Main]
             && Api in file.value && "key" !in file.value[Api])
            ==> r == MissingOption(Api, "key")
  {
    match file
    case None => NoFile
    case Some(f) =>
      match Read(f, Main, "city")
      case Failure(e) => e
      case Success(city) =>
        match Read(f, Main, "units")
        case Failure(e) => e
        case Success(units) =>
          match Read(f, Api, "key")
          case Failure(e) => e
          case Success(key) =>
            if !Acceptable(city, units, key) then MissingData else Ready(Request(city, units, key))
  }

  /** The effect of `save_config`: the file it writes, whether it asked for a key,
      and the arguments it hands to `fetch_and_display`. */
  datatype SaveOutcome = SaveOutcome(file: ConfigFile, askedForKey: bool, request: Request)

  /** `save_config` as written, given the file it reads (empty when there is none)
      and the prompt answers; `answeredKey` is used only if the key prompt is shown. */
  function SaveConfig(prior: ConfigFile, city: string, units: string, answeredKey: string): (r: SaveOutcome)
    requires units in UnitChoices
    ensures r.file.Keys == prior.Keys + {Main, Api}
    ensures forall s :: s in prior && s != Main && s != Api ==> r.file[s] == prior[s]
    ensures r.file[Main] == map["city" := city, "units" := units[..1]]
    ensures "key" in r.file[Api]
    ensures r.askedForKey <==> !(Api in prior && "key" in prior[Api])
    ensures !r.askedForKey ==> r.file[Api] == prior[Api]
    ensures r.askedForKey ==> r.file[Api]["key"] == answeredKey
    ensures r.askedForKey ==> r.file[Api] == (if Api in prior then prior[Api] else map[])["key" := answeredKey]
    ensures r.request == Request(city, units, r.file[Api]["key"])
  {
    assert units[..1] == [units[0]];
    var api := if Api in prior then prior[Api] else map[];
    var asked := "key" !in api;
    var api' := if asked then api["key" := answeredKey] else api;
    var file := prior[Main := map["city" := city, "units" := [units[0]]]][Api := api'];
    SaveOutcome(file, asked, Request(city, units, api'["key"]))
  }

  /** What `save_config` stores is what the next `load_config` reads back: the
      city, the first letter of the units, and the key; it is accepted exactly
      when the city and the key are non-empty. */
  lemma SaveThenLoad(prior: ConfigFile, city: string, units: string, answeredKey: string)
    requires units in UnitChoices
    ensures var saved := SaveConfig(prior, city, units, answeredKey);
      LoadConfig(Some(saved.file)) ==
        if city != "" && saved.request.key != "" then Ready(Request(city, units[..1], saved.request.key))
        else MissingData
  {
  }

  /** An already stored key survives every save, whatever the prompt would have said. */
  lemma StoredKeySurvives(prior: ConfigFile, city: string, units: string, k1: string, k2: string)
    requires units in UnitChoices
    requires Api in prior && "key" in prior[Api]
    ensures SaveConfig(prior, city, units, k1) == SaveConfig(prior, city, units, k2)
    ensures SaveConfig(prior, city, units, k1).request.key == prior[Api]["key"]
  {
  }

  /** As written, answering "metric" makes the first fetch ask the provider for
      imperial units, while the file stores "m" and every later run asks for metric. */
  lemma FirstRunMetricRequestsImperial(prior: ConfigFile, city: string, answeredKey: string)
    ensures var saved := SaveConfig(prior, city, "metric", answeredKey);
      && UnitsToken(saved.request.units) == "imperial"
      && UnitsToken(saved.file[Main]["units"]) == "metric"
  {
  }

  /** As written, a stored empty key is kept by every save, so the file the user
      is offered to recreate is rejected again, whatever they answer. */
  lemma EmptyStoredKeyIsNeverReplaced(prior: ConfigFile, city: string, units: string, answeredKey: string)
    requires units in UnitChoices
    requires Api in prior && "key" in prior[Api] && prior[Api]["key"] == ""
    ensures LoadConfig(Some(SaveConfig(prior, city, units, answeredKey).file)) == MissingData
  {
  }

  /** `save_config` as intended: the fetch uses the stored one-letter token, and
      the key prompt is shown when no usable (non-empty) key is stored. */
  function SaveConfigIntended(prior: ConfigFile, city: string, units: string, answeredKey: string): (r: SaveOutcome)
    requires units in UnitChoices
    ensures r.file.Keys == prior.Keys + {Main, Api}
    ensures forall s :: s in prior && s != Main && s != Api ==> r.file[s] == prior[s]
    ensures r.file[Main] == map["city" := city, "units" := units[..1]]
    ensures "key" in r.file[Api]
    ensures r.askedForKey <==> !(Api in prior && "key" in prior[Api] && prior[Api]["key"] != "")
    ensures !r.askedForKey ==> r.file[Api] == prior[Api]
    ensures r.askedForKey ==> r.file[Api]["key"] == answeredKey
    ensures r.askedForKey ==> r.file[Api] == (if Api in prior then prior[Api] else map[])["key" := answeredKey]
    ensures r.request == Request(city, units[..1], r.file[Api]["key"])
  {
    assert units[..1] == [units[0]];
    var api := if Api in prior then prior[Api] else map[];
    var asked := "key" !in api || api["key"] == "";
    var api' := if asked then api["key" := answeredKey] else api;
    var file := prior[Main := map["city" := city, "units" := [units[0]]]][Api := api'];
    SaveOutcome(file, asked, Request(city, [units[0]], api'["key"]))
  }

  /** With the intended save, the fetch right after saving is the fetch every later
      run makes: the next load reads back exactly the request just used. */
  lemma IntendedSaveMatchesNextLoad(prior: ConfigFile, city: string, units: string, answeredKey: string)
    requires units in UnitChoices
    ensures var saved := SaveConfigIntended(prior, city, units, answeredKey);
      city != "" && saved.request.key != "" ==> LoadConfig(Some(saved.file)) == Ready(saved.request)
  {
  }

  /** With the intended save, a city and a non-empty answer always give a file the
      next load accepts, even when an empty key was stored. */
  lemma IntendedSaveRepairsEmptyKey(prior: ConfigFile, city: string, units: string, answeredKey: string)
    requires units in UnitChoices
    requires city != "" && answeredKey != ""
    ensures LoadConfig(Some(SaveConfigIntended(prior, city, units, answeredKey).file)).Ready?
  {
  }
}
