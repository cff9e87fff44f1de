/** The two presentation lookups of the weather record: the colour band of a
    temperature (`get_color`, weather.py:168-191) and the emoji of a provider
    icon code (`get_icon`, weather.py:146-165). */
module Display {
  import opened Wrappers
  import opened Text

  /** The five colours `get_color` can name, coldest band first. */
  datatype Color = BrightCyan | BrightGreen | BrightYellow | DarkOrange3 | Red3 {

    /** The string `get_color` returns for the colour, as the terminal renderer
        spells it. */
    function Name(): string
    {
      match this
      case BrightCyan => "bright_cyan"
      case BrightGreen => "bright_green"
      case BrightYellow => "bright_yellow"
      case DarkOrange3 => "dark_orange3"
      case Red3 => "red3"
    }

    /** Position of the band on the temperature scale, coldest first. */
    function Rank(): nat
    {
      match this
      case BrightCyan => 0
      case BrightGreen => 1
      case BrightYellow => 2
      case DarkOrange3 => 3
      case Red3 => 4
    }
  }

  /** The temperature on the Celsius scale as `get_color` reads it: only the unit
      character "F" converts; every other unit is taken as Celsius already. */
  function Celsius(temp: real, unit: string): (c: real)
    ensures unit == "F" ==> c * 1.8 + 32.0 == temp
    ensures unit != "F" ==> c == temp
  {
    if unit == "F" then (temp - 32.0) / 1.8 else temp
  }

  /** `get_color`: the chain of threshold tests, falling through to Python's
      implicit `None` when no test matches. Over the reals no temperature falls
      through, and the bands are the half-open intervals below. */
  function GetColor(temp: real, unit: string): (r: Option<Color>)
    ensures r.Some?
    ensures var c := Celsius(temp, unit);
      && (r.value == BrightCyan <==> c < 4.0)
      && (r.value == BrightGreen <==> 4.0 <= c < 16.0)
      && (r.value == BrightYellow <==> 16.0 <= c < 21.0)
      && (r.value == DarkOrange3 <==> 21.0 <= c < 31.0)
      && (r.value == Red3 <==> 31.0 <= c)
  {
    var t := Celsius(temp, unit);
    if t < 4.0 then Some(BrightCyan)
    else if t > 3.0 && t < 16.0 then Some(BrightGreen)
    else if t > 15.0 && t < 21.0 then Some(BrightYellow)
    else if t > 20.0 && t < 31.0 then Some(DarkOrange3)
    else if t > 30.0 then Some(Red3)
    else None
  }

  /** The five strings `get_color` returns are distinct, so the returned name
      identifies the band. */
  lemma NamesIdentifyBands(a: Color, b: Color)
    ensures a.Name() == b.Name() <==> a == b
  {
  }

  /** A warmer reading never gets a colder band. */
  lemma ColorMonotone(t1: real, t2: real, unit: string)
    requires t1 <= t2
    ensures GetColor(t1, unit).value.Rank() <= GetColor(t2, unit).value.Rank()
  {
  }

  /** A Celsius reading and the same temperature in Fahrenheit get the same band. */
  lemma FahrenheitAgreesWithCelsius(c: real)
    ensures GetColor(c * 1.8 + 32.0, "F") == GetColor(c, "C")
  {
  }

  /** The icon codes the provider documents, without the day/night suffix. */
  const Icons: map<string, string> := map[
    "01" := ":sun:",
    "02" := ":sun_behind_cloud:",
    "03" := ":cloud:",
    "04" := ":cloud:",
    "09" := ":cloud_with_rain:",
    "10" := ":sun_behind_rain_cloud:",
    "11" := ":cloud_with_lightning:",
    "13" := ":snowflake:",
    "50" := ":droplet:"
  ]

  /** `get_icon`: the emoji for an icon code such as "10n", looked up with the
      last character dropped; an unknown code raises a KeyError, here `None`. */
  function GetIcon(icon: string): (r: Option<string>)
    ensures r.Some? <==> |icon| == 3 && icon[..2] in {"01", "02", "03", "04", "09", "10", "11", "13", "50"}
    ensures r.Some? ==> r.value == Icons[icon[..2]]
  {
    var code := DropLast(icon);
    if code in Icons then Some(Icons[code]) else None
  }

  /** The day/night suffix does not matter: only the first two characters do. */
  lemma {:induction false} IconIgnoresSuffix(code: string, day: char, night: char)
    ensures GetIcon(code + [day]) == GetIcon(code + [night])
  {
    assert DropLast(code + [day]) == code;
    assert DropLast(code + [night]) == code;
  }

  /** Scattered and broken clouds share an icon; every other pair of codes differs. */
  lemma IconsDistinctExceptClouds(a: string, b: string)
    requires a in Icons && b in Icons && a != b
    ensures Icons[a] == Icons[b] <==> {a, b} == {"03", "04"}
  {
  }
}
