/**
 * The Transform stage: each raw observation is enriched with its derived
 * labels and a one-sentence summary, row by row, and an empty table is
 * reported as "no data".
 */
module Transform {
  import opened Wrappers
  import Text
  import Precipitation
  import Comfort
  import Wind
  import Cloud
  import Visibility

  /**
   * One raw observation, restricted to the columns the stage keeps. The
   * precipitation readings and the optional columns (wind speed, wind
   * direction, cloudiness, visibility) may be absent.
   */
  datatype Observation = Observation(
    cityName: string,
    countryCode: string,
    temperature: real,
    feelsLike: real,
    tempMin: real,
    tempMax: real,
    humidity: real,
    weatherDescription: string,
    rain1h: Option<real>,
    rain3h: Option<real>,
    snow1h: Option<real>,
    snow3h: Option<real>,
    windSpeed: Option<real>,
    windDirection: Option<real>,
    cloudiness: Option<real>,
    visibility: Option<real>)

  /** An observation with its description title-cased and the derived columns added. */
  datatype Enriched = Enriched(
    observation: Observation,
    precipitationType: Precipitation.Kind,
    chanceOfPrecipitation: Precipitation.Chance,
    precipitationIntensity: Precipitation.Intensity,
    humidityLevel: Comfort.Level,
    temperatureFeelDiff: real,
    windSpeedCategory: Option<Wind.Category>,
    windDirectionCardinal: Option<Wind.Point>,
    cloudCoverLevel: Option<Cloud.Level>,
    visibilityLevel: Option<Visibility.Level>,
    weatherSummary: string)

  /** How a temperature is written into the summary (the rounded float's text). */
  type Render = real -> string

  const Degrees: string := "\U{00B0}C"
  const Dash: string := " \U{2014} "

  /** The wind segment of the summary: the category label, or nothing when there is none. */
  function WindSegment(c: Option<Wind.Category>): string {
    match c
    case None => ""
    case Some(w) => w.Label()
  }

  /** The opening of every summary: the place the observation is for. */
  function Place(o: Observation): string {
    o.cityName + " (" + o.countryCode + "): "
  }

  /** The temperature part of the summary: `{temperature}°C, feels {feels_like}°C — `. */
  function Temperatures(o: Observation, render: Render): string {
    render(o.temperature) + Degrees + ", feels " + render(o.feelsLike) + Degrees + Dash
  }

  /** The closing clause of the summary: `{chance} chance of {type, lower-cased}.`. */
  function PrecipitationClause(chance: Precipitation.Chance, kind: Precipitation.Kind): string {
    chance.Label() + (" chance of " + (Text.LowerString(kind.Label()) + "."))
  }

  /**
   * Everything before the closing clause:
   * `{place}{temperatures}{description}, {humidity}, {wind} winds, `.
   */
  function Opening(o: Observation, humidity: Comfort.Level, wind: Option<Wind.Category>, render: Render): string {
    Place(o) + OpeningBody(o, humidity, wind, render)
  }

  /** The opening after the place: `{temperatures}{description}, {humidity}, {wind} winds, `. */
  function OpeningBody(o: Observation, humidity: Comfort.Level, wind: Option<Wind.Category>, render: Render): string {
    Temperatures(o, render) + (o.weatherDescription + (", " + (humidity.Label()
      + (", " + (WindSegment(wind) + " winds, ")))))
  }

  /** The summary sentence of an already cleaned observation and its labels. */
  function Summary(o: Observation, humidity: Comfort.Level, wind: Option<Wind.Category>,
                   chance: Precipitation.Chance, kind: Precipitation.Kind, render: Render): (s: string)
    ensures |Place(o)| <= |s| && s[..|Place(o)|] == o.cityName + " (" + o.countryCode + "): "
    ensures |PrecipitationClause(chance, kind)| <= |s|
    ensures s[|s| - |PrecipitationClause(chance, kind)|..] == PrecipitationClause(chance, kind)
  {
    var clause := PrecipitationClause(chance, kind);
    StartsWithFirst(Place(o), OpeningBody(o, humidity, wind, render), clause);
    EndsWithLast(Opening(o, humidity, wind, render), clause);
    Opening(o, humidity, wind, render) + clause
  }

  /** `(a + b) + c` starts with `a`. */
  lemma StartsWithFirst(a: string, b: string, c: string)
    ensures |a| <= |(a + b) + c| && ((a + b) + c)[..|a|] == a
  {
    assert ((a + b) + c)[..|a|] == (a + b)[..|a|];
  }

  /** `a + b` ends with `b`. */
  lemma EndsWithLast(a: string, b: string)
    ensures (a + b)[|a + b| - |b|..] == b
  {
  }

  /** All derivation rules applied to one observation. */
  function Enrich(o: Observation, render: Render): (e: Enriched)
    ensures e.observation == o.(weatherDescription := Text.TitleCase(o.weatherDescription))
    ensures e.windSpeedCategory.None? <==> o.windSpeed.None?
    ensures e.windDirectionCardinal.None? <==> o.windDirection.None?
    ensures e.cloudCoverLevel.None? <==> o.cloudiness.None?
    ensures e.visibilityLevel.None? <==> o.visibility.None?
    ensures e.humidityLevel == Comfort.Dry <==> o.humidity < 30.0
    ensures e.precipitationType == Precipitation.Mixed <==>
      Precipitation.Reading(o.rain1h) + Precipitation.Reading(o.rain3h) > 0.0 &&
      Precipitation.Reading(o.snow1h) + Precipitation.Reading(o.snow3h) > 0.0
    ensures var p := Precipitation.InfoOf(o.rain1h, o.rain3h, o.snow1h, o.snow3h);
      && e.precipitationType == p.kind
      && e.chanceOfPrecipitation == p.chance
      && e.precipitationIntensity == p.intensity
    ensures e.humidityLevel == Comfort.LevelOf(o.humidity)
    ensures e.windSpeedCategory == Wind.CategoryOf(o.windSpeed)
    ensures e.windDirectionCardinal == Wind.CardinalOf(o.windDirection)
    ensures e.cloudCoverLevel == Cloud.ColumnOf(o.cloudiness)
    ensures e.visibilityLevel == Visibility.LevelOf(o.visibility)
    ensures e.temperatureFeelDiff == o.feelsLike - o.temperature
    ensures e.weatherSummary == Summary(e.observation, e.humidityLevel, e.windSpeedCategory,
                                        e.chanceOfPrecipitation, e.precipitationType, render)
    ensures |Place(o)| <= |e.weatherSummary| && e.weatherSummary[..|Place(o)|] == Place(o)
  {
    var p := Precipitation.InfoOf(o.rain1h, o.rain3h, o.snow1h, o.snow3h);
    var humidity := Comfort.LevelOf(o.humidity);
    var wind := Wind.CategoryOf(o.windSpeed);
    var cleaned := o.(weatherDescription := Text.TitleCase(o.weatherDescription));
    Enriched(
      cleaned, p.kind, p.chance, p.intensity, humidity, o.feelsLike - o.temperature,
      wind, Wind.CardinalOf(o.windDirection), Cloud.ColumnOf(o.cloudiness),
      Visibility.LevelOf(o.visibility),
      Summary(cleaned, humidity, wind, p.chance, p.kind, render))
  }

  /** Enriching a table row by row: one output per input, at the same position. */
  function EnrichAll(rows: seq<Observation>, render: Render): (out: seq<Enriched>)
    ensures |out| == |rows|
    ensures forall i :: 0 <= i < |rows| ==> out[i] == Enrich(rows[i], render)
  {
    if rows == [] then []
    else [Enrich(rows[0], render)] + EnrichAll(rows[1..], render)
  }

  /** The stage's entry point: "no data" (`None`) for an empty table, else the enriched rows in input order. */
  function TransformData(rows: seq<Observation>, render: Render): (r: Option<seq<Enriched>>)
    ensures r.None? <==> |rows| == 0
    ensures r.Some? ==> |r.value| == |rows|
    ensures r.Some? ==> forall i :: 0 <= i < |rows| ==> r.value[i] == Enrich(rows[i], render)
  {
    if |rows| == 0 then None
    else Some(EnrichAll(rows, render))
  }

  /**
   * Enrichment keeps every measured value and the identity of the row; only
   * the description changes, and only in letter case, into title case.
   */
  lemma EnrichKeepsObservation(o: Observation, render: Render)
    ensures Enrich(o, render).observation == o.(weatherDescription := Enrich(o, render).observation.weatherDescription)
    ensures Enrich(o, render).observation.weatherDescription == Text.TitleCase(o.weatherDescription)
    ensures Text.LowerString(Enrich(o, render).observation.weatherDescription) == Text.LowerString(o.weatherDescription)
    ensures Enrich(o, render).temperatureFeelDiff + o.temperature == o.feelsLike
  {
    var e := Enrich(o, render);
    assert e.observation == o.(weatherDescription := Text.TitleCase(o.weatherDescription));
    Text.TitleCaseKeepsLetters(o.weatherDescription);
  }

  /** The summary names the place first: `city_name (country_code): `. */
  lemma SummaryStartsWithPlace(o: Observation, render: Render)
    ensures |Place(o)| <= |Enrich(o, render).weatherSummary|
    ensures Enrich(o, render).weatherSummary[..|Place(o)|] == o.cityName + " (" + o.countryCode + "): "
  {
  }

  /** A piece of `s` is a piece of anything that ends with `s`. */
  lemma InfixAfter(t: string, a: string, s: string)
    requires Text.IsInfix(t, s)
    ensures Text.IsInfix(t, a + s)
  {
    var i, j :| 0 <= i <= j <= |s| && s[i..j] == t;
    assert (a + s)[|a| + i..|a| + j] == t;
  }

  /** A piece of `s` is a piece of anything that starts with `s`. */
  lemma InfixBefore(t: string, s: string, b: string)
    requires Text.IsInfix(t, s)
    ensures Text.IsInfix(t, s + b)
  {
    var i, j :| 0 <= i <= j <= |s| && s[i..j] == t;
    assert (s + b)[i..j] == t;
  }

  /** `t` is a piece of anything that starts with it. */
  lemma InfixAtStart(t: string, b: string)
    ensures Text.IsInfix(t, t + b)
  {
    assert (t + b)[0..|t|] == t;
  }

  /** `t` is a piece of anything that ends with it. */
  lemma InfixAtEnd(a: string, t: string)
    ensures Text.IsInfix(t, a + t)
  {
    assert (a + t)[|a|..|a| + |t|] == t;
  }

  /** The opening of the summary contains the description and the humidity level. */
  lemma OpeningMentions(o: Observation, humidity: Comfort.Level, wind: Option<Wind.Category>, render: Render)
    ensures Text.IsInfix(o.weatherDescription, Opening(o, humidity, wind, render))
    ensures Text.IsInfix(humidity.Label(), Opening(o, humidity, wind, render))
  {
    var hum := humidity.Label();
    var windPart := ", " + (WindSegment(wind) + " winds, ");
    var afterDesc := ", " + (hum + windPart);
    var fromDesc := o.weatherDescription + afterDesc;
    var fromTemps := Temperatures(o, render) + fromDesc;
    assert Opening(o, humidity, wind, render) == Place(o) + fromTemps;

    InfixAtStart(o.weatherDescription, afterDesc);
    InfixAfter(o.weatherDescription, Temperatures(o, render), fromDesc);
    InfixAfter(o.weatherDescription, Place(o), fromTemps);

    InfixAtStart(hum, windPart);
    InfixAfter(hum, ", ", hum + windPart);
    InfixAfter(hum, o.weatherDescription, afterDesc);
    InfixAfter(hum, Temperatures(o, render), fromDesc);
    InfixAfter(hum, Place(o), fromTemps);
  }

  /** The summary mentions the title-cased description and the humidity level. */
  lemma SummaryMentionsLabels(o: Observation, render: Render)
    ensures Text.IsInfix(Text.TitleCase(o.weatherDescription), Enrich(o, render).weatherSummary)
    ensures Text.IsInfix(Enrich(o, render).humidityLevel.Label(), Enrich(o, render).weatherSummary)
  {
    var e := Enrich(o, render);
    var c := e.observation;
    var opening := Opening(c, e.humidityLevel, e.windSpeedCategory, render);
    var clause := PrecipitationClause(e.chanceOfPrecipitation, e.precipitationType);
    assert e.weatherSummary == opening + clause;
    OpeningMentions(c, e.humidityLevel, e.windSpeedCategory, render);
    InfixBefore(c.weatherDescription, opening, clause);
    InfixBefore(e.humidityLevel.Label(), opening, clause);
  }

  /** The summary ends with the lower-cased precipitation type and a full stop, so it also contains them. */
  lemma SummaryEndsWithType(o: Observation, render: Render)
    ensures var s := Enrich(o, render).weatherSummary;
      var last := Text.LowerString(Enrich(o, render).precipitationType.Label()) + ".";
      && |last| <= |s|
      && s[|s| - |last|..] == last
      && Text.IsInfix(last, s)
  {
    var e := Enrich(o, render);
    var last := Text.LowerString(e.precipitationType.Label()) + ".";
    var lead := e.chanceOfPrecipitation.Label() + " chance of ";
    var clause := PrecipitationClause(e.chanceOfPrecipitation, e.precipitationType);
    assert clause == lead + last;
    SuffixOfSuffix(e.weatherSummary, clause, lead, last);
  }

  /** A string that ends with `a + t` ends with `t`, and contains it. */
  lemma SuffixOfSuffix(s: string, clause: string, a: string, t: string)
    requires clause == a + t
    requires |clause| <= |s| && s[|s| - |clause|..] == clause
    ensures |t| <= |s| && s[|s| - |t|..] == t
    ensures Text.IsInfix(t, s)
  {
    assert s[|s| - |t|..] == clause[|a|..];
    assert s[|s| - |t|..|s|] == t;
  }

  /**
   * The wind part of the opening: with no category the segment is empty,
   * leaving `, {humidity},  winds, `; with one, `{label} winds, `.
   */
  lemma OpeningWindPart(o: Observation, humidity: Comfort.Level, wind: Option<Wind.Category>, render: Render)
    ensures wind.None? ==> Text.IsInfix(", " + humidity.Label() + ",  winds, ", Opening(o, humidity, wind, render))
    ensures wind.Some? ==> Text.IsInfix(wind.value.Label() + " winds, ", Opening(o, humidity, wind, render))
  {
    var hum := humidity.Label();
    var seg := WindSegment(wind);
    var afterDesc := ", " + (hum + (", " + (seg + " winds, ")));
    var fromDesc := o.weatherDescription + afterDesc;
    var fromTemps := Temperatures(o, render) + fromDesc;
    assert Opening(o, humidity, wind, render) == Place(o) + fromTemps;
    var t := if wind.None? then ", " + hum + ",  winds, " else seg + " winds, ";
    if wind.None? {
      assert seg == "";
      EmptyWindGap(hum);
      InfixAtEnd(o.weatherDescription, t);
    } else {
      InfixAtEnd(", ", t);
      InfixAfter(t, hum, ", " + t);
      InfixAfter(t, ", ", hum + (", " + t));
      InfixAfter(t, o.weatherDescription, afterDesc);
    }
    InfixAfter(t, Temperatures(o, render), fromDesc);
    InfixAfter(t, Place(o), fromTemps);
  }

  /** With an empty wind segment the text after the description reads `, {humidity},  winds, `. */
  lemma EmptyWindGap(hum: string)
    ensures ", " + (hum + (", " + ("" + " winds, "))) == ", " + hum + ",  winds, "
  {
  }

  /**
   * Building the summary never fails for a missing wind speed: the wind
   * segment is empty, leaving `,  winds, ` after the humidity level; with a
   * speed, its category label stands before ` winds, `.
   */
  lemma SummaryWindSegment(o: Observation, render: Render)
    ensures o.windSpeed.None? ==>
      Text.IsInfix(", " + Enrich(o, render).humidityLevel.Label() + ",  winds, ", Enrich(o, render).weatherSummary)
    ensures o.windSpeed.Some? ==>
      Text.IsInfix(Wind.CategoryOf(o.windSpeed).value.Label() + " winds, ", Enrich(o, render).weatherSummary)
  {
    var e := Enrich(o, render);
    var c := e.observation;
    var opening := Opening(c, e.humidityLevel, e.windSpeedCategory, render);
    var clause := PrecipitationClause(e.chanceOfPrecipitation, e.precipitationType);
    assert e.weatherSummary == opening + clause;
    OpeningWindPart(c, e.humidityLevel, e.windSpeedCategory, render);
    var t := if o.windSpeed.None? then ", " + e.humidityLevel.Label() + ",  winds, "
      else Wind.CategoryOf(o.windSpeed).value.Label() + " winds, ";
    InfixBefore(t, opening, clause);
  }

  /**
   * The light-rain scenario: 0.5 mm rain and 0.4 mm snow in the last hour,
   * humidity 50 and 7 m/s wind give Mixed, Medium, Comfortable and Windy.
   */
  lemma LightRainScenario(render: Render)
    ensures var o := Observation("TestCity", "TC", 12.349, 11.944, 12.349, 12.349, 50.0, "light rain",
                                 Some(0.5), Some(0.0), Some(0.4), Some(0.0), Some(7.0), Some(0.0), Some(0.0), Some(10000.0));
      var e := Enrich(o, render);
      && e.precipitationType == Precipitation.Mixed
      && e.chanceOfPrecipitation == Precipitation.Medium
      && e.humidityLevel == Comfort.Comfortable
      && e.windSpeedCategory == Some(Wind.Windy)
      && e.windDirectionCardinal == Some(Wind.N)
      && e.cloudCoverLevel == Some(Cloud.Clear)
      && e.visibilityLevel == Some(Visibility.Clear)
  {
    var o := Observation("TestCity", "TC", 12.349, 11.944, 12.349, 12.349, 50.0, "light rain",
                         Some(0.5), Some(0.0), Some(0.4), Some(0.0), Some(7.0), Some(0.0), Some(0.0), Some(10000.0));
    var p := Precipitation.InfoOf(o.rain1h, o.rain3h, o.snow1h, o.snow3h);
    assert p == Precipitation.Info(Precipitation.Mixed, Precipitation.Medium, Precipitation.Light);
    assert Wind.FloorMod(0.0, 360.0) == 0.0;
    assert Wind.CardinalOf(Some(0.0)) == Some(Wind.N);
  }

  /** The description "light rain" is stored, and quoted in the summary, as "Light Rain". */
  lemma LightRainDescription(o: Observation, render: Render)
    requires o.weatherDescription == "light rain"
    ensures Enrich(o, render).observation.weatherDescription == "Light Rain"
    ensures Text.IsInfix("Light Rain", Enrich(o, render).weatherSummary)
  {
    Text.TitleCaseExample();
    SummaryMentionsLabels(o, render);
  }
}
