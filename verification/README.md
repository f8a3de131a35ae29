# Weather ETL core in Dafny

A model of the two decision components of the mini weather ETL:

- the **Transform** stage (`transform_data`), which maps each raw weather
  observation to derived labels — precipitation type, chance and intensity,
  humidity level, wind-speed category, wind-direction cardinal, cloud-cover
  level, visibility level — title-cases the weather description and writes a
  one-sentence weather summary; an empty table gives "no data";
- the **Load** stage (`load_to_supabase`), which skips an empty table, tries
  one batch insert, and on rejection falls back to one insert per record,
  reporting `{status, loaded, failed, failed_records}`.

Measurements are exact `real`s; readings that may be missing are `Option`s.
The store is an oracle: one `bool` answers the batch insert and a
`seq<bool>` answers the individual inserts in order. The clock (the shared
`extraction_timestamp`) and the text rendering of temperatures are
parameters.

Files: `wrappers.dfy` (Option), `text.dfy` (ASCII case mapping, title case),
`precipitation.dfy`, `comfort.dfy`, `wind.dfy`, `sky.dfy` (modules `Cloud`
and `Visibility`), `transform.dfy` (records, summary, table), `load.dfy`.

Where the code and its tests (`mini_weather_ETl/test_transform.py`)
differ, the model follows the code:

- the wind bucket between 2 and 5 m/s is "Breezy"; the tests (lines
  104-113) expect "Light breeze" with an upper bound of 6;
- the derived columns are `precipitation_type`, `chance_of_precipitation`,
  `humidity_level`, `wind_speed_category`, `weather_summary`; the tests
  (lines 61-62, 102, 119, 137) expect other names.

Facts about the code worth stating plainly:

- the summary is the sentence
  `"{city} ({country}): {t}°C, feels {f}°C — {description}, {humidity}, {wind} winds, {chance} chance of {type, lower-cased}."`
  (`Transform.py` lines 130-136), with the wind label not lower-cased and
  an empty wind segment (`,  winds,`) when the speed is missing;
- the precipitation type is checked in the order Rain, Snow, Mixed, None;
  the Mixed-first reading of the rule gives the same answer for
  non-negative amounts only (`Precipitation.KindOrderIrrelevant`,
  `Precipitation.KindOrderMattersForNegativeSnow`);
- after the fallback the status is always "partial" (`Load.py` line 73),
  even when every individual insert succeeded.

## Model

| member | source | states |
|---|---|---|
| Precipitation.KindOf | mini_weather_ETl/ETL/Transform.py:23-34 | Rain iff rain > 0 and snow = 0; Snow iff snow > 0 and rain = 0; Mixed iff both > 0; None exactly in the remaining cases, spelled out for negative amounts too |
| Precipitation.ChanceOf | mini_weather_ETl/ETL/Transform.py:37-43 | Low iff total = 0, Medium iff total is non-zero and below 1, High iff total >= 1 |
| Precipitation.IntensityOf | mini_weather_ETl/ETL/Transform.py:46-53 | None iff total = 0, Light for non-zero totals below 2, Moderate in [2, 5), Heavy from 5 |
| Precipitation.InfoOf | mini_weather_ETl/ETL/Transform.py:22-59 | with absent readings counted as 0 and rain, snow the 1h+3h sums: Rain iff rain > 0 and snow = 0, Snow iff snow > 0 and rain = 0, Mixed iff both > 0, and for non-negative readings None iff both sums are 0; chance and intensity are the thresholds applied to the total of all four readings; Low chance iff no intensity |
| Precipitation.KindOrderIrrelevant | mini_weather_ETl/ETL/Transform.py:26-34 | for non-negative amounts the code's check order equals the Mixed-first order, and None means both amounts are zero |
| Precipitation.KindOrderMattersForNegativeSnow | mini_weather_ETl/ETL/Transform.py:26-34 | rain 1 with snow -0.5 is None in the code but Rain in the Mixed-first order |
| Precipitation.LabelsMonotone | mini_weather_ETl/ETL/Transform.py:36-53 | for totals >= 0, more precipitation never lowers the chance or the intensity |
| Precipitation.MixedMediumExample | mini_weather_ETl/test_transform.py:80-86 | rain 0.5 mm and snow 0.4 mm give Mixed, Medium chance, Light intensity |
| Precipitation.OneMillimetreBoundary | mini_weather_ETl/ETL/Transform.py:37-53 | a total of exactly 1 mm is High chance and Light intensity; 0.99 mm is Medium |
| Comfort.LevelOf | mini_weather_ETl/ETL/Transform.py:65-71 | Dry iff h < 30, Comfortable iff 30 <= h < 60, Humid iff h >= 60, for every real h |
| Comfort.LevelMonotone | mini_weather_ETl/ETL/Transform.py:65-71 | higher humidity never gives a drier level |
| Comfort.LevelBoundaries | mini_weather_ETl/ETL/Transform.py:65-71 | 29.9 Dry, 30 and 59.9 Comfortable, 60 Humid; -5 and 120 still labelled |
| Wind.CategoryOf | mini_weather_ETl/ETL/Transform.py:78-89 | absent speed iff absent category (never Calm); Calm below 2, Breezy in [2, 5), Windy in [5, 10), Strong from 10 |
| Wind.CategoryMonotone | mini_weather_ETl/ETL/Transform.py:81-88 | a stronger wind never gets a calmer category |
| Wind.CategoryBoundaries | mini_weather_ETl/ETL/Transform.py:81-88 | 1.9 Calm, 2 and 4.9 Breezy, 5 and 9.9 Windy, 10 Strong |
| Wind.FloorMod | mini_weather_ETl/ETL/Transform.py:96 | Python's `deg % 360`: the result lies in [0, 360) for every real, negative ones included, and differs from `deg` by a whole multiple of 360 |
| Wind.FloorModPeriodic | mini_weather_ETl/ETL/Transform.py:96 | `(deg + 360k) % 360` equals `deg % 360` for every whole k |
| Wind.PointIndex | mini_weather_ETl/ETL/Transform.py:95-96 | `int((deg % 360) / 45)` is a valid index 0..7 and selects the 45-degree sector holding `deg % 360` |
| Wind.CardinalOf | mini_weather_ETl/ETL/Transform.py:92-97 | absent direction iff absent cardinal |
| Wind.CardinalSector | mini_weather_ETl/ETL/Transform.py:92-96 | the result is the k-th compass point iff `deg % 360` lies in [45k, 45k + 45) |
| Wind.CardinalPeriodic | mini_weather_ETl/ETL/Transform.py:96 | adding any whole number of turns (360 degrees, either way) gives the same point |
| Wind.CardinalNegativeExamples | mini_weather_ETl/ETL/Transform.py:96 | -90 is W, -1 is NW, 360 is N |
| Cloud.LevelOf | mini_weather_ETl/ETL/Transform.py:101-107 | Clear iff c < 20, Partly Cloudy iff 20 <= c < 60, Overcast iff c >= 60 |
| Cloud.ColumnOf | mini_weather_ETl/ETL/Transform.py:100-108 | the level is present iff the reading is; for a present reading Clear iff < 20, Partly Cloudy iff in [20, 60), Overcast iff >= 60 (the guarded rule, see Findings) |
| Cloud.ColumnAsWritten | mini_weather_ETl/ETL/Transform.py:101-107 | the rule as written, without a missing-value guard: equal to the guarded level for a present reading, "Overcast" for a missing cell (every NaN comparison is false) |
| Cloud.MissingCloudinessDiscrepancy | mini_weather_ETl/ETL/Transform.py:101-107 | a missing cloudiness cell is "Overcast" as written but has no level under the guarded rule |
| Cloud.LevelMonotone | mini_weather_ETl/ETL/Transform.py:101-107 | more cloud never gives a clearer level |
| Visibility.LevelOf | mini_weather_ETl/ETL/Transform.py:110-121 | on the metre reading: absent iff absent, Low below 2000 m, Moderate in [2000, 10000), Clear from 10000 m |
| Visibility.LevelMonotone | mini_weather_ETl/ETL/Transform.py:111-120 | seeing further never lowers the level |
| Text.TitleScanPositions | mini_weather_ETl/ETL/Transform.py:124 | the left-to-right title-case scan treats each character by whether the one before it is a letter |
| Text.TitleCase | mini_weather_ETl/ETL/Transform.py:124 | same length; each letter is upper-cased iff it starts a run of letters, other characters kept |
| Text.TitleCaseIdempotent | mini_weather_ETl/ETL/Transform.py:124 | title-casing twice equals title-casing once |
| Text.TitleCaseKeepsLetters | mini_weather_ETl/ETL/Transform.py:124 | title case changes letter case only: the lower-cased text is unchanged |
| Text.TitleCaseExample | mini_weather_ETl/test_transform.py:121-138 | "light rain" becomes "Light Rain" |
| Transform.EnrichAll | mini_weather_ETl/ETL/Transform.py:61-62 | one enriched row per input row, the i-th from the i-th |
| Transform.Enrich | mini_weather_ETl/ETL/Transform.py:22-138 | one record's rules: every kept column unchanged except the description, which is title-cased; each label column is exactly its rule's own result (`Precipitation.InfoOf` for type, chance and intensity, `Comfort.LevelOf`, `Wind.CategoryOf`, `Wind.CardinalOf`, `Cloud.ColumnOf`, `Visibility.LevelOf`) applied to the record's own readings; each optional label present iff its reading is; Dry iff humidity < 30; Mixed iff both precipitation sums are positive; feel difference is feels-like minus temperature; the summary is the sentence built from the record's own (cleaned) fields and starts with the place |
| Transform.Summary | mini_weather_ETl/ETL/Transform.py:130-136 | the sentence starts with `city_name (country_code): `, and ends with the closing clause `{chance} chance of {type, lower-cased}.` |
| Transform.TransformData | mini_weather_ETl/ETL/Transform.py:3-140 | "no data" iff the table is empty; otherwise exactly one enriched row per row, in input order |
| Transform.EnrichKeepsObservation | mini_weather_ETl/ETL/Transform.py:74-127 | every kept column but the description is unchanged; the description is its title case, equal up to letter case; the feel difference is feels-like minus temperature |
| Transform.SummaryStartsWithPlace | mini_weather_ETl/ETL/Transform.py:130-136 | the summary begins with `city_name (country_code): ` |
| Transform.SummaryMentionsLabels | mini_weather_ETl/ETL/Transform.py:130-136 | the summary contains the title-cased description and the humidity level |
| Transform.SummaryEndsWithType | mini_weather_ETl/ETL/Transform.py:135 | the summary ends with the lower-cased precipitation type and a full stop, and so contains them |
| Transform.SummaryWindSegment | mini_weather_ETl/ETL/Transform.py:134 | a missing wind speed leaves an empty segment (`, {humidity},  winds, `) instead of failing; a present one puts its category before ` winds, ` |
| Transform.LightRainScenario | mini_weather_ETl/ETL/Transform.py:22-121 | a combined record (the 0.5 / 0.4 mm precipitation of one test with the 7 m/s wind of another), humidity 50, direction 0, cloudiness 0, visibility 10 km: Mixed, Medium, Comfortable, Windy, N, Clear, Clear |
| Transform.LightRainDescription | mini_weather_ETl/test_transform.py:121-138 | the description "light rain" is stored, and appears in the summary, as "Light Rain" |
| Load.Rejected | mini_weather_ETl/ETL/Load.py:60-73 | failed records plus accepted inserts account for every record |
| Load.Stamp | mini_weather_ETl/ETL/Load.py:25-31 | one record per row, in order, each carrying the caller's row unchanged and the same extraction timestamp |
| Load.RejectedPositions | mini_weather_ETl/ETL/Load.py:63-70 | the rejected positions are strictly increasing, each is a rejection, and every rejection is listed |
| Load.RejectedIsSubsequence | mini_weather_ETl/ETL/Load.py:61-70 | the failed-record list is exactly the records at the rejected positions, in input order |
| Load.RejectedExtremes | mini_weather_ETl/ETL/Load.py:60-73 | all accepted: no failed records and all loaded; all rejected: every record failed, none loaded |
| Load.LoadToStore | mini_weather_ETl/ETL/Load.py:17-73 | empty table: skipped, 0/0, no write; otherwise the batch of stamped rows is written first; batch accepted: success with all rows and one write; batch rejected: one insert per record in order, loaded + failed = N, failed = number of failed records, which are the rejected ones in order, status partial |
| Load.TwoOfThreeScenario | mini_weather_ETl/ETL/Load.py:60-73 | three records, the second rejected: two loaded and the second record is the one failure |

## Left out

- Extraction (HTTP requests to the weather provider), orchestration, credential and `.env` loading, printing and logging: I/O plumbing outside the core.
- Float behaviour: NaN readings (pandas turns a missing cell of a numeric column into NaN; `nan or 0` stays NaN and NaN fails every comparison), rounding to one decimal (`.round(1)` on the temperatures and the feel difference) and float-to-text rendering. Temperatures go into the summary through a caller-supplied rendering function, and the feel difference is kept exact.
- Wind.CardinalOf: with floats a tiny negative degree makes `deg % 360` round to 360.0, so the index is 8 and `dirs[8]` raises IndexError in the source (`Transform.py` line 96); exact reals keep the remainder below 360, so the model never reaches that crash.
- Transform.Observation: an absent `cloudiness` stands for a table without that column or for a missing cell; the model gives both no level (`Cloud.ColumnOf`, the guarded rule of the Findings table). As written, a missing cell of a float column is labelled "Overcast" (`Cloud.ColumnAsWritten`), and a `None` cell of an object-typed column makes `c < 20` raise TypeError; that exception is not modelled.
- Text.TitleCase: descriptions are treated as ASCII; every non-ASCII character counts as uncased, so "élevé" becomes "éLevé" here while Python's `str.title()` gives "Élevé". `Text.LowerString` likewise lower-cases ASCII letters only.
- Pandas mechanics: column lower-casing and selection, `apply`/`concat`, and the columns that a missing required column (`humidity`, `temperature`, …) would make fail.
- The conversion of pandas and numpy values to native values before the insert (`Load.py` lines 31-47), and the creation of the store client.
- Load.LoadToStore: the store's answers are an oracle given up front, one per record (`|singleAccepted| == |rows|`), so a store whose answer depends on earlier writes is represented only by its sequence of answers.
- The extraction timestamp is a parameter standing for `pd.Timestamp.now(tz='UTC')`; the caller's table is a value, so it cannot be changed by the stage.

## Findings

| source | as written | input that shows it | evidently intended | confidence | as-written member | corrected member |
|---|---|---|---|---|---|---|
| mini_weather_ETl/ETL/Transform.py:101-107 | `cloud_cover_label` has no missing-value guard, so a missing cloudiness cell (NaN) falls through every comparison to "Overcast" | a table with a cloudiness column in which one row has no cloudiness value | no level for a missing cell, as the wind-speed (line 79) and visibility (line 112) rules do | medium, not executed | Cloud.ColumnAsWritten, Cloud.MissingCloudinessDiscrepancy | Cloud.ColumnOf |
