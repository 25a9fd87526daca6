# Light-pollution score pipeline, modelled in Dafny

This project models the derived-metric pipeline of a small Flask backend (`app.py`). The backend invents a
"light pollution" assessment for four Peruvian cities from NASA feeds. The pipeline has these parts:

- **Event adapter shaping** (`get_nasa_events`). A reply from the natural-event feed becomes at most three
  `{title, date, category}` records, with each date cut to ten characters. Any failure gives the empty list,
  including a failure raised while shaping.
- **Aggregator** (`calculate_pollution_from_nasa`). It computes a blue-light ratio: a per-city base
  (0.5 for unknown ids), plus 0.015 per event, plus a uniform draw in [-0.03, 0.03]. The result is clamped to
  [0.2, 0.8]. The orange ratio is `1 - blue`.
- **Classifier** (written twice in the source, in `get_cities` and `analyze_city`, modelled once). It maps the
  blue ratio to CRÍTICO (> 0.6), MODERADO (> 0.45) or SALUDABLE, and draws a health score from the band's range:
  [20, 40], [41, 69] or [70, 85].
- **Historical projector** (`generate_historical_data`). It builds four yearly points, 2020 to 2023, by
  projecting back with a per-city trend. Blue is floored at 0.1 and orange is capped at 0.8.
- **Recommendation lookup** (`generate_recommendations`). Each band has four fixed lines, and the first names
  the city.
- **Handlers.** `get_cities` loops over the city table and builds one summary per city. `analyze_city` runs
  the whole pipeline for one city, or answers 404 with "Ciudad no encontrada".

Randomness is a parameter of the model. The uniform draw is a real `noise` with |noise| ≤ 0.03.
`random.randint(lo, hi)` is `RandInt(lo, hi, seed)` for an arbitrary integer `seed`. Its value always lies in
[lo, hi], and every value in that range is reached by some seed. Ratios are exact reals.

Files: `wrappers.dfy` (Option), `cities.dfy` (the city table), `events.dfy`, `pollution.dfy`,
`classifier.dfy`, `history.dfy`, `recommendations.dfy`, `endpoints.dfy` (the two handlers and the
whole-pipeline lemmas).

Some properties follow from combining the parts:
- The adapter returns at most three events. With that input the aggregator's clamp never changes the raw sum,
  and the raw sum lies in [0.35, 0.725] for every city id.
- In that reachable range neither of the projector's bounds is ever hit. Every projected pair therefore still
  sums to one. The projector's asymmetry shows only for ratios the aggregator cannot produce
  (`ProjectionCanLeaveComplement`).
- Lima is always CRÍTICO and Huánuco is never CRÍTICO.

## Model

| member | source | states |
|---|---|---|
| Cities.Find | app.py:218-221 | a row is found exactly when some row has the key; the row returned has that key and is in the table |
| Cities.Lookup | app.py:13-38 | `PERU_CITIES` lookup succeeds exactly for lima, huanuco, cusco and arequipa, and returns that city's row |
| Cities.IdsDistinct | app.py:13-38 | the four table keys are pairwise distinct |
| Events.Prefix | app.py:72-74 | the slice `xs[:n]` (of a date string or of the event list) is the prefix of `xs` of length exactly min(n, len(xs)) |
| Events.ShapeOne | app.py:70-74 | a shaped record keeps the title and the first category's title; its date is the prefix of the first geometry's date of length exactly min(10, len(date)), so a shorter date is kept whole |
| Events.ShapeAll | app.py:70-78 | the comprehension succeeds exactly when every event can be shaped; it then keeps length and order and shapes each element; one bad event aborts it |
| Events.GetNasaEvents | app.py:61-78 | at most 3 events, each date at most 10 characters; an exception or a non-200 status gives []; a non-empty result is the first events of the reply, each shaped, in order |
| Events.WellFormedReplyIsKept | app.py:68-74 | a 200 reply whose first three events are well formed yields min(3, n) events, the i-th being the shaped i-th upstream event |
| Events.MalformedEventEmptiesList | app.py:70-78 | a malformed event among the first three makes the adapter return the empty list |
| Pollution.ConstantsFor | app.py:137-144 | the base is 0.5 exactly for ids not in the table; every base lies in [0.38, 0.65] and every growth in [0.01, 0.04] |
| Pollution.Clamp | app.py:151 | the result lies in [0.2, 0.8]; it is the input inside that band and the nearer bound outside it |
| Pollution.CalculatePollution | app.py:135-154 | blue lies in [0.2, 0.8] for any id, event list and draw; orange is exactly 1 - blue and so also lies in [0.2, 0.8]; blue lies between the clamped estimate minus 0.03 and the clamped estimate plus 0.03 |
| Pollution.MoreEventsNeverLowerBlue | app.py:147-151 | with the same city and draw, more events never give a lower blue ratio |
| Pollution.AdapterEventsAreNeverClamped | app.py:147-151 | with at most 3 events, blue is exactly base + 0.015·n + noise and lies in [0.35, 0.725] |
| Classifier.Label | app.py:194-202 | each band is reported as one of CRÍTICO, MODERADO, SALUDABLE |
| Classifier.Classify | app.py:194-202 | for both copies of the chain (app.py:194-202 and the identical app.py:232-240): critical iff blue > 0.6, moderate iff 0.45 < blue ≤ 0.6, healthy iff blue ≤ 0.45; exactly one band per value |
| Classifier.RandInt | app.py:196 | a `randint(lo, hi)` draw always lies in [lo, hi] |
| Classifier.RandIntReachesEvery | app.py:199 | every value of [lo, hi] is drawn by some seed |
| Classifier.Assess | app.py:232-240 | for both copies of the chain (app.py:232-240 and the identical app.py:194-202): the status is the classified band, and the health score lies in that band's range ([20,40], [41,69], [70,85]) |
| Classifier.BandOfScore | app.py:196-202 | a score in [20, 85] names a band whose range contains it; a score outside names none |
| Classifier.ScoreDeterminesBand | app.py:234-240 | the score ranges are disjoint: a score in a band's range names exactly that band |
| Classifier.ScoreRecoversStatus | app.py:232-240 | reading the band back from any drawn health score gives the classified band |
| Classifier.MoreBlueNeverScoresHigher | app.py:194-202 | a higher blue ratio never gives a milder band; when the bands differ, its score is below the other's |
| History.TrendFor | app.py:273-278 | every trend lies in [0.01, 0.04], so it is positive; the default 0.02 is used exactly for ids not in the table |
| History.Project | app.py:281-283 | the point has the given year; blue ≥ 0.1 and orange ≤ 0.8; for 2023 (years_ago = 0) each ratio is the current one when that is within its bound |
| History.ProjectIsMonotone | app.py:280-283 | with a non-negative trend, a later year never has lower blue or higher orange |
| History.GenerateHistoricalData | app.py:268-291 | exactly 4 points for 2020, 2021, 2022 and 2023; each point is the projection for its year; years ascend, blue never decreases and orange never increases; all points are within the bounds; the 2023 point equals the current ratios when those are within the bounds |
| History.ProjectionCanLeaveComplement | app.py:282-283 | the projected ratios need not sum to 1: blue 0.2, orange 0.8, trend 0.02 give (0.14, 0.8) for 2020 |
| History.ProjectionKeepsComplement | app.py:282-283 | for current blue in [0.35, 0.725], trend ≤ 0.04 and years 2020 to 2023, the projected pair sums to 1 |
| Recommendations.ParseStatus | app.py:295-309 | only the exact strings CRÍTICO and MODERADO select their lists; any other status falls through to the healthy list |
| Recommendations.ParseLabel | app.py:295-302 | reading a reported label back gives its band |
| Recommendations.Opening | app.py:297-311 | the opening line of every band (the templates at app.py:297, 304 and 311) embeds the city name |
| Recommendations.FixedLines | app.py:298-314 | each band has three fixed lines after the opening one (app.py:298-300, 305-307 and 312-314) |
| Recommendations.GenerateRecommendations | app.py:293-315 | always 4 strings; the first is the parsed band's opening line and embeds the city name; the last three are the fixed lines of the parsed band, so any other status gets the whole healthy list |
| Recommendations.LabelSelectsBandLines | app.py:265 | passing a band's reported label back to the lookup yields that band's fixed lines after an opening line naming the city |
| Endpoints.Summarise | app.py:190-211 | a summary keeps the city's id, name and region; it reports the number of events and the label of the classified band; its score names that same band |
| Endpoints.GetCities | app.py:184-213 | one summary per table city, in table order (4 entries); each has the same event count and a status among the three labels; no city appears twice |
| Endpoints.Describe | app.py:248 | the analysis description embeds the city name |
| Endpoints.HistoryStaysComplementary | app.py:264 | for ratios built from at most 3 events, every projected pair sums to 1 |
| Endpoints.AnalyzeKnownCity | app.py:221-266 | for a table city: the ratios come from the aggregator over the adapter's events; the status and score come from the classifier; the history is the projection with the city's trend for each of the 4 ascending years, ends in the current ratios, and every pair sums to 1; there are 4 recommendations for the band and the first names the city; the description is the template naming the city |
| Endpoints.AnalyzeCity | app.py:215-266 | 404 with "Ciudad no encontrada" exactly for ids outside the table; otherwise the analysis of the table city with that id, with everything the known-city analysis reports |
| Endpoints.LimaIsAlwaysCritical | app.py:138 | with the adapter's events and any draw, Lima is classified CRÍTICO |
| Endpoints.HuanucoIsNeverCritical | app.py:139 | with the adapter's events and any draw, Huánuco is never classified CRÍTICO |
| Endpoints.GrowthMatchesTrend | app.py:137-144 | the aggregator's unused growth column equals the projector's trend for every id, defaults included |

## Left out

- HTTP routing, `jsonify`, `render_template`, the landing page and the port and environment setup (app.py:1-10, 156-159, 317-334) are framework plumbing.
- The HTTP calls themselves, timeouts, status checks and exception-to-sentinel paths of the picture-of-the-day, earth-imagery and near-earth-object adapters (app.py:40-59, 80-124) are network I/O. In the event adapter, the call's outcome is a parameter (`Reply`): it raised, or it gave a status code and an optional `events` member.
- `get_mars_weather` (app.py:126-133) only draws random values, so there is nothing to state about it. `api_status` (app.py:161-182) only repackages adapter outputs.
- `random.uniform` and `random.randint` are not modelled as generators. Their draws are parameters: a real noise within ±0.03, and an integer seed for `RandInt`.
- `round(x, 3)` on the reported ratios (app.py:253-254, 287-288) and IEEE float arithmetic are not modelled. Ratios are exact reals.
- `datetime.now()` timestamps (app.py:103, 255) are wall-clock I/O.
- Endpoints.AnalyzeCity: the picture-of-the-day, earth-imagery, asteroid and Mars-weather records it passes through unchanged are not part of the response model.
- The print statements that log adapter failures are diagnostic output only.
