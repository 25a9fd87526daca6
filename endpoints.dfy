/** The two request handlers that run the pipeline: the city summary (`get_cities`) and the full
    per-city analysis (`analyze_city`). The other adapters' outputs are passed through unchanged by
    the analysis and are not part of this model. */
module Endpoints {
  import opened Wrappers
  import opened Cities
  import opened Events
  import opened Pollution
  import opened Classifier
  import opened History
  import opened Recommendations

  /** One entry of the city summary list. */
  datatype CitySummary = CitySummary(
    id: string, name: string, region: string, status: string, healthScore: int, eventsAffecting: nat)

  /** Summarises one city: its ratios under the draw `noise`, the band label and a score drawn with
      `seed` from that band's range, and the number of current events. */
  function Summarise(city: City, events: seq<Event>, noise: real, seed: int): (r: CitySummary)
    requires -MaxNoise <= noise <= MaxNoise
    ensures r.id == city.id && r.name == city.name && r.region == city.region
    ensures r.eventsAffecting == |events|
    ensures r.status == Label(Classify(CalculatePollution(city.id, events, noise).blue))
    ensures BandOfScore(r.healthScore) == Some(ParseStatus(r.status))
  {
    var ratios := CalculatePollution(city.id, events, noise);
    var a := Assess(ratios.blue, seed);
    ScoreDeterminesBand(a.healthScore, a.status);
    ParseLabel(a.status);
    CitySummary(city.id, city.name, city.region, Label(a.status), a.healthScore, |events|)
  }

  ghost predicate NoisesInRange(noises: seq<real>) {
    forall i :: 0 <= i < |noises| ==> -MaxNoise <= noises[i] <= MaxNoise
  }

  /** `get_cities`: one event fetch, then one summary appended per table city, in table order. The
      i-th city's uniform draw is `noises[i]` and its integer draw is `seeds[i]`. */
  method GetCities(reply: Reply, noises: seq<real>, seeds: seq<int>) returns (cities: seq<CitySummary>)
    requires |noises| == |PeruCities| && |seeds| == |PeruCities|
    requires NoisesInRange(noises)
    ensures |cities| == |PeruCities|
    ensures forall i :: 0 <= i < |cities| ==>
              cities[i] == Summarise(PeruCities[i], GetNasaEvents(reply), noises[i], seeds[i])
    ensures forall i :: 0 <= i < |cities| ==>
              cities[i].id == PeruCities[i].id && cities[i].eventsAffecting == |GetNasaEvents(reply)|
              && cities[i].status in {"CRÍTICO", "MODERADO", "SALUDABLE"}
    ensures forall i, j :: 0 <= i < j < |cities| ==> cities[i].id != cities[j].id
  {
    var events := GetNasaEvents(reply);
    cities := [];
    for k := 0 to |PeruCities|
      invariant |cities| == k
      invariant forall i :: 0 <= i < k ==> cities[i] == Summarise(PeruCities[i], events, noises[i], seeds[i])
    {
      cities := cities + [Summarise(PeruCities[k], events, noises[k], seeds[k])];
    }
    IdsDistinct();
  }

  const NotFoundCode: int := 404
  const NotFoundMessage: string := "Ciudad no encontrada"

  /** The analysis response: an error for an unknown city, or the assessment with its history and
      recommendations. */
  datatype Analysis =
    | NotFound(code: int, error: string)
    | Found(city: City, description: string, status: string, healthScore: int, blue: real, orange: real,
            events: seq<Event>, history: seq<HistoricalPoint>, recommendations: seq<string>)

  /** The city description line of the analysis. */
  function Describe(cityName: string): (d: string)
    ensures Mentions(d, cityName)
  {
    var prefix := "Monitoreo de contaminación lumínica en ";
    var d := prefix + cityName;
    assert OccursAt(d, cityName, |prefix|) by {
      assert d[|prefix|..|prefix| + |cityName|] == cityName;
    }
    d
  }

  ghost predicate Complementary(history: seq<HistoricalPoint>) {
    forall i :: 0 <= i < |history| ==> history[i].blue + history[i].orange == 1.0
  }

  /** For ratios the aggregator produces from the adapter's events, neither the projector's floor
      nor its ceiling is ever reached, so every projected pair still sums to one. */
  lemma HistoryStaysComplementary(cityId: string, events: seq<Event>, noise: real, history: seq<HistoricalPoint>)
    requires -MaxNoise <= noise <= MaxNoise && |events| <= MaxEvents
    requires |history| == |Years|
    requires forall i :: 0 <= i < |history| ==>
               history[i] == Project(TrendFor(cityId), CalculatePollution(cityId, events, noise).blue,
                                     CalculatePollution(cityId, events, noise).orange, Years[i])
    ensures Complementary(history)
  {
    var ratios := CalculatePollution(cityId, events, noise);
    AdapterEventsAreNeverClamped(cityId, events, noise);
    forall i | 0 <= i < |history|
      ensures history[i].blue + history[i].orange == 1.0
    {
      ProjectionKeepsComplement(TrendFor(cityId), ratios.blue, Years[i]);
    }
  }

  /** What an analysis of `city` reports: ratios from the aggregator over the adapter's events,
      status and score from the classifier, four chronological history points that keep the ratios
      complementary and end at the current ones, and the band's four recommendations naming the city. */
  ghost predicate Reports(r: Analysis, city: City, reply: Reply, noise: real)
    requires -MaxNoise <= noise <= MaxNoise
  {
    && r.Found? && r.city == city && r.events == GetNasaEvents(reply)
    && Ratios(r.blue, r.orange) == CalculatePollution(city.id, r.events, noise)
    && r.status == Label(Classify(r.blue)) && BandOfScore(r.healthScore) == Some(Classify(r.blue))
    && |r.history| == |Years| && Chronological(r.history) && Complementary(r.history)
    && (forall i :: 0 <= i < |r.history| ==>
          r.history[i].year == Years[i]
          && r.history[i] == Project(TrendFor(city.id), r.blue, r.orange, Years[i]))
    && r.history[|r.history| - 1] == HistoricalPoint(LatestYear, r.blue, r.orange)
    && r.recommendations == GenerateRecommendations(r.status, city.name)
    && |r.recommendations| == 4 && Mentions(r.recommendations[0], city.name)
    && r.description == Describe(city.name) && Mentions(r.description, city.name)
  }

  /** The analysis of a city of the table. */
  method AnalyzeKnownCity(city: City, reply: Reply, noise: real, seed: int) returns (r: Analysis)
    requires -MaxNoise <= noise <= MaxNoise
    ensures Reports(r, city, reply, noise)
  {
    var events := GetNasaEvents(reply);
    var ratios := CalculatePollution(city.id, events, noise);
    var a := Assess(ratios.blue, seed);
    ScoreDeterminesBand(a.healthScore, a.status);
    var history := GenerateHistoricalData(city.id, ratios.blue, ratios.orange);
    HistoryStaysComplementary(city.id, events, noise, history);
    var recommendations := GenerateRecommendations(Label(a.status), city.name);
    r := Found(city, Describe(city.name), Label(a.status), a.healthScore, ratios.blue, ratios.orange,
               events, history, recommendations);
  }

  /** `analyze_city`: 404 with a fixed message for an id outside the table, otherwise the analysis of
      that city. */
  method AnalyzeCity(cityId: string, reply: Reply, noise: real, seed: int) returns (r: Analysis)
    requires -MaxNoise <= noise <= MaxNoise
    ensures r.NotFound? <==> cityId !in KnownIds
    ensures r.NotFound? ==> r.code == NotFoundCode && r.error == NotFoundMessage
    ensures r.Found? ==> r.city.id == cityId && r.city in PeruCities && Reports(r, r.city, reply, noise)
  {
    var found := Lookup(cityId);
    if found.None? {
      r := NotFound(NotFoundCode, NotFoundMessage);
    } else {
      r := AnalyzeKnownCity(found.value, reply, noise, seed);
    }
  }

  /** Lima's base of 0.65 with the adapter's at most three events and the worst draw still exceeds
      0.6, so Lima is always reported critical. */
  lemma LimaIsAlwaysCritical(reply: Reply, noise: real)
    requires -MaxNoise <= noise <= MaxNoise
    ensures Classify(CalculatePollution("lima", GetNasaEvents(reply), noise).blue) == Critical
  {
    AdapterEventsAreNeverClamped("lima", GetNasaEvents(reply), noise);
  }

  /** Huánuco's base of 0.38 with at most three events and the best draw stays at or below 0.455,
      so Huánuco is never reported critical. */
  lemma HuanucoIsNeverCritical(reply: Reply, noise: real)
    requires -MaxNoise <= noise <= MaxNoise
    ensures Classify(CalculatePollution("huanuco", GetNasaEvents(reply), noise).blue) != Critical
  {
    AdapterEventsAreNeverClamped("huanuco", GetNasaEvents(reply), noise);
  }

  /** The aggregator's unused `growth` column and the projector's trend table agree for every id,
      defaults included, so the two literal tables describe the same per-city trend. */
  lemma GrowthMatchesTrend(cityId: string)
    ensures ConstantsFor(cityId).growth == TrendFor(cityId)
  {
  }
}
