/** The historical projector (`generate_historical_data`). */
module History {
  const Years: seq<int> := [2020, 2021, 2022, 2023]
  const LatestYear: int := 2023

  /** The projector's own per-city trend table, with its default for unlisted ids. */
  const Trends: map<string, real> := map["lima" := 0.04, "huanuco" := 0.01, "cusco" := 0.03, "arequipa" := 0.035]
  const DefaultTrend: real := 0.02

  const BlueFloor: real := 0.1
  const OrangeCeiling: real := 0.8

  datatype HistoricalPoint = HistoricalPoint(year: int, blue: real, orange: real)

  /** `trends.get(city_id, 0.02)`: every trend is positive, and the default is used exactly for
      unlisted ids. */
  function TrendFor(cityId: string): (t: real)
    ensures 0.01 <= t <= 0.04
    ensures t == DefaultTrend <==> cityId !in Trends
  {
    if cityId in Trends then Trends[cityId] else DefaultTrend
  }

  /** `years_ago * trend`. */
  function Shift(trend: real, year: int): real {
    ((LatestYear - year) as real) * trend
  }

  /** One back-projected point: the blue ratio goes down by `trend` per year back, floored at 0.1;
      the orange ratio goes up by `trend` per year back, capped at 0.8. */
  function Project(trend: real, currentBlue: real, currentOrange: real, year: int): (p: HistoricalPoint)
    ensures p.year == year
    ensures p.blue >= BlueFloor && p.orange <= OrangeCeiling
    ensures year == LatestYear && currentBlue >= BlueFloor ==> p.blue == currentBlue
    ensures year == LatestYear && currentOrange <= OrangeCeiling ==> p.orange == currentOrange
  {
    var shift := Shift(trend, year);
    var blue := if currentBlue - shift < BlueFloor then BlueFloor else currentBlue - shift;
    var orange := if currentOrange + shift > OrangeCeiling then OrangeCeiling else currentOrange + shift;
    HistoricalPoint(year, blue, orange)
  }

  /** With a non-negative trend, a later year never has a lower blue or a higher orange ratio. */
  lemma {:induction false} ProjectIsMonotone(trend: real, currentBlue: real, currentOrange: real, y1: int, y2: int)
    requires trend >= 0.0
    requires y1 <= y2
    ensures Project(trend, currentBlue, currentOrange, y1).blue <= Project(trend, currentBlue, currentOrange, y2).blue
    ensures Project(trend, currentBlue, currentOrange, y1).orange >= Project(trend, currentBlue, currentOrange, y2).orange
  {
    ScaleIsMonotone((LatestYear - y2) as real, (LatestYear - y1) as real, trend);
    assert Shift(trend, y2) <= Shift(trend, y1);
  }

  lemma NonNegativeProduct(x: real, y: real)
    requires x >= 0.0 && y >= 0.0
    ensures x * y >= 0.0
  {
  }

  lemma ScaleIsMonotone(x: real, y: real, t: real)
    requires x <= y && t >= 0.0
    ensures x * t <= y * t
  {
    NonNegativeProduct(y - x, t);
    assert (y - x) * t == y * t - x * t;
  }

  /** Years strictly ascending, blue non-decreasing and orange non-increasing along the list. */
  ghost predicate Chronological(history: seq<HistoricalPoint>) {
    forall i, j :: 0 <= i < j < |history| ==>
      history[i].year < history[j].year && history[i].blue <= history[j].blue && history[i].orange >= history[j].orange
  }

  /** Builds the list by appending one projected point per year of the fixed window. */
  method GenerateHistoricalData(cityId: string, currentBlue: real, currentOrange: real)
    returns (history: seq<HistoricalPoint>)
    ensures |history| == |Years|
    ensures forall i :: 0 <= i < |history| ==>
              history[i].year == Years[i] && history[i] == Project(TrendFor(cityId), currentBlue, currentOrange, Years[i])
    ensures forall i :: 0 <= i < |history| ==> history[i].blue >= BlueFloor && history[i].orange <= OrangeCeiling
    ensures Chronological(history)
    ensures currentBlue >= BlueFloor && currentOrange <= OrangeCeiling ==>
              history[|history| - 1] == HistoricalPoint(LatestYear, currentBlue, currentOrange)
  {
    var trend := TrendFor(cityId);
    history := [];
    for k := 0 to |Years|
      invariant |history| == k
      invariant forall i :: 0 <= i < k ==> history[i] == Project(trend, currentBlue, currentOrange, Years[i])
    {
      history := history + [Project(trend, currentBlue, currentOrange, Years[k])];
    }
    forall i, j | 0 <= i < j < |history|
      ensures history[i].year < history[j].year && history[i].blue <= history[j].blue && history[i].orange >= history[j].orange
    {
      ProjectIsMonotone(trend, currentBlue, currentOrange, Years[i], Years[j]);
    }
  }

  /** The two projected ratios stop summing to one once a bound is hit: blue 0.2, orange 0.8 and the
      default trend give 0.14 + 0.8 three years back. */
  lemma ProjectionCanLeaveComplement()
    ensures Project(DefaultTrend, 0.2, 0.8, 2020) == HistoricalPoint(2020, 0.14, 0.8)
  {
  }

  /** As long as neither bound is hit, a projected point keeps the complement of the current ratios. */
  lemma {:induction false} ProjectionKeepsComplement(trend: real, currentBlue: real, year: int)
    requires 0.0 <= trend <= 0.04 && LatestYear - 3 <= year <= LatestYear
    requires 0.35 <= currentBlue <= 0.725
    ensures Project(trend, currentBlue, 1.0 - currentBlue, year).blue + Project(trend, currentBlue, 1.0 - currentBlue, year).orange == 1.0
  {
    var a := (LatestYear - year) as real;
    assert 0.0 <= a <= 3.0;
    var d := Shift(trend, year);
    NonNegativeProduct(a, trend);
    ScaleIsMonotone(a, 3.0, trend);
    assert 0.0 <= d <= 0.12;
    assert currentBlue - d >= BlueFloor && (1.0 - currentBlue) + d <= OrangeCeiling;
  }
}
