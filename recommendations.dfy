/** The recommendation lookup (`generate_recommendations`). */
module Recommendations {
  import opened Classifier

  /** `sub` occurs in `s` starting at index `i`. */
  predicate OccursAt(s: string, sub: string, i: int) {
    0 <= i && i + |sub| <= |s| && s[i..i + |sub|] == sub
  }

  ghost predicate Mentions(s: string, sub: string) {
    exists i :: OccursAt(s, sub, i)
  }

  /** The status string as the lookup reads it: only the two exact labels select their lists; any
      other string falls through to the healthy list. */
  function ParseStatus(status: string): (s: Status)
    ensures s == Critical <==> status == "CRÍTICO"
    ensures s == Moderate <==> status == "MODERADO"
  {
    if status == "CRÍTICO" then Critical
    else if status == "MODERADO" then Moderate
    else Healthy
  }

  /** Reading a reported label back gives the band it was reported for. */
  lemma ParseLabel(s: Status)
    ensures ParseStatus(Label(s)) == s
  {
  }

  function Opening(s: Status, cityName: string): (r: string)
    ensures Mentions(r, cityName)
  {
    var (pre, post) := match s
      case Critical => ("URGENTE: Reemplazar 50% de LED azules en ", "")
      case Moderate => ("Plan de transición a LED NASA-recomendados en ", "")
      case Healthy => ("¡Excelente! ", " cumple estándares NASA");
    var r := pre + cityName + post;
    assert OccursAt(r, cityName, |pre|) by {
      assert r[|pre|..|pre| + |cityName|] == cityName;
    }
    r
  }

  /** The three fixed lines that follow the opening one, per band. */
  function FixedLines(s: Status): (r: seq<string>)
    ensures |r| == 3
  {
    match s
    case Critical => [
      "Implementar norma técnica NASA-compatible",
      "Crear zonas de protección de cielo oscuro",
      "Sistema de monitoreo continuo con datos satelitales"]
    case Moderate => [
      "Monitoreo mensual con Earth Imagery API",
      "Educación sobre estándares internacionales",
      "Participar en programa NASA 'Dark Sky Cities'"]
    case Healthy => [
      "Mantener certificación 'NASA Dark Sky Friendly'",
      "Compartir prácticas con Red Global NASA",
      "Implementar observatorio ciudadano"]
  }

  /** Always four lines; the first names the city, the other three are the band's fixed lines. */
  function GenerateRecommendations(status: string, cityName: string): (r: seq<string>)
    ensures |r| == 4
    ensures r[0] == Opening(ParseStatus(status), cityName) && Mentions(r[0], cityName)
    ensures r[1..] == FixedLines(ParseStatus(status))
  {
    var s := ParseStatus(status);
    [Opening(s, cityName)] + FixedLines(s)
  }

  /** The handler passes the reported label of a band; the lookup then answers with that band's own
      lines, after an opening line naming the city. */
  lemma {:induction false} LabelSelectsBandLines(s: Status, cityName: string)
    ensures GenerateRecommendations(Label(s), cityName)[1..] == FixedLines(s)
    ensures GenerateRecommendations(Label(s), cityName)[0] == Opening(s, cityName)
  {
    ParseLabel(s);
  }
}
