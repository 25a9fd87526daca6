/** The natural-event adapter: how an upstream reply becomes the short event list the pipeline uses. */
module Events {
  import opened Wrappers

  /** Upstream fields the adapter reads; a field the reply lacks is `None` (a missing dictionary key). */
  datatype Geometry = Geometry(date: Option<string>)
  datatype Category = Category(title: Option<string>)
  datatype RawEvent = RawEvent(title: Option<string>, geometry: seq<Geometry>, categories: seq<Category>)

  /** The shaped record the adapter returns. */
  datatype Event = Event(title: string, date: string, category: string)

  /** What the HTTP call yields: it raised (timeout, transport or decoding error), or a status code
      and the `events` member of the decoded body, if present. */
  datatype Reply = Raised | Reply(statusCode: int, events: Option<seq<RawEvent>>)

  const MaxEvents: nat := 3
  const DateWidth: nat := 10
  const StatusOk: int := 200

  /** Python's slice `xs[:n]`, on strings and lists alike. */
  function Prefix<T>(xs: seq<T>, n: nat): (r: seq<T>)
    ensures |r| == if |xs| <= n then |xs| else n
    ensures r <= xs
    ensures |xs| <= n ==> r == xs
  {
    if |xs| <= n then xs else xs[..n]
  }

  /** Shaping one event raises unless the title, the first geometry's date and the first category's
      title are all there. */
  predicate Shapeable(e: RawEvent) {
    && e.title.Some?
    && |e.geometry| > 0 && e.geometry[0].date.Some?
    && |e.categories| > 0 && e.categories[0].title.Some?
  }

  function ShapeOne(e: RawEvent): (r: Event)
    requires Shapeable(e)
    ensures r.title == e.title.value
    ensures r.date <= e.geometry[0].date.value
    ensures |r.date| == if |e.geometry[0].date.value| <= DateWidth then |e.geometry[0].date.value| else DateWidth
    ensures r.category == e.categories[0].title.value
  {
    Event(e.title.value, Prefix(e.geometry[0].date.value, DateWidth), e.categories[0].title.value)
  }

  /** The list comprehension: every element is shaped in order, and the first one that cannot be
      shaped aborts the whole comprehension. */
  function ShapeAll(raw: seq<RawEvent>): (r: Option<seq<Event>>)
    ensures r.Some? <==> forall i :: 0 <= i < |raw| ==> Shapeable(raw[i])
    ensures r.Some? ==> |r.value| == |raw|
    ensures r.Some? ==> forall i :: 0 <= i < |raw| ==> Shapeable(raw[i]) && r.value[i] == ShapeOne(raw[i])
  {
    if raw == [] then Some([])
    else if !Shapeable(raw[0]) then None
    else
      match ShapeAll(raw[1..])
      case None =>
        assert !forall i :: 0 <= i < |raw| ==> Shapeable(raw[i]) by {
          var k :| 0 <= k < |raw[1..]| && !Shapeable(raw[1..][k]);
          assert !Shapeable(raw[k + 1]);
        }
        None
      case Some(rest) =>
        var r := [ShapeOne(raw[0])] + rest;
        assert forall i :: 0 < i < |raw| ==> raw[i] == raw[1..][i - 1];
        Some(r)
  }

  /** `get_nasa_events`: only a 200 reply yields events; a missing `events` member reads as the empty
      list; the first three upstream events are shaped; any failure, including one raised while
      shaping, yields the empty list. */
  function GetNasaEvents(reply: Reply): (r: seq<Event>)
    ensures |r| <= MaxEvents
    ensures forall i :: 0 <= i < |r| ==> |r[i].date| <= DateWidth
    ensures (reply.Raised? || reply.statusCode != StatusOk) ==> r == []
    ensures r != [] ==> reply.Reply? && reply.events.Some? && |r| == |Prefix(reply.events.value, MaxEvents)|
    ensures r != [] ==> forall i :: 0 <= i < |r| ==>
              Shapeable(reply.events.value[i]) && r[i] == ShapeOne(reply.events.value[i])
  {
    match reply
    case Raised => []
    case Reply(code, events) =>
      if code != StatusOk then []
      else
        var raw := events.GetOr([]);
        match ShapeAll(Prefix(raw, MaxEvents))
        case None => []
        case Some(shaped) => shaped
  }

  /** A 200 reply whose first three events are all well formed is shaped element by element, so
      nothing is dropped or reordered beyond the cut at three. */
  lemma {:induction false} WellFormedReplyIsKept(raw: seq<RawEvent>)
    requires forall i :: 0 <= i < |raw| && i < MaxEvents ==> Shapeable(raw[i])
    ensures |GetNasaEvents(Reply(StatusOk, Some(raw)))| == if |raw| < MaxEvents then |raw| else MaxEvents
    ensures forall i :: 0 <= i < |raw| && i < MaxEvents ==>
              GetNasaEvents(Reply(StatusOk, Some(raw)))[i] == ShapeOne(raw[i])
  {
    var head := Prefix(raw, MaxEvents);
    assert forall i :: 0 <= i < |head| ==> head[i] == raw[i];
    assert ShapeAll(head).Some?;
  }

  /** One malformed event among the first three empties the whole list. */
  lemma {:induction false} MalformedEventEmptiesList(raw: seq<RawEvent>, k: nat)
    requires k < |raw| && k < MaxEvents && !Shapeable(raw[k])
    ensures GetNasaEvents(Reply(StatusOk, Some(raw))) == []
  {
    var head := Prefix(raw, MaxEvents);
    assert head[k] == raw[k];
  }
}
