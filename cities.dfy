/** The reference table of supported cities (PERU_CITIES). */
module Cities {
  import opened Wrappers

  /** One row of the table: the key, its display name, centroid, population and region. */
  datatype City = City(id: string, name: string, lat: real, lon: real, population: nat, region: string)

  /** The table in its declaration order, which is the order the city summary lists it in. */
  const PeruCities: seq<City> := [
    City("lima", "Lima Metropolitana", -12.0464, -77.0428, 11000000, "Lima"),
    City("huanuco", "Huánuco", -9.9295, -76.2397, 196000, "Huánuco"),
    City("cusco", "Cusco", -13.5319, -71.9675, 500000, "Cusco"),
    City("arequipa", "Arequipa", -16.4090, -71.5375, 1100000, "Arequipa")
  ]

  /** The keys of the table. */
  const KnownIds: set<string> := set c | c in PeruCities :: c.id

  ghost predicate Listed(cities: seq<City>, id: string) {
    exists i :: 0 <= i < |cities| && cities[i].id == id
  }

  /** First row of `cities` whose key is `id`, if any (dictionary membership and indexing). */
  function Find(cities: seq<City>, id: string): (r: Option<City>)
    ensures r.Some? <==> Listed(cities, id)
    ensures r.Some? ==> r.value.id == id && r.value in cities
  {
    if cities == [] then None
    else if cities[0].id == id then Some(cities[0])
    else
      var r := Find(cities[1..], id);
      assert Listed(cities, id) ==> cities[0].id == id || Listed(cities[1..], id) by {
        if Listed(cities, id) {
          var i :| 0 <= i < |cities| && cities[i].id == id;
          if i > 0 { assert cities[1..][i - 1].id == id; }
        }
      }
      assert r.Some? ==> Listed(cities, id) by {
        if r.Some? {
          var i :| 0 <= i < |cities[1..]| && cities[1..][i].id == id;
          assert cities[i + 1].id == id;
        }
      }
      r
  }

  /** The membership test `city_id not in PERU_CITIES` followed by `PERU_CITIES[city_id]`: a city is found
      exactly when its key is one of the four known ones. */
  function Lookup(id: string): (r: Option<City>)
    ensures r.Some? <==> id in KnownIds
    ensures r.Some? ==> r.value.id == id && r.value in PeruCities
  {
    var r := Find(PeruCities, id);
    assert id in KnownIds ==> Listed(PeruCities, id) by {
      if id == "lima" { assert PeruCities[0].id == id; }
      else if id == "huanuco" { assert PeruCities[1].id == id; }
      else if id == "cusco" { assert PeruCities[2].id == id; }
      else if id == "arequipa" { assert PeruCities[3].id == id; }
    }
    r
  }

  /** The keys of the table are pairwise distinct, so iterating it visits each city once. */
  lemma IdsDistinct()
    ensures forall i, j :: 0 <= i < j < |PeruCities| ==> PeruCities[i].id != PeruCities[j].id
  {
  }
}
