/** The fixed table of Chadian cities the server knows (`villesTchad`),
    its public listing and its lookup by id. */
module Registry {
  import opened Wrappers

  /** One registry record: id, display name and region code. */
  datatype City = City(id: int, nom: string, codeInsee: string)

  /** What `GET /api/villes` returns per city: the region code is dropped. */
  datatype CitySummary = CitySummary(id: int, nom: string)

  /** The names of the table, in its order. */
  const Noms: seq<string> := [
    "N'Djamena", "Moundou", "Sarh", "Abéché", "Mongo",
    "Kélo", "Koumra", "Pala", "Am Timan", "Bongor"]

  /** The region codes of the table, in its order. */
  const CodesInsee: seq<string> := [
    "TD001", "TD002", "TD003", "TD004", "TD005",
    "TD006", "TD007", "TD008", "TD009", "TD010"]

  /** `villesTchad`: record k has id k + 1, the k-th name and the k-th code. */
  const Cities: seq<City> := [
    City(1, Noms[0], CodesInsee[0]),
    City(2, Noms[1], CodesInsee[1]),
    City(3, Noms[2], CodesInsee[2]),
    City(4, Noms[3], CodesInsee[3]),
    City(5, Noms[4], CodesInsee[4]),
    City(6, Noms[5], CodesInsee[5]),
    City(7, Noms[6], CodesInsee[6]),
    City(8, Noms[7], CodesInsee[7]),
    City(9, Noms[8], CodesInsee[8]),
    City(10, Noms[9], CodesInsee[9])
  ]

  /** Record k of the table carries id k + 1. */
  lemma RegistryIds()
    ensures |Cities| == 10
    ensures forall i :: 0 <= i < |Cities| ==> Cities[i].id == i + 1
  {
  }

  /** The projection `cities.map(v => ({id: v.id, nom: v.nom}))`. */
  function Summaries(cities: seq<City>): (r: seq<CitySummary>)
    ensures |r| == |cities|
    ensures forall i :: 0 <= i < |cities| ==> r[i].id == cities[i].id && r[i].nom == cities[i].nom
  {
    if cities == [] then [] else [CitySummary(cities[0].id, cities[0].nom)] + Summaries(cities[1..])
  }

  /** The body of `GET /api/villes`: ids 1 to 10, in registry order. */
  function ListCities(): (r: seq<CitySummary>)
    ensures |r| == |Cities| == 10
    ensures forall i :: 0 <= i < |r| ==> r[i].id == i + 1 && r[i].nom == Cities[i].nom
  {
    RegistryIds();
    Summaries(Cities)
  }

  /** `Array.prototype.find` over the table with `v.id === id`. */
  function Find(cities: seq<City>, id: int): (r: Option<City>)
    ensures r.None? <==> forall c :: c in cities ==> c.id != id
    ensures r.Some? ==> r.value in cities && r.value.id == id
    ensures r.Some? ==> exists j :: 0 <= j < |cities| && r.value == cities[j]
                                    && forall k :: 0 <= k < j ==> cities[k].id != id
  {
    if cities == [] then None
    else if cities[0].id == id then Some(cities[0])
    else
      var r := Find(cities[1..], id);
      if r.Some? then
        var j :| 0 <= j < |cities| - 1 && r.value == cities[1..][j]
                 && forall k :: 0 <= k < j ==> cities[1..][k].id != id;
        assert forall k :: 0 <= k < j + 1 ==> cities[k].id != id by {
          forall k | 0 <= k < j + 1 ensures cities[k].id != id {
            if k > 0 { assert cities[k] == cities[1..][k - 1]; }
          }
        }
        r
      else r
  }

  /** In a table whose ids run consecutively from `first`, the lookup of
      `id` finds the record at position `id - first`, and nothing outside
      that range. */
  lemma FindConsecutive(cities: seq<City>, first: int, id: int)
    requires forall i :: 0 <= i < |cities| ==> cities[i].id == first + i
    ensures Find(cities, id) == if first <= id < first + |cities| then Some(cities[id - first]) else None
  {
  }

  /** Looks up an already-parsed path parameter; `None` stands for the
      `NaN` that `parseInt` yields on a non-numeric parameter. Exactly the
      ids 1 to 10 are known, and id k names the k-th record. */
  function FindCity(villeId: Option<int>): (r: Option<City>)
    ensures r.Some? <==> villeId.Some? && 1 <= villeId.value <= 10
    ensures r.Some? ==> r.value == Cities[villeId.value - 1]
  {
    match villeId
    case None => None
    case Some(id) =>
      RegistryIds();
      FindConsecutive(Cities, 1, id);
      Find(Cities, id)
  }

  /** Every listed city can be looked up by its listed id and gives back the
      record it was listed from. */
  lemma ListedCitiesAreFound(i: int)
    requires 0 <= i < |ListCities()|
    ensures FindCity(Some(ListCities()[i].id)) == Some(Cities[i])
    ensures FindCity(Some(ListCities()[i].id)).value.nom == ListCities()[i].nom
  {
  }
}
