/** The forecast-day records the server returns, the shape of the upstream
    provider's daily forecast, and `transformerDonneesMeteoConcept`, which
    turns the latter into the former. */
module Forecast {
  import opened Wrappers
  import opened Conditions

  datatype Temperature = Temperature(min: int, max: int)

  /** One element of the array `GET /api/meteo/:villeId` answers with. */
  datatype DayForecast = DayForecast(
    date: string,
    dateLisible: string,
    temperature: Temperature,
    condition: Condition,
    ville: string)

  /** One item of the provider's `forecast` collection; `tmin` and `tmax`
      are taken after rounding to the nearest integer. */
  datatype UpstreamDay = UpstreamDay(datetime: string, tmin: int, tmax: int, weather: int)

  /** The `forecast` member of the provider's body: missing (absent or
      falsy), present but not an array, or an array whose items may be
      `null` or `undefined` (`None`). */
  datatype ForecastField = Missing | NotAnArray | Items(items: seq<Option<UpstreamDay>>)

  /** The provider's response body. */
  datatype ApiBody = ApiBody(forecast: ForecastField)

  /** `InvalidApiData` is the exception `Données API invalides` the transform
      throws itself; `TypeError` is what the runtime throws when it calls
      `forEach` on a non-array or reads `datetime` of a missing item. */
  datatype TransformError = InvalidApiData | TypeError

  /** At most this many days are kept from the provider. */
  const MaxDays: nat := 7

  function Min(a: int, b: int): (r: int)
    ensures r <= a && r <= b && (r == a || r == b)
  {
    if a <= b then a else b
  }

  /** The record built from one upstream item; `localeDate` is the French
      long-form date formatting of the runtime, applied to `datetime`. Every
      record carries the city's name and a condition whose fields are filled. */
  function DayOf(jour: UpstreamDay, nomVille: string, localeDate: string -> string): (d: DayForecast)
    ensures d.ville == nomVille
    ensures d.condition.main in {"Clear", "Clouds", "Rain", "Snow", "Thunderstorm"}
    ensures d.condition.description != "" && |d.condition.icon| == 3
  {
    DayForecast(jour.datetime, localeDate(jour.datetime), Temperature(jour.tmin, jour.tmax),
                ConditionOf(jour.weather), nomVille)
  }

  /** The `forEach` callback applied to every item, in order: it throws a
      `TypeError` as soon as an item is missing, and otherwise gives one
      record per item. */
  function MapItems(items: seq<Option<UpstreamDay>>, nomVille: string, localeDate: string -> string)
    : (r: Result<seq<DayForecast>, TransformError>)
    ensures r.Failure? <==> exists i :: 0 <= i < |items| && items[i].None?
    ensures r.Failure? ==> r.error == TypeError
    ensures r.Success? ==> |r.value| == |items|
    ensures r.Success? ==> forall i :: 0 <= i < |items| ==> items[i].Some? && r.value[i] == DayOf(items[i].value, nomVille, localeDate)
  {
    if items == [] then Success([])
    else
      match items[0]
      case None => Failure(TypeError)
      case Some(jour) =>
        match MapItems(items[1..], nomVille, localeDate)
        case Failure(e) =>
          assert exists i :: 0 <= i < |items| - 1 && items[1..][i].None?;
          Failure(e)
        case Success(rest) => Success([DayOf(jour, nomVille, localeDate)] + rest)
  }

  /** One more present item adds its record at the end. */
  lemma MapItemsSnoc(items: seq<Option<UpstreamDay>>, jour: UpstreamDay, previsions: seq<DayForecast>,
                     nomVille: string, localeDate: string -> string)
    requires MapItems(items, nomVille, localeDate) == Success(previsions)
    ensures MapItems(items + [Some(jour)], nomVille, localeDate)
         == Success(previsions + [DayOf(jour, nomVille, localeDate)])
  {
    var longer := items + [Some(jour)];
    assert forall i :: 0 <= i < |items| ==> longer[i] == items[i];
    var r := MapItems(longer, nomVille, localeDate);
    assert r.Success?;
    assert r.value == previsions + [DayOf(jour, nomVille, localeDate)];
  }

  /** What `transformerDonneesMeteoConcept` computes: `InvalidApiData` when
      the body or its `forecast` is missing, a `TypeError` when `forecast` is
      not an array or one of its first seven items is missing, and otherwise
      one record per item for the first seven items, each built from its
      item and stamped with the city's name. */
  function Transformed(donneesApi: Option<ApiBody>, nomVille: string, localeDate: string -> string)
    : (r: Result<seq<DayForecast>, TransformError>)
    ensures r == Failure(InvalidApiData) <==> donneesApi.None? || donneesApi.value.forecast.Missing?
    ensures r.Success? <==>
      && donneesApi.Some? && donneesApi.value.forecast.Items?
      && forall i :: 0 <= i < Min(MaxDays, |donneesApi.value.forecast.items|) ==>
           donneesApi.value.forecast.items[i].Some?
    ensures r.Success? ==> var items := donneesApi.value.forecast.items;
      && |r.value| == Min(MaxDays, |items|)
      && forall i :: 0 <= i < |r.value| ==>
           && r.value[i] == DayOf(items[i].value, nomVille, localeDate)
           && r.value[i].ville == nomVille
           && r.value[i].temperature == Temperature(items[i].value.tmin, items[i].value.tmax)
           && r.value[i].condition == ConditionOf(items[i].value.weather)
  {
    match donneesApi
    case None => Failure(InvalidApiData)
    case Some(body) =>
      match body.forecast
      case Missing => Failure(InvalidApiData)
      case NotAnArray => Failure(TypeError)
      case Items(items) =>
        var kept := items[..Min(MaxDays, |items|)];
        assert forall i :: 0 <= i < |kept| ==> kept[i] == items[i];
        MapItems(kept, nomVille, localeDate)
  }

  /** `transformerDonneesMeteoConcept`: walks the whole `forecast` array and
      pushes a record for each of the first seven items. */
  method TransformerDonneesMeteoConcept(donneesApi: Option<ApiBody>, nomVille: string, localeDate: string -> string)
    returns (r: Result<seq<DayForecast>, TransformError>)
    ensures r == Transformed(donneesApi, nomVille, localeDate)
  {
    if donneesApi.None? || donneesApi.value.forecast.Missing? {
      return Failure(InvalidApiData);
    }
    if donneesApi.value.forecast.NotAnArray? {
      return Failure(TypeError);
    }
    var forecast := donneesApi.value.forecast.items;
    var previsions: seq<DayForecast> := [];
    var index := 0;
    while index < |forecast|
      invariant 0 <= index <= |forecast|
      invariant MapItems(forecast[..Min(MaxDays, index)], nomVille, localeDate) == Success(previsions)
    {
      if index < MaxDays {
        assert forecast[..index + 1] == forecast[..index] + [forecast[index]];
        if forecast[index].None? {
          assert forecast[..Min(MaxDays, |forecast|)][index].None?;
          return Failure(TypeError);
        }
        MapItemsSnoc(forecast[..index], forecast[index].value, previsions, nomVille, localeDate);
        previsions := previsions + [DayOf(forecast[index].value, nomVille, localeDate)];
      }
      index := index + 1;
    }
    return Success(previsions);
  }
}
