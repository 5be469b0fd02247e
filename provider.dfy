/** `getMeteoConceptData`: one upstream call, the transform of its body, and
    the placeholder forecast whenever either fails. */
module Provider {
  import opened Wrappers
  import opened Forecast
  import opened Simulation

  /** The outcome of the one HTTP call to the provider: the call itself
      failed (network error, error status), or it answered with a body that
      may be empty. The request always names the same fixed region, whatever
      city is asked for, so this outcome does not depend on the city. */
  datatype Upstream = CallFailed | Responded(body: Option<ApiBody>)

  /** The runtime facilities the provider path reads: French date formatting,
      the calendar from today on, and the random draws. */
  datatype Environment = Environment(
    localeDate: string -> string,
    calendar: nat -> CalendarDay,
    random: nat -> Draw)

  /** What `getMeteoConceptData(nomVille)` resolves to. */
  function ProviderData(upstream: Upstream, nomVille: string, env: Environment): (r: seq<DayForecast>)
    ensures |r| <= 7
    ensures forall i :: 0 <= i < |r| ==> r[i].ville == nomVille
    ensures forall i :: 0 <= i < |r| ==> r[i].condition.description != "" && r[i].condition.icon != ""
  {
    match upstream
    case CallFailed => Simulated(nomVille, env.calendar, env.random)
    case Responded(body) =>
      match Transformed(body, nomVille, env.localeDate)
      case Success(previsions) => previsions
      case Failure(_) => Simulated(nomVille, env.calendar, env.random)
  }

  /** The adapter never fails: a failed call, or any body the transform
      rejects (no body, no `forecast`, a `forecast` that is not an array, a
      missing item among the first seven), gives the seven placeholder days;
      a body it accepts gives the transform, with at most seven days. */
  lemma ProviderOutcome(upstream: Upstream, nomVille: string, env: Environment)
    ensures var r := ProviderData(upstream, nomVille, env);
      && (upstream.CallFailed? || Transformed(upstream.body, nomVille, env.localeDate).Failure? ==>
            r == Simulated(nomVille, env.calendar, env.random) && |r| == 7)
      && (upstream.Responded? && Transformed(upstream.body, nomVille, env.localeDate).Success? ==>
            Transformed(upstream.body, nomVille, env.localeDate) == Success(r)
            && |r| == Min(MaxDays, |upstream.body.value.forecast.items|))
      && (upstream.Responded? && (upstream.body.None? || !upstream.body.value.forecast.Items?) ==> |r| == 7)
      && (upstream.Responded? && upstream.body.Some? && upstream.body.value.forecast.Items? ==>
            var items := upstream.body.value.forecast.items;
            (exists i :: 0 <= i < Min(MaxDays, |items|) && items[i].None?) ==> |r| == 7)
  {
  }

  /** `getMeteoConceptData`, with the `try`/`catch` as a case split. */
  method GetMeteoConceptData(upstream: Upstream, nomVille: string, env: Environment)
    returns (previsions: seq<DayForecast>)
    ensures previsions == ProviderData(upstream, nomVille, env)
  {
    if upstream.CallFailed? {
      previsions := GenererDonneesSimulees(nomVille, env.calendar, env.random);
      return;
    }
    var transformed := TransformerDonneesMeteoConcept(upstream.body, nomVille, env.localeDate);
    if transformed.Failure? {
      previsions := GenererDonneesSimulees(nomVille, env.calendar, env.random);
    } else {
      previsions := transformed.value;
    }
  }
}
