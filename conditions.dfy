/** The weather-code tables of the upstream forecast provider:
    `getConditionPrincipale`, `getDescriptionMeteo` and `getIconMeteo`.
    Each is a lookup in a ten-entry table with the sunny value as default. */
module Conditions {

  /** The `{main, description, icon}` object a forecast day carries. */
  datatype Condition = Condition(main: string, description: string, icon: string)

  const MainByCode: map<int, string> := map[
    0 := "Clear", 1 := "Clouds", 2 := "Clouds", 3 := "Clouds", 4 := "Clouds",
    5 := "Rain", 6 := "Rain", 7 := "Snow", 8 := "Rain", 9 := "Thunderstorm"]

  const DescriptionByCode: map<int, string> := map[
    0 := "ensoleillé", 1 := "peu nuageux", 2 := "ciel voilé", 3 := "nuageux",
    4 := "très nuageux", 5 := "pluvieux", 6 := "pluie forte", 7 := "neigeux",
    8 := "pluie éparse", 9 := "orageux"]

  const IconByCode: map<int, string> := map[
    0 := "01d", 1 := "02d", 2 := "02d", 3 := "03d", 4 := "04d",
    5 := "10d", 6 := "10d", 7 := "13d", 8 := "09d", 9 := "11d"]

  /** The triple every code outside the tables falls back to. */
  const Sunny := Condition("Clear", "ensoleillé", "01d")

  /** The category of a weather code. */
  function ConditionPrincipale(code: int): (r: string)
    ensures !(0 <= code <= 9) ==> r == "Clear"
    ensures r in {"Clear", "Clouds", "Rain", "Snow", "Thunderstorm"}
  {
    if code in MainByCode then MainByCode[code] else "Clear"
  }

  /** The French description of a weather code. */
  function DescriptionMeteo(code: int): (r: string)
    ensures !(0 <= code <= 9) ==> r == "ensoleillé"
    ensures r != ""
  {
    if code in DescriptionByCode then DescriptionByCode[code] else "ensoleillé"
  }

  /** The icon name of a weather code. */
  function IconMeteo(code: int): (r: string)
    ensures !(0 <= code <= 9) ==> r == "01d"
    ensures |r| == 3
  {
    if code in IconByCode then IconByCode[code] else "01d"
  }

  /** The condition object built from the three lookups, as a forecast day
      built from upstream data carries it: the row of the code in the table,
      and the sunny row for code 0 and any code outside 0..9. No field is
      ever empty. */
  function ConditionOf(code: int): (r: Condition)
    ensures r == Row(code)
    ensures !(0 <= code <= 9) || code == 0 ==> r == Sunny
    ensures r.main != "" && r.description != "" && r.icon != ""
  {
    Condition(ConditionPrincipale(code), DescriptionMeteo(code), IconMeteo(code))
  }

  /** The table read row by row: the reference the three column lookups
      are checked against. */
  function Row(code: int): (r: Condition)
  {
    if code == 1 then Condition("Clouds", "peu nuageux", "02d")
    else if code == 2 then Condition("Clouds", "ciel voilé", "02d")
    else if code == 3 then Condition("Clouds", "nuageux", "03d")
    else if code == 4 then Condition("Clouds", "très nuageux", "04d")
    else if code == 5 then Condition("Rain", "pluvieux", "10d")
    else if code == 6 then Condition("Rain", "pluie forte", "10d")
    else if code == 7 then Condition("Snow", "neigeux", "13d")
    else if code == 8 then Condition("Rain", "pluie éparse", "09d")
    else if code == 9 then Condition("Thunderstorm", "orageux", "11d")
    else Sunny
  }
}
