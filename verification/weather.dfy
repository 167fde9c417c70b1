/**
 * The weather-code lookup of the weather widget (`weatherCodeToText` in
 * day4-weather/script.js): a fixed table of the forecast service's condition
 * codes with "Unknown" as the fallback.
 */
module Weather {
  import opened Wrappers

  /** The condition texts by numeric weather code. */
  const Conditions: map<int, string> := map[
    0 := "Clear sky",
    1 := "Mainly clear",
    2 := "Partly cloudy",
    3 := "Overcast",
    45 := "Foggy",
    48 := "Depositing rime fog",
    51 := "Light drizzle",
    61 := "Rain",
    80 := "Rain showers",
    95 := "Thunderstorm"
  ]

  const Fallback := "Unknown"

  /** The codes the widget knows by name, written out again on purpose: an
      independent reference the contract of `WeatherCodeToText` is checked
      against, not a second copy of the table. */
  const KnownCodes: set<int> := {0, 1, 2, 3, 45, 48, 51, 61, 80, 95}

  /** JavaScript truthiness of a looked-up text: present and non-empty. */
  predicate Truthy(v: Option<string>) {
    v.Some? && v.value != ""
  }

  /** `map[code] || "Unknown"`. A missing code (the response had no
      `weather_code`) is `None`; a code outside the table looks up nothing. */
  function WeatherCodeToText(code: Option<int>): (r: string)
    ensures r != ""
    ensures r == Fallback <==> !(code.Some? && code.value in KnownCodes)
    ensures r == Fallback || r in Conditions.Values
  {
    var found := if code.Some? && code.value in Conditions then Some(Conditions[code.value]) else None;
    if Truthy(found) then found.value else Fallback
  }

  /** Each listed code is shown as exactly its own text. */
  lemma ListedCodes()
    ensures WeatherCodeToText(Some(0)) == "Clear sky"
    ensures WeatherCodeToText(Some(1)) == "Mainly clear"
    ensures WeatherCodeToText(Some(2)) == "Partly cloudy"
    ensures WeatherCodeToText(Some(3)) == "Overcast"
    ensures WeatherCodeToText(Some(45)) == "Foggy"
    ensures WeatherCodeToText(Some(48)) == "Depositing rime fog"
    ensures WeatherCodeToText(Some(51)) == "Light drizzle"
    ensures WeatherCodeToText(Some(61)) == "Rain"
    ensures WeatherCodeToText(Some(80)) == "Rain showers"
    ensures WeatherCodeToText(Some(95)) == "Thunderstorm"
  {
  }

  /** Different known codes have different texts, so a text other than the
      fallback identifies its code. */
  lemma TextIdentifiesCode(a: Option<int>, b: Option<int>)
    requires WeatherCodeToText(a) == WeatherCodeToText(b) != Fallback
    ensures a == b
  {
  }
}
