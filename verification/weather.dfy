/**
 * The weather card: a WMO weather code turned into a description and an
 * icon, the temperature rounded, and a loading or unavailable view while
 * there is nothing to show.
 */
module Weather {
  import opened Wrappers

  datatype WeatherData = WeatherData(temperature: real, weatherCode: int, city: string)

  datatype Icon = Sun | CloudIcon | Wind | CloudRain | CloudSnow | CloudLightning

  const FogCodes: seq<int> := [45, 48]
  const RainCodes: seq<int> := [51, 53, 55, 61, 63, 65, 80, 81, 82]
  const SnowCodes: seq<int> := [71, 73, 75, 77, 85, 86]
  const StormCodes: seq<int> := [95, 96, 99]

  /** `getWeatherIcon(code)`. */
  function IconOf(code: int): Icon {
    if code == 0 || code == 1 then Sun
    else if code == 2 || code == 3 then CloudIcon
    else if code in FogCodes then Wind
    else if code in RainCodes then CloudRain
    else if code in SnowCodes then CloudSnow
    else if code in StormCodes then CloudLightning
    else Sun
  }

  /** `getWeatherDescription(code)`. */
  function Description(code: int): string {
    if code == 0 then "Sunny"
    else if code == 1 then "Mainly Sunny"
    else if code == 2 then "Partly Cloudy"
    else if code == 3 then "Overcast"
    else if code in FogCodes then "Foggy"
    else if code in RainCodes then "Rainy"
    else if code in SnowCodes then "Snowy"
    else if code in StormCodes then "Stormy"
    else "Sunny"
  }

  /** The icon each description goes with. */
  function IconFor(description: string): Icon {
    if description == "Sunny" || description == "Mainly Sunny" then Sun
    else if description == "Partly Cloudy" || description == "Overcast" then CloudIcon
    else if description == "Foggy" then Wind
    else if description == "Rainy" then CloudRain
    else if description == "Snowy" then CloudSnow
    else CloudLightning
  }

  /** The icon always agrees with the description, and a code outside the
      lists reads as sunny with the sun icon. */
  lemma IconMatchesDescription(code: int)
    ensures IconOf(code) == IconFor(Description(code))
    ensures code !in [0, 1, 2, 3] + FogCodes + RainCodes + SnowCodes + StormCodes ==>
      Description(code) == "Sunny" && IconOf(code) == Sun
  {
  }

  /** The code lists do not overlap, so the order of the tests does not
      matter. */
  lemma CodeListsDisjoint(code: int)
    ensures !(code in FogCodes && code in RainCodes)
    ensures !(code in RainCodes && code in SnowCodes)
    ensures !(code in SnowCodes && code in StormCodes)
    ensures !(code in FogCodes && code in SnowCodes)
    ensures !(code in FogCodes && code in StormCodes)
    ensures !(code in RainCodes && code in StormCodes)
  {
  }

  /** `Math.round`: the nearest integer, halves rounded up. */
  function Round(x: real): int {
    (x + 0.5).Floor
  }

  /** What the card shows. */
  datatype View = Loading | Unavailable | Report(city: string, degrees: int, description: string, icon: Icon)

  function ViewOf(weather: Option<WeatherData>, loading: bool, error: bool): View {
    if loading then Loading
    else if error || weather.None? then Unavailable
    else
      var w := weather.value;
      Report(w.city, Round(w.temperature), Description(w.weatherCode), IconOf(w.weatherCode))
  }

  /** Loading wins over an error; an error or missing data shows the
      unavailable view; otherwise the report shows the data, its
      temperature within half a degree, and an icon that matches its
      description. */
  lemma ViewSpec(weather: Option<WeatherData>, loading: bool, error: bool)
    ensures ViewOf(weather, loading, error).Loading? <==> loading
    ensures ViewOf(weather, loading, error).Unavailable? <==> !loading && (error || weather.None?)
    ensures ViewOf(weather, loading, error).Report? ==>
      var v, w := ViewOf(weather, loading, error), weather.value;
      && v.city == w.city
      && v.degrees as real - 0.5 <= w.temperature < v.degrees as real + 0.5
      && v.icon == IconFor(v.description)
  {
    if !loading && !error && weather.Some? {
      IconMatchesDescription(weather.value.weatherCode);
    }
  }
}
