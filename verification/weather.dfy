/**
  Weather: the WMO weather-interpretation-code mapping applied to the
  Open-Meteo reply, and the choice of a weather-conditioned phrase
  (`getWeatherGreeting`).
 */
module WeatherPhrase {
  import opened RandomPick
  import opened Content

  /** The four condition buckets the WMO mapping produces. */
  datatype Condition = Clear | Clouds | Rain | Snow {

    /** The string the mapping stores in the weather sample. */
    function Name(): string {
      match this
      case Clear => "clear"
      case Clouds => "clouds"
      case Rain => "rain"
      case Snow => "snow"
    }
  }

  /** Cloud cover and fog. */
  const CloudCodes: set<int> := {1, 2, 3, 45, 48}

  /** Drizzle, rain, freezing rain, showers and thunderstorms. */
  const RainCodes: set<int> :=
    {51, 53, 55, 56, 57, 61, 63, 65, 66, 67, 80, 81, 82, 95, 96, 99}

  /** Snowfall, snow grains and snow showers. */
  const SnowCodes: set<int> := {71, 73, 75, 77, 85, 86}

  /** The code-to-condition chain of `fetchWeatherData`, as a total function:
      each listed code goes to its bucket and every other code (0 included)
      is clear. */
  function ClassifyCode(code: int): (c: Condition)
    ensures c == Clouds <==> code in CloudCodes
    ensures c == Rain <==> code in RainCodes
    ensures c == Snow <==> code in SnowCodes
    ensures c == Clear <==> code !in CloudCodes + RainCodes + SnowCodes
  {
    if code == 0 then Clear
    else if code in [1, 2, 3] then Clouds
    else if code in [45, 48] then Clouds
    else if code in [51, 53, 55, 56, 57, 61, 63, 65, 66, 67, 80, 81, 82] then Rain
    else if code in [71, 73, 75, 77, 85, 86] then Snow
    else if code in [95, 96, 99] then Rain
    else Clear
  }

  /** A weather sample: the rounded temperature in degrees Celsius and the
      condition string. */
  datatype WeatherData = WeatherData(temp: int, condition: string)

  /** The sample `fetchWeatherData` builds from a reply whose temperature is
      already rounded; its condition is always one of the four bucket names. */
  function SampleOf(code: int, temp: int): (w: WeatherData)
    ensures w.temp == temp
    ensures w.condition in {"clear", "clouds", "rain", "snow"}
    ensures w.condition == "clear" <==> code !in CloudCodes + RainCodes + SnowCodes
  {
    WeatherData(temp, ClassifyCode(code).Name())
  }

  /** The phrase table a weather greeting is drawn from. */
  datatype Category = Cold | Hot | Rainy | Snowy | Sunny | Cloudy

  /** Condition strings answered with a rainy phrase. */
  const RainyNames: set<string> := {"rain", "drizzle", "thunderstorm"}

  /** Temperature bands first (strictly below 5 is cold, strictly above 30 is
      hot), then the condition; an unknown condition string counts as sunny. */
  function CategoryOf(w: WeatherData): (k: Category)
    ensures k == Cold <==> w.temp < 5
    ensures k == Hot <==> w.temp > 30
    ensures 5 <= w.temp <= 30 ==>
              && (k == Rainy <==> w.condition in RainyNames)
              && (k == Snowy <==> w.condition == "snow")
              && (k == Cloudy <==> w.condition == "clouds")
              && (k == Sunny <==> w.condition !in RainyNames + {"snow", "clouds"})
  {
    if w.temp < 5 then Cold
    else if w.temp > 30 then Hot
    else match w.condition
      case "rain" => Rainy
      case "drizzle" => Rainy
      case "thunderstorm" => Rainy
      case "snow" => Snowy
      case "clear" => Sunny
      case "clouds" => Cloudy
      case _ => Sunny
  }

  function Table(g: WeatherGreetings, k: Category): seq<string> {
    match k
    case Cold => g.cold
    case Hot => g.hot
    case Rainy => g.rainy
    case Snowy => g.snowy
    case Sunny => g.sunny
    case Cloudy => g.cloudy
  }

  /** `getWeatherGreeting`: a phrase of the table the sample selects. */
  function WeatherGreeting(g: Greetings, w: WeatherData, draw: real): (r: string)
    requires WellFormed(g) && IsDraw(draw)
    ensures w.temp < 5 ==> r in g.weatherGreetings.cold
    ensures w.temp > 30 ==> r in g.weatherGreetings.hot
    ensures r in Table(g.weatherGreetings, CategoryOf(w))
  {
    Pick(Table(g.weatherGreetings, CategoryOf(w)), draw)
  }

  /** The sky bucket each WMO condition is answered with. */
  function CategoryOfCondition(c: Condition): Category {
    match c
    case Clear => Sunny
    case Clouds => Cloudy
    case Rain => Rainy
    case Snow => Snowy
  }

  /** Inside the mild band every classified sample is dispatched to its own
      bucket's table: the default branch of the condition switch is never
      what answers a sample built from a WMO code. */
  lemma ClassifiedSampleDispatch(code: int, temp: int)
    requires 5 <= temp <= 30
    ensures CategoryOf(SampleOf(code, temp)) == CategoryOfCondition(ClassifyCode(code))
    ensures CategoryOf(SampleOf(code, temp)) == Sunny <==> ClassifyCode(code) == Clear
  {
  }

  /** The bands are strict: 5 and 30 degrees fall through to the condition,
      4 is cold and 31 is hot whatever the condition. */
  lemma TemperatureBoundaries(condition: string)
    ensures CategoryOf(WeatherData(5, condition)) !in {Cold, Hot}
    ensures CategoryOf(WeatherData(30, condition)) !in {Cold, Hot}
    ensures CategoryOf(WeatherData(4, condition)) == Cold
    ensures CategoryOf(WeatherData(31, condition)) == Hot
  {
  }
}
