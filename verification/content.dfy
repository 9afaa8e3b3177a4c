/**
  The greeting tables of the site's content document (`contentData.greetings`).
  The selector only reads them; they are passed to every operation.
 */
module Content {
  import opened DayTime

  /** One entry of `timeBasedGreetings`. */
  datatype TimeGreeting = TimeGreeting(kind: TimeOfDay, message: string)

  /** The six phrase tables of `weatherGreetings`. */
  datatype WeatherGreetings = WeatherGreetings(
    cold: seq<string>,
    hot: seq<string>,
    rainy: seq<string>,
    snowy: seq<string>,
    sunny: seq<string>,
    cloudy: seq<string>)

  datatype Greetings = Greetings(
    casualGreetings: seq<string>,
    introductions: seq<string>,
    timeBasedGreetings: seq<TimeGreeting>,
    weatherGreetings: WeatherGreetings)

  /** The content invariant the selector relies on: every table it draws a
      random phrase from is non-empty. `timeBasedGreetings` may lack entries. */
  predicate WellFormed(g: Greetings) {
    && |g.casualGreetings| > 0
    && |g.introductions| > 0
    && |g.weatherGreetings.cold| > 0
    && |g.weatherGreetings.hot| > 0
    && |g.weatherGreetings.rainy| > 0
    && |g.weatherGreetings.snowy| > 0
    && |g.weatherGreetings.sunny| > 0
    && |g.weatherGreetings.cloudy| > 0
  }
}
