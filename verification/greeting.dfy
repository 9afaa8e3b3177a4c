/**
  The alternating greeting selector (`getCompleteGreeting`,
  `resetGreetingType`).

  The module-global `lastGreetingType` becomes an explicit `State` that each
  call receives and returns; the clock becomes an `hour`, and each
  `Math.random()` a draw of `Draws`.
 */
module Greeting {
  import opened Options
  import opened RandomPick
  import opened DayTime
  import opened Content
  import opened WeatherPhrase

  datatype GreetingType = Casual | TimeBased | Weather

  /** `lastGreetingType`: `None` before the first call and after a reset. */
  type State = Option<GreetingType>

  /** The random numbers one call may consume: the weather coin, the draw
      for the casual or weather phrase, and the draw for the introduction. */
  datatype Draws = Draws(coin: real, phrase: real, intro: real)

  predicate ValidDraws(d: Draws) {
    IsDraw(d.coin) && IsDraw(d.phrase) && IsDraw(d.intro)
  }

  /** The weather branch is taken only when `Math.random() > 0.7`. */
  const WeatherThreshold: real := 0.7

  /** One call's output: the greeting text and the state left behind. */
  datatype Step = Step(text: string, state: State)

  /** `getIntroduction`. */
  function Introduction(g: Greetings, draw: real): (r: string)
    requires |g.introductions| > 0 && IsDraw(draw)
    ensures r in g.introductions
  {
    Pick(g.introductions, draw)
  }

  /** The "{casual} {introduction}" shape: some casual phrase, one space,
      some introduction. */
  ghost predicate IsCasualForm(g: Greetings, text: string) {
    exists i, j :: 0 <= i < |g.casualGreetings| && 0 <= j < |g.introductions| &&
      text == g.casualGreetings[i] + " " + g.introductions[j]
  }

  /** A casual greeting followed by an introduction, both drawn at random. */
  function CasualGreeting(g: Greetings, d: Draws): (r: string)
    requires WellFormed(g) && ValidDraws(d)
    ensures IsCasualForm(g, r)
  {
    Pick(g.casualGreetings, d.phrase) + " " + Introduction(g, d.intro)
  }

  /** `i` is the position of the first entry of `entries` whose type is `t`. */
  predicate IsFirstEntryFor(entries: seq<TimeGreeting>, t: TimeOfDay, i: int) {
    && 0 <= i < |entries|
    && entries[i].kind == t
    && forall j :: 0 <= j < i ==> entries[j].kind != t
  }

  /** `Array.prototype.find` over `timeBasedGreetings`, returning the position
      of the entry it finds. */
  function FirstEntryFor(entries: seq<TimeGreeting>, t: TimeOfDay): (r: Option<nat>)
    ensures r.Some? ==> IsFirstEntryFor(entries, t, r.value)
    ensures r.None? <==> forall i :: 0 <= i < |entries| ==> entries[i].kind != t
  {
    if |entries| == 0 then None
    else if entries[0].kind == t then Some(0)
    else match FirstEntryFor(entries[1..], t)
      case None => None
      case Some(i) => Some(i + 1)
  }

  /** The time-based branch: the message of the first entry for the current
      time of day; with no such entry, or an empty message (the source joins
      the two with `||`), exactly the first casual greeting. */
  function TimeBasedGreeting(g: Greetings, hour: Hour): (r: string)
    requires |g.casualGreetings| > 0
    ensures forall i :: IsFirstEntryFor(g.timeBasedGreetings, TimeOfDayAt(hour), i) ==>
              r == (if g.timeBasedGreetings[i].message != "" then g.timeBasedGreetings[i].message
                    else g.casualGreetings[0])
    ensures (forall i :: 0 <= i < |g.timeBasedGreetings| ==>
               g.timeBasedGreetings[i].kind != TimeOfDayAt(hour)) ==>
              r == g.casualGreetings[0]
  {
    match FirstEntryFor(g.timeBasedGreetings, TimeOfDayAt(hour))
    case None => g.casualGreetings[0]
    case Some(i) =>
      var message := g.timeBasedGreetings[i].message;
      if message != "" then message else g.casualGreetings[0]
  }

  /** `getCompleteGreeting`: from no memory or a non-casual memory the answer
      is casual; after a casual answer it is weather-based when a sample is
      given and the coin exceeds the threshold, and time-based otherwise. */
  function Next(state: State, g: Greetings, weather: Option<WeatherData>, hour: Hour, d: Draws): (r: Step)
    requires WellFormed(g) && ValidDraws(d)
    ensures r.state.Some?
    ensures state != Some(Casual) ==> r.state == Some(Casual) && IsCasualForm(g, r.text)
    ensures state == Some(Casual) ==> r.state != Some(Casual)
    ensures r.state == Some(Weather) <==>
              state == Some(Casual) && weather.Some? && d.coin > WeatherThreshold
    ensures r.state == Some(Weather) ==>
              r.text in Table(g.weatherGreetings, CategoryOf(weather.value))
    ensures r.state == Some(TimeBased) ==> r.text == TimeBasedGreeting(g, hour)
  {
    match state
    case None => Step(CasualGreeting(g, d), Some(Casual))
    case Some(Casual) =>
      if weather.Some? && d.coin > WeatherThreshold then
        Step(WeatherGreeting(g, weather.value, d.phrase), Some(Weather))
      else
        Step(TimeBasedGreeting(g, hour), Some(TimeBased))
    case Some(_) => Step(CasualGreeting(g, d), Some(Casual))
  }

  /** `resetGreetingType`: forget the last greeting type. */
  function Reset(): (s: State)
    ensures s.None?
  {
    None
  }

  /** After a reset the next call takes the first-call branch: the answer is
      exactly the drawn casual phrase, a space and the drawn introduction. */
  lemma ResetRestartsCycle(g: Greetings, weather: Option<WeatherData>, hour: Hour, d: Draws)
    requires WellFormed(g) && ValidDraws(d)
    ensures Next(Reset(), g, weather, hour, d).state == Some(Casual)
    ensures Next(Reset(), g, weather, hour, d).text ==
              Pick(g.casualGreetings, d.phrase) + " " + Introduction(g, d.intro)
  {
  }
}
