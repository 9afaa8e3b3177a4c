/**
  Sequences of calls to the greeting selector: the state threaded through a
  run of requests, and the alternation the selector guarantees over it.
 */
module Alternation {
  import opened Options
  import opened DayTime
  import opened Content
  import opened WeatherPhrase
  import opened Greeting

  /** What one call of `getCompleteGreeting` receives from its surroundings. */
  datatype Request = Request(weather: Option<WeatherData>, hour: Hour, draws: Draws)

  predicate ValidRequests(requests: seq<Request>) {
    forall i :: 0 <= i < |requests| ==> ValidDraws(requests[i].draws)
  }

  /** Dropping the first request keeps the draws valid. */
  lemma RestValid(requests: seq<Request>)
    requires |requests| > 0 && ValidRequests(requests)
    ensures ValidRequests(requests[1..])
  {
    forall i | 0 <= i < |requests| - 1 ensures ValidDraws(requests[1..][i].draws) {
      assert requests[1..][i] == requests[i + 1];
    }
  }

  /** The answers to a run of requests, each call starting from the state the
      previous one left. */
  function Run(state: State, g: Greetings, requests: seq<Request>): (steps: seq<Step>)
    requires WellFormed(g) && ValidRequests(requests)
    ensures |steps| == |requests|
    ensures forall i :: 0 <= i < |steps| ==> steps[i].state.Some?
    decreases |requests|
  {
    if |requests| == 0 then []
    else
      var r := requests[0];
      var step := Next(state, g, r.weather, r.hour, r.draws);
      [step] + Run(step.state, g, requests[1..])
  }

  /** Two consecutive answers are never both non-casual, and a run that
      starts without a casual memory (in particular after a reset) opens
      with a casual greeting. */
  lemma {:induction false} NeverTwoNonCasualInARow(state: State, g: Greetings, requests: seq<Request>)
    requires WellFormed(g) && ValidRequests(requests)
    ensures var steps := Run(state, g, requests);
      && (|steps| > 0 && state != Some(Casual) ==> steps[0].state == Some(Casual))
      && forall i :: 0 <= i < |steps| - 1 ==>
           steps[i].state == Some(Casual) || steps[i + 1].state == Some(Casual)
    decreases |requests|
  {
    if |requests| > 0 {
      var r := requests[0];
      var step := Next(state, g, r.weather, r.hour, r.draws);
      var rest := requests[1..];
      RestValid(requests);
      NeverTwoNonCasualInARow(step.state, g, rest);
      var steps := Run(state, g, requests);
      assert steps == [step] + Run(step.state, g, rest);
    }
  }

  /** Answer `i` is casual exactly when `i + shift` is even. */
  predicate CasualParity(steps: seq<Step>, shift: nat) {
    forall i :: 0 <= i < |steps| ==>
      (steps[i].state == Some(Casual) <==> (i + shift) % 2 == 0)
  }

  /** With or without weather, casual and non-casual answers strictly
      alternate: casual answers are exactly every other one, starting with
      the first when the run starts without a casual memory and with the
      second when it starts from a casual one. */
  lemma {:induction false} CasualEveryOtherAnswer(state: State, g: Greetings, requests: seq<Request>)
    requires WellFormed(g) && ValidRequests(requests)
    ensures CasualParity(Run(state, g, requests), if state == Some(Casual) then 1 else 0)
    decreases |requests|
  {
    if |requests| > 0 {
      var r := requests[0];
      var step := Next(state, g, r.weather, r.hour, r.draws);
      var rest := requests[1..];
      RestValid(requests);
      CasualEveryOtherAnswer(step.state, g, rest);
      var steps := Run(state, g, requests);
      var tail := Run(step.state, g, rest);
      assert steps == [step] + tail;
      var shift := if state == Some(Casual) then 1 else 0;
      var shift' := if step.state == Some(Casual) then 1 else 0;
      assert shift' == 1 - shift;
      assert CasualParity(tail, shift');
      forall i | 0 <= i < |steps|
        ensures steps[i].state == Some(Casual) <==> (i + shift) % 2 == 0
      {
        if i == 0 {
          assert steps[0] == step;
        } else {
          assert steps[i] == tail[i - 1];
          ParityShift(i, shift, shift');
        }
      }
    }
  }

  /** Answer `i` is casual when `i + shift` is even and time-based otherwise. */
  predicate AlternatesFrom(steps: seq<Step>, shift: nat) {
    forall i :: 0 <= i < |steps| ==>
      steps[i].state == Some(if (i + shift) % 2 == 0 then Casual else TimeBased)
  }

  /** Every weather-based answer comes from a request with a sample and a
      coin above the threshold. */
  predicate WeatherNeedsSample(steps: seq<Step>, requests: seq<Request>)
    requires |steps| == |requests|
  {
    forall i :: 0 <= i < |steps| && steps[i].state == Some(Weather) ==>
      requests[i].weather.Some? && requests[i].draws.coin > WeatherThreshold
  }

  /** Moving one answer later flips the parity of the shifted index. */
  lemma ParityShift(i: nat, shift: nat, shift': nat)
    requires i > 0 && shift <= 1 && shift' == 1 - shift
    ensures (i - 1 + shift') % 2 == (i + shift) % 2
  {
  }

  /** Over any run, an answer is weather-based only when its own request
      supplied a sample and a coin above the threshold. */
  lemma {:induction false} WeatherOnlyWithSample(state: State, g: Greetings, requests: seq<Request>)
    requires WellFormed(g) && ValidRequests(requests)
    ensures WeatherNeedsSample(Run(state, g, requests), requests)
    decreases |requests|
  {
    if |requests| > 0 {
      var r := requests[0];
      var step := Next(state, g, r.weather, r.hour, r.draws);
      var rest := requests[1..];
      RestValid(requests);
      WeatherOnlyWithSample(step.state, g, rest);
      var steps := Run(state, g, requests);
      var tail := Run(step.state, g, rest);
      assert steps == [step] + tail;
      assert WeatherNeedsSample(tail, rest);
      forall i | 0 <= i < |steps| && steps[i].state == Some(Weather)
        ensures requests[i].weather.Some? && requests[i].draws.coin > WeatherThreshold
      {
        if i > 0 {
          assert steps[i] == tail[i - 1];
          assert rest[i - 1] == requests[i];
        }
      }
    }
  }

  /** Without weather the selector alternates strictly: from no casual memory
      the answers are casual, time-based, casual, time-based, ...; from a
      casual memory the same pattern starts one place later. */
  lemma WithoutWeatherAlternatesStrictly(state: State, g: Greetings, requests: seq<Request>)
    requires WellFormed(g) && ValidRequests(requests)
    requires forall i :: 0 <= i < |requests| ==> requests[i].weather.None?
    ensures AlternatesFrom(Run(state, g, requests), if state == Some(Casual) then 1 else 0)
  {
    var steps := Run(state, g, requests);
    var shift := if state == Some(Casual) then 1 else 0;
    CasualEveryOtherAnswer(state, g, requests);
    WeatherOnlyWithSample(state, g, requests);
    assert CasualParity(steps, shift);
    assert WeatherNeedsSample(steps, requests);
    forall i | 0 <= i < |steps|
      ensures steps[i].state == Some(if (i + shift) % 2 == 0 then Casual else TimeBased)
    {
      assert requests[i].weather.None?;
      assert steps[i].state != Some(Weather);
      var kind := steps[i].state.value;
      assert steps[i].state == Some(kind);
      if (i + shift) % 2 == 0 {
        assert kind == Casual;
      } else {
        assert kind != Casual && kind != Weather;
        assert kind == TimeBased;
      }
    }
  }

  /** The four-call example: one casual phrase "Hi", one introduction
      "there", a single morning entry "GM", the clock at 8 and no weather
      give "Hi there", "GM", "Hi there", "GM". */
  lemma FourCallExample()
    ensures
      var g := Greetings(["Hi"], ["there"], [TimeGreeting(Morning, "GM")],
                         WeatherGreetings(["brr"], ["phew"], ["wet"], ["white"], ["bright"], ["grey"]));
      var request := Request(None, 8, Draws(0.0, 0.0, 0.0));
      var steps := Run(None, g, [request, request, request, request]);
      |steps| == 4 &&
      steps[0].text == "Hi there" && steps[1].text == "GM" &&
      steps[2].text == "Hi there" && steps[3].text == "GM"
  {
    var g := Greetings(["Hi"], ["there"], [TimeGreeting(Morning, "GM")],
                       WeatherGreetings(["brr"], ["phew"], ["wet"], ["white"], ["bright"], ["grey"]));
    var request := Request(None, 8, Draws(0.0, 0.0, 0.0));
    var requests := [request, request, request, request];
    assert ValidRequests(requests);
    var d := Draws(0.0, 0.0, 0.0);
    var s0 := Next(None, g, None, 8, d);
    assert s0.text == "Hi there";
    var s1 := Next(s0.state, g, None, 8, d);
    assert s1.text == "GM";
    var s2 := Next(s1.state, g, None, 8, d);
    assert s2.text == "Hi there";
    var s3 := Next(s2.state, g, None, 8, d);
    assert s3.text == "GM";
    assert Run(s2.state, g, [request]) == [s3];
    assert Run(s1.state, g, [request, request]) == [s2, s3];
    assert Run(s0.state, g, [request, request, request]) == [s1, s2, s3];
    assert Run(None, g, requests) == [s0, s1, s2, s3];
  }
}
