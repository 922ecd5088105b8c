/**
 * The `App` component's state cells and the handlers that change them:
 * typing in the search field, submitting it, starting a fetch, and the two
 * ways a fetch completes. Each completion is a discrete event; which
 * completion arrives when is up to the caller of `Run`.
 */
module Lifecycle {
  import opened Options
  import JsBuiltins
  import Payload

  const DefaultCity := "Warszawa"
  const ErrorPrefix := "Nie udało się pobrać danych pogodowych: "

  /** The five `useState` cells of `App`. */
  datatype State = State(
    weatherData: Option<Payload.WeatherData>,
    searchQuery: string,
    isLoading: bool,
    error: string,
    currentLocation: string)

  /** The state before the mount effect runs. */
  const Initial := State(None, "", false, "", DefaultCity)

  /** `reason` is the rejection value already turned into text by the template literal. */
  datatype Event =
    | Mounted
    | Typed(text: string)
    | Submitted
    | Succeeded(city: string, data: Payload.WeatherData)
    | Failed(city: string, reason: string)

  /** The synchronous part of `fetchWeather(city)`, before it awaits the backend. */
  function FetchStart(s: State, city: string): (t: State)
    ensures t.isLoading && t.error == ""
    ensures t.weatherData == s.weatherData && t.currentLocation == s.currentLocation
    ensures t.searchQuery == s.searchQuery
  {
    s.(isLoading := true, error := "")
  }

  /** `fetchWeather(city)` resumed with a payload: it replaces the old one wholesale. */
  function FetchSucceeded(s: State, city: string, data: Payload.WeatherData): (t: State)
    ensures t.weatherData == Some(data) && t.currentLocation == city
    ensures !t.isLoading
    ensures t.error == s.error && t.searchQuery == s.searchQuery
  {
    s.(weatherData := Some(data), currentLocation := city, isLoading := false)
  }

  /** `fetchWeather(city)` resumed with a rejection: the old payload and location are kept. */
  function FetchFailed(s: State, city: string, reason: string): (t: State)
    ensures t.error == ErrorPrefix + reason && t.error != ""
    ensures !t.isLoading
    ensures t.weatherData == s.weatherData && t.currentLocation == s.currentLocation
    ensures t.searchQuery == s.searchQuery
  {
    s.(error := ErrorPrefix + reason, isLoading := false)
  }

  /** The outcome of a submit: the next state and the city a fetch was started for, if any. */
  datatype Submission = Submission(state: State, request: Option<string>)

  /** `handleSearch`: a blank query does nothing; otherwise fetch the trimmed query and clear the field. */
  function HandleSearch(s: State): (r: Submission)
    ensures r.request.None? <==> JsBuiltins.AllWhiteSpace(s.searchQuery)
    ensures r.request.None? ==> r.state == s
    ensures r.request.Some? ==>
              && r.request.value == JsBuiltins.Trim(s.searchQuery)
              && r.state == FetchStart(s, r.request.value).(searchQuery := "")
    ensures r.request.Some? ==>
              && r.request.value != ""
              && !JsBuiltins.IsWhiteSpace(r.request.value[0])
              && !JsBuiltins.IsWhiteSpace(r.request.value[|r.request.value| - 1])
  {
    var query := JsBuiltins.Trim(s.searchQuery);
    assert query == "" <==> JsBuiltins.AllWhiteSpace(s.searchQuery);
    if query != "" then
      Submission(FetchStart(s, query).(searchQuery := ""), Some(query))
    else
      Submission(s, None)
  }

  /** One handler run; `Mounted` is the effect that fetches the default city. */
  function Step(s: State, e: Event): State {
    match e
    case Mounted => FetchStart(s, DefaultCity)
    case Typed(text) => s.(searchQuery := text)
    case Submitted => HandleSearch(s).state
    case Succeeded(city, data) => FetchSucceeded(s, city, data)
    case Failed(city, reason) => FetchFailed(s, city, reason)
  }

  /** The state after the events, oldest first. */
  function Run(s: State, events: seq<Event>): State
    decreases |events|
  {
    if events == [] then s else Step(Run(s, events[..|events| - 1]), events[|events| - 1])
  }

  /** The most recent successful completion among the events, if any. */
  function LastSuccess(events: seq<Event>): Option<(string, Payload.WeatherData)>
    decreases |events|
  {
    if events == [] then None
    else if events[|events| - 1].Succeeded? then
      Some((events[|events| - 1].city, events[|events| - 1].data))
    else LastSuccess(events[..|events| - 1])
  }

  /** The loading flag and the error text are never both set. */
  predicate NoErrorWhileLoading(s: State) {
    s.isLoading ==> s.error == ""
  }

  lemma StepKeepsNoErrorWhileLoading(s: State, e: Event)
    requires NoErrorWhileLoading(s)
    ensures NoErrorWhileLoading(Step(s, e))
  {
  }

  /** Every state reachable from one without an error while loading is again such a state. */
  lemma {:induction false} RunKeepsNoErrorWhileLoading(s: State, events: seq<Event>)
    requires NoErrorWhileLoading(s)
    ensures NoErrorWhileLoading(Run(s, events))
    decreases |events|
  {
    if events != [] {
      RunKeepsNoErrorWhileLoading(s, events[..|events| - 1]);
      StepKeepsNoErrorWhileLoading(Run(s, events[..|events| - 1]), events[|events| - 1]);
    }
  }

  /**
   * Last completion wins: the payload and the location shown with it come from
   * the most recent success, together; with no success both are as they started.
   * Failures, submits and typing never touch them.
   */
  lemma {:induction false} PayloadFromLastSuccess(s: State, events: seq<Event>)
    ensures LastSuccess(events).Some? ==>
              && Run(s, events).weatherData == Some(LastSuccess(events).value.1)
              && Run(s, events).currentLocation == LastSuccess(events).value.0
    ensures LastSuccess(events).None? ==>
              && Run(s, events).weatherData == s.weatherData
              && Run(s, events).currentLocation == s.currentLocation
    decreases |events|
  {
    if events != [] {
      var earlier, e := events[..|events| - 1], events[|events| - 1];
      PayloadFromLastSuccess(s, earlier);
      var t := Run(s, earlier);
      assert Run(s, events) == Step(t, e);
      match e
      case Mounted =>
      case Typed(_) =>
      case Submitted =>
        assert Step(t, e) == HandleSearch(t).state;
      case Succeeded(_, _) =>
      case Failed(_, _) =>
    }
  }

  /** Once a payload has arrived, no later event removes it. */
  lemma {:induction false} PayloadNeverCleared(s: State, events: seq<Event>)
    requires s.weatherData.Some?
    ensures Run(s, events).weatherData.Some?
    decreases |events|
  {
    if events != [] {
      PayloadNeverCleared(s, events[..|events| - 1]);
    }
  }

  /** A search for blank text leaves every cell as it was, including the typed text. */
  lemma BlankSearchIsNoOp(s: State, text: string)
    requires JsBuiltins.AllWhiteSpace(text)
    ensures Run(s, [Typed(text), Submitted]) == s.(searchQuery := text)
  {
    var events := [Typed(text), Submitted];
    assert events[..1] == [Typed(text)] && events[..1][..0] == [];
    assert Run(s, events[..1]) == s.(searchQuery := text);
    assert JsBuiltins.Trim(text) == "";
  }
}
