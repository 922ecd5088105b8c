/**
 * The render branch of `App`: the error banner, then either the spinner,
 * the weather panel or nothing, all over the background gradient.
 */
module View {
  import opened Options
  import Payload
  import Background
  import Display
  import Lifecycle

  datatype Panel = Spinner | Weather(dashboard: Display.Dashboard) | Nothing

  datatype Screen = Screen(banner: Option<string>, panel: Panel, background: Background.Palette)

  /** What `App` renders for a state when the local clock shows `hour`. */
  function Render(s: Lifecycle.State, hour: Background.Hour): (v: Screen)
    ensures v.banner.Some? <==> s.error != ""
    ensures v.banner.Some? ==> v.banner.value == s.error
    ensures v.panel.Spinner? <==> s.isLoading
    ensures v.panel.Nothing? <==> !s.isLoading && s.weatherData.None?
    ensures v.panel.Weather? ==>
              v.panel.dashboard == Display.DashboardOf(s.currentLocation, s.weatherData.value)
    ensures v.background == Background.BackgroundOf(s.weatherData, hour)
  {
    Screen(
      if s.error != "" then Some(s.error) else None,
      if s.isLoading then Spinner
      else if s.weatherData.Some? then Weather(Display.DashboardOf(s.currentLocation, s.weatherData.value))
      else Nothing,
      Background.BackgroundOf(s.weatherData, hour))
  }

  /** In every state the handlers can reach, the spinner and the error banner never show together. */
  lemma {:induction false} SpinnerExcludesBanner(events: seq<Lifecycle.Event>, hour: Background.Hour)
    ensures var v := Render(Lifecycle.Run(Lifecycle.Initial, events), hour);
            !(v.panel.Spinner? && v.banner.Some?)
  {
    Lifecycle.RunKeepsNoErrorWhileLoading(Lifecycle.Initial, events);
  }

  /** Right after a fetch starts, the spinner shows and the banner does not. */
  lemma SpinnerAfterFetchStart(s: Lifecycle.State, city: string, hour: Background.Hour)
    ensures Render(Lifecycle.FetchStart(s, city), hour).panel == Spinner
    ensures Render(Lifecycle.FetchStart(s, city), hour).banner == None
  {
  }

  /**
   * After a failed fetch the banner shows, and the previous payload stays on
   * screen under it, still captioned with the previous location and still
   * choosing the background.
   */
  lemma StaleWeatherUnderBanner(s: Lifecycle.State, city: string, reason: string, hour: Background.Hour)
    requires s.weatherData.Some?
    ensures var v := Render(Lifecycle.FetchFailed(s, city, reason), hour);
            && v.banner == Some(Lifecycle.ErrorPrefix + reason)
            && v.panel == Weather(Display.DashboardOf(s.currentLocation, s.weatherData.value))
            && v.background == Background.BackgroundOf(s.weatherData, hour)
  {
  }

  /** After a successful fetch the new payload is shown under the new location, whatever was shown before. */
  lemma FreshWeatherAfterSuccess(s: Lifecycle.State, city: string, data: Payload.WeatherData, hour: Background.Hour)
    ensures var v := Render(Lifecycle.FetchSucceeded(s, city, data), hour);
            && v.panel == Weather(Display.DashboardOf(city, data))
            && v.background == Background.BackgroundOf(Some(data), hour)
  {
  }

  /** The opening sequence: the mount fetch shows the spinner until Warszawa's weather arrives. */
  lemma StartupShowsWarszawa(data: Payload.WeatherData, hour: Background.Hour)
    ensures Render(Lifecycle.Run(Lifecycle.Initial, [Lifecycle.Mounted]), hour).panel == Spinner
    ensures Render(Lifecycle.Run(Lifecycle.Initial, [Lifecycle.Mounted, Lifecycle.Succeeded(Lifecycle.DefaultCity, data)]), hour)
              == Screen(None, Weather(Display.DashboardOf("Warszawa", data)), Background.BackgroundOf(Some(data), hour))
  {
  }
}
