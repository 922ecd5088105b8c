/**
 * What the weather panel derives from a payload: the hourly and daily display
 * windows with their first-position labels, the icon fallback, and the
 * visibility reading in kilometres.
 */
module Display {
  import opened Options
  import JsBuiltins
  import Payload
  import WeatherIcon

  const NowLabel := "Teraz"
  const TomorrowLabel := "Jutro"
  /** The icon code used when an entry has no condition or an empty icon. */
  const DefaultIconCode := "01d"
  const HourlyWindowStart := 1
  const HourlyWindowEnd := 13
  const DailyWindowStart := 1
  const DailyWindowEnd := 8

  /** A cell's caption: a fixed word, or a clock time / weekday rendered from a Unix timestamp. */
  datatype Label = Fixed(text: string) | ClockTime(dt: int) | WeekdayDate(dt: int)

  datatype HourCell = HourCell(caption: Label, icon: WeatherIcon.Icon, entry: Payload.HourlyWeather)
  datatype DayCell = DayCell(caption: Label, icon: WeatherIcon.Icon, entry: Payload.DailyWeather)

  /** `weather[0]?.icon || '01d'`: a missing first condition or an empty code falls back to clear sky. */
  function IconCode(weather: seq<Payload.WeatherInfo>): (code: string)
    ensures code != ""
    ensures |weather| > 0 && weather[0].icon != "" ==> code == weather[0].icon
    ensures code != DefaultIconCode ==> |weather| > 0 && code == weather[0].icon
  {
    if |weather| > 0 && weather[0].icon != "" then weather[0].icon else DefaultIconCode
  }

  /** An entry without a usable icon code is drawn as a sun. */
  lemma MissingIconIsSun(weather: seq<Payload.WeatherInfo>)
    requires |weather| == 0 || weather[0].icon == ""
    ensures WeatherIcon.GetIcon(IconCode(weather)) == WeatherIcon.Sun
  {
  }

  /** `hourly.slice(1, 13)`: at most twelve hours after the current one, the first captioned "Teraz". */
  function HourlyCells(hourly: seq<Payload.HourlyWeather>): (cells: seq<HourCell>)
    ensures |cells| == JsBuiltins.Min(12, JsBuiltins.Max(0, |hourly| - 1))
    ensures forall i | 0 <= i < |cells| ::
              && cells[i].entry == hourly[i + 1]
              && cells[i].icon == WeatherIcon.GetIcon(IconCode(hourly[i + 1].weather))
    ensures forall i | 0 < i < |cells| :: cells[i].caption == ClockTime(hourly[i + 1].dt)
    ensures |cells| > 0 ==> cells[0].caption == Fixed(NowLabel)
  {
    var window := JsBuiltins.Slice(hourly, HourlyWindowStart, HourlyWindowEnd);
    seq(|window|, i requires 0 <= i < |window| =>
      HourCell(if i == 0 then Fixed(NowLabel) else ClockTime(window[i].dt),
               WeatherIcon.GetIcon(IconCode(window[i].weather)),
               window[i]))
  }

  /** `daily.slice(1, 8)`: at most seven days after today, the first captioned "Jutro". */
  function DailyCells(daily: seq<Payload.DailyWeather>): (cells: seq<DayCell>)
    ensures |cells| == JsBuiltins.Min(7, JsBuiltins.Max(0, |daily| - 1))
    ensures forall i | 0 <= i < |cells| ::
              && cells[i].entry == daily[i + 1]
              && cells[i].icon == WeatherIcon.GetIcon(IconCode(daily[i + 1].weather))
    ensures forall i | 0 < i < |cells| :: cells[i].caption == WeekdayDate(daily[i + 1].dt)
    ensures |cells| > 0 ==> cells[0].caption == Fixed(TomorrowLabel)
  {
    var window := JsBuiltins.Slice(daily, DailyWindowStart, DailyWindowEnd);
    seq(|window|, i requires 0 <= i < |window| =>
      DayCell(if i == 0 then Fixed(TomorrowLabel) else WeekdayDate(window[i].dt),
              WeatherIcon.GetIcon(IconCode(window[i].weather)),
              window[i]))
  }

  /** A full forecast (48 hours, 8 days from the provider) fills both windows. */
  lemma FullForecastFillsWindows(data: Payload.WeatherData)
    requires |data.hourly| >= 13 && |data.daily| >= 8
    ensures |HourlyCells(data.hourly)| == 12 && HourlyCells(data.hourly)[0].caption == Fixed(NowLabel)
    ensures |DailyCells(data.daily)| == 7 && DailyCells(data.daily)[0].caption == Fixed(TomorrowLabel)
  {
  }

  /** `Math.round`: the nearest integer, halves rounded towards +infinity. */
  function JsRound(x: real): (n: int)
    ensures n as real - 0.5 <= x < n as real + 0.5
  {
    (x + 0.5).Floor
  }

  /** `Math.round(visibility / 1000)` for an integer number of metres, in integer arithmetic. */
  function VisibilityKm(metres: int): (km: int)
    ensures km * 1000 - 500 <= metres < km * 1000 + 500
  {
    (metres + 500) / 1000
  }

  /** The integer formula is the floating formula: dividing by 1000 and rounding half up. */
  lemma VisibilityKmIsRounded(metres: int)
    ensures VisibilityKm(metres) == JsRound(metres as real / 1000.0)
  {
  }

  /** More metres never show fewer kilometres. */
  lemma VisibilityKmMonotone(a: int, b: int)
    requires a <= b
    ensures VisibilityKm(a) <= VisibilityKm(b)
  {
  }

  lemma VisibilityExamples()
    ensures VisibilityKm(10000) == 10
    ensures VisibilityKm(999) == 1
    ensures VisibilityKm(500) == 1
    ensures VisibilityKm(499) == 0
  {
  }

  /** What the weather panel shows for a payload and the location it was fetched for. */
  datatype Dashboard = Dashboard(
    location: string,
    description: Option<string>,
    humidityPct: int,
    visibilityKm: int,
    hours: seq<HourCell>,
    days: seq<DayCell>)

  /** The weather panel's derived values; temperatures and wind are not rounded here. */
  function DashboardOf(location: string, data: Payload.WeatherData): (d: Dashboard)
    ensures d.location == location
    ensures d.description.Some? <==> |data.current.weather| > 0
    ensures d.description.Some? ==> d.description.value == data.current.weather[0].description
    ensures d.humidityPct == data.current.humidity
    ensures d.hours == HourlyCells(data.hourly) && d.days == DailyCells(data.daily)
    ensures d.visibilityKm == VisibilityKm(data.current.visibility)
  {
    Dashboard(
      location,
      if |data.current.weather| > 0 then Some(data.current.weather[0].description) else None,
      data.current.humidity,
      VisibilityKm(data.current.visibility),
      HourlyCells(data.hourly),
      DailyCells(data.daily))
  }
}
