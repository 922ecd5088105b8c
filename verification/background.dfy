/**
 * `getBackgroundClasses`: the gradient behind the whole page, chosen from the
 * primary current condition and the hour of day by an ordered list of rules.
 */
module Background {
  import opened Options
  import JsBuiltins
  import Payload

  /** The seven gradients the page can wear. */
  datatype Palette = DayClear | NightClear | DayCloudy | NightCloudy | DayRainy | NightRainy | Snowy

  /** The Tailwind class list each palette stands for. */
  function ClassList(p: Palette): string {
    match p
    case DayClear => "bg-gradient-to-br from-blue-400 via-cyan-300 to-blue-500"
    case NightClear => "bg-gradient-to-br from-purple-900 via-indigo-900 to-purple-800"
    case DayCloudy => "bg-gradient-to-br from-gray-400 via-blue-300 to-gray-500"
    case NightCloudy => "bg-gradient-to-br from-gray-800 via-gray-900 to-gray-700"
    case DayRainy => "bg-gradient-to-br from-slate-500 via-blue-400 to-slate-600"
    case NightRainy => "bg-gradient-to-br from-slate-800 via-slate-900 to-blue-800"
    case Snowy => "bg-gradient-to-br from-blue-200 via-white to-blue-300"
  }

  predicate IsNightPalette(p: Palette) {
    p == NightClear || p == NightCloudy || p == NightRainy
  }

  /** An hour of the local day, as `Date.getHours` returns it. */
  type Hour = h: int | 0 <= h < 24

  /** Night is before 06:00 or after 20:59. */
  predicate IsNight(hour: Hour) {
    hour < 6 || hour > 20
  }

  /** The condition a rule recognises. */
  datatype Sky = Clear | Clouds | Rain | Snow

  /** The rules in the order they are tried: a lower-case needle and the sky it signals. */
  const Rules: seq<(string, Sky)> := [("clear", Clear), ("cloud", Clouds), ("rain", Rain), ("snow", Snow)]

  /** The lower-cased `main` of the first current condition, if the payload has one. */
  function Condition(data: Option<Payload.WeatherData>): Option<string> {
    if data.Some? && |data.value.current.weather| > 0
    then Some(JsBuiltins.ToLowerCase(data.value.current.weather[0].main))
    else None
  }

  /** `getBackgroundClasses`, with the clock's hour passed in. */
  function BackgroundOf(data: Option<Payload.WeatherData>, hour: Hour): (p: Palette)
    ensures Condition(data).None? ==> p == DayClear
    ensures IsNightPalette(p) ==> IsNight(hour)
  {
    match Condition(data)
    case None => DayClear
    case Some(condition) =>
      var night := IsNight(hour);
      if JsBuiltins.Includes(condition, "clear") then (if night then NightClear else DayClear)
      else if JsBuiltins.Includes(condition, "cloud") then (if night then NightCloudy else DayCloudy)
      else if JsBuiltins.Includes(condition, "rain") then (if night then NightRainy else DayRainy)
      else if JsBuiltins.Includes(condition, "snow") then Snowy
      else DayClear
  }

  /** The sky of the first rule whose needle occurs in `condition`, trying `rules` in order. */
  function FirstMatch(condition: string, rules: seq<(string, Sky)>): Option<Sky> {
    if rules == [] then None
    else if JsBuiltins.Includes(condition, rules[0].0) then Some(rules[0].1)
    else FirstMatch(condition, rules[1..])
  }

  /** The palette a matched sky gets by day or by night; snow has no night variant. */
  function Paint(sky: Option<Sky>, night: bool): Palette {
    match sky
    case None => DayClear
    case Some(Clear) => if night then NightClear else DayClear
    case Some(Clouds) => if night then NightCloudy else DayCloudy
    case Some(Rain) => if night then NightRainy else DayRainy
    case Some(Snow) => Snowy
  }

  /** First-match-wins: `FirstMatch` yields the sky of the earliest rule that matches, and nothing if none does. */
  lemma {:induction false} FirstMatchIsEarliest(condition: string, rules: seq<(string, Sky)>)
    ensures FirstMatch(condition, rules).None? <==>
              forall j | 0 <= j < |rules| :: !JsBuiltins.Includes(condition, rules[j].0)
    ensures FirstMatch(condition, rules).Some? ==>
              exists i | 0 <= i < |rules| ::
                && JsBuiltins.Includes(condition, rules[i].0)
                && rules[i].1 == FirstMatch(condition, rules).value
                && forall j | 0 <= j < i :: !JsBuiltins.Includes(condition, rules[j].0)
  {
    if rules != [] && !JsBuiltins.Includes(condition, rules[0].0) {
      FirstMatchIsEarliest(condition, rules[1..]);
      if FirstMatch(condition, rules).Some? {
        var i :| 0 <= i < |rules[1..]|
                 && JsBuiltins.Includes(condition, rules[1..][i].0)
                 && rules[1..][i].1 == FirstMatch(condition, rules).value
                 && forall j | 0 <= j < i :: !JsBuiltins.Includes(condition, rules[1..][j].0);
        assert forall j | 0 <= j < i + 1 :: !JsBuiltins.Includes(condition, rules[j].0) by {
          forall j | 0 <= j < i + 1
            ensures !JsBuiltins.Includes(condition, rules[j].0)
          {
            if j > 0 { assert rules[j] == rules[1..][j - 1]; }
          }
        }
      } else {
        forall j | 0 <= j < |rules|
          ensures !JsBuiltins.Includes(condition, rules[j].0)
        {
          if j > 0 { assert rules[j] == rules[1..][j - 1]; }
        }
      }
    }
  }

  /** The if-chain is exactly the ordered rule list followed by day/night painting. */
  lemma BackgroundFollowsRules(data: Option<Payload.WeatherData>, hour: Hour)
    ensures BackgroundOf(data, hour) == (match Condition(data)
                                         case None => DayClear
                                         case Some(c) => Paint(FirstMatch(c, Rules), IsNight(hour)))
  {
    if Condition(data).Some? {
      var c := Condition(data).value;
      var r1, r2, r3 := Rules[1..], Rules[2..], Rules[3..];
      assert r1[1..] == r2 && r2[1..] == r3 && r3[1..] == [];
      assert FirstMatch(c, r3) == if JsBuiltins.Includes(c, "snow") then Some(Snow) else None;
      assert FirstMatch(c, r2) == if JsBuiltins.Includes(c, "rain") then Some(Rain) else FirstMatch(c, r3);
      assert FirstMatch(c, r1) == if JsBuiltins.Includes(c, "cloud") then Some(Clouds) else FirstMatch(c, r2);
      assert FirstMatch(c, Rules) == if JsBuiltins.Includes(c, "clear") then Some(Clear) else FirstMatch(c, r1);
    }
  }

  /** The hour only picks between the day and night variant of the same sky; snow and the fallback ignore it. */
  lemma SkyIgnoresHour(data: Option<Payload.WeatherData>, h1: Hour, h2: Hour)
    ensures IsNight(h1) == IsNight(h2) ==> BackgroundOf(data, h1) == BackgroundOf(data, h2)
    ensures BackgroundOf(data, h1) == Snowy ==> BackgroundOf(data, h2) == Snowy
    ensures BackgroundOf(data, h1) == DayClear && !IsNight(h1) ==> BackgroundOf(data, h2) in {DayClear, NightClear}
  {
  }

  /** A matched clear, cloud or rain sky gets its night palette exactly when it is night. */
  lemma NightVariantIff(data: Option<Payload.WeatherData>, hour: Hour)
    requires Condition(data).Some?
    requires FirstMatch(Condition(data).value, Rules) in {Some(Clear), Some(Clouds), Some(Rain)}
    ensures IsNightPalette(BackgroundOf(data, hour)) <==> IsNight(hour)
  {
    BackgroundFollowsRules(data, hour);
  }

  /** The asymmetric boundary: 05 and 21 are night, 06 and 20 are day. */
  lemma NightBoundary()
    ensures IsNight(5) && IsNight(21)
    ensures !IsNight(6) && !IsNight(20)
    ensures forall h: Hour :: IsNight(h) <==> h in {0, 1, 2, 3, 4, 5, 21, 22, 23}
  {
  }

  /** Distinct palettes are distinct class lists, so the page can tell all seven apart. */
  lemma ClassListInjective(p: Palette, q: Palette)
    requires p != q
    ensures ClassList(p) != ClassList(q)
  {
  }
}
