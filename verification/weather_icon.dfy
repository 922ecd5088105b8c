/** The `WeatherIcon` component's choice of glyph for an OpenWeather icon code. */
module WeatherIcon {
  import JsBuiltins
  import Options

  datatype Icon = Sun | Cloud | CloudRain | CloudSnow

  /** `getIcon`: switch on `icon.substring(0, 2)`, with `Sun` as the default case. */
  function GetIcon(icon: string): (r: Icon)
    ensures r == Cloud <==> |icon| >= 2 && icon[..2] in {"02", "03", "04"}
    ensures r == CloudRain <==> |icon| >= 2 && icon[..2] in {"09", "10"}
    ensures r == CloudSnow <==> |icon| >= 2 && icon[..2] == "13"
    ensures |icon| < 2 ==> r == Sun
  {
    var code := JsBuiltins.Substring(icon, 0, 2);
    if code == "01" then Sun
    else if code == "02" || code == "03" || code == "04" then Cloud
    else if code == "09" || code == "10" then CloudRain
    else if code == "13" then CloudSnow
    else Sun
  }

  /** The icon for OpenWeather's numbered icon groups (01 clear, 02-04 clouds, 09-10 rain, 13 snow). */
  function IconOfGroup(n: nat): Icon {
    if 2 <= n <= 4 then Cloud
    else if n == 9 || n == 10 then CloudRain
    else if n == 13 then CloudSnow
    else Sun
  }

  function DigitValue(c: char): nat
    requires '0' <= c <= '9'
  {
    c as int - '0' as int
  }

  /** The group number spelled by the first two characters of `icon`, when both are digits. */
  function GroupNumber(icon: string): (n: Options.Option<nat>)
    ensures n.Some? ==> n.value < 100
  {
    if |icon| >= 2 && '0' <= icon[0] <= '9' && '0' <= icon[1] <= '9'
    then Options.Some(10 * DigitValue(icon[0]) + DigitValue(icon[1]))
    else Options.None
  }

  /** The switch agrees with the numeric reading of the icon group; any other prefix gives `Sun`. */
  lemma GetIconByGroup(icon: string)
    ensures GetIcon(icon) == (match GroupNumber(icon)
                              case Some(n) => IconOfGroup(n)
                              case None => Sun)
  {
  }

  /** Only the first two characters matter: the day/night suffix never changes the icon. */
  lemma GetIconIgnoresSuffix(code: string, suffix: string)
    requires |code| == 2
    ensures GetIcon(code + suffix) == GetIcon(code)
  {
  }

  /** Codes the switch does not list, and strings shorter than two characters, show the sun. */
  lemma UnlistedCodeIsSun(icon: string)
    requires |icon| < 2 || icon[..2] !in {"02", "03", "04", "09", "10", "13"}
    ensures GetIcon(icon) == Sun
  {
  }
}
