/** The environmental-conditions card of the dashboard: it classifies a
    temperature (°C) and a relative humidity (%) against the optimal ranges
    for poultry, chooses colours, badges and a progress value for each, and
    asks for action when a reading is out of range. Readings are reals. */
module EnvironmentalMonitor {
  import opened Wrappers

  /** The icon drawn beside a status. */
  datatype Icon = AlertTriangle | CheckCircle

  /** What `getTempStatus` / `getHumidityStatus` return: the badge text,
      the icon's colour class and the icon. */
  datatype Status = Status(text: string, color: string, icon: Icon)

  /** Everything on the card that depends on the two readings. */
  datatype View = View(
    tempStatus: Status,
    tempBadge: string,
    tempProgress: real,
    humidityStatus: Status,
    humidityBadge: string,
    humidityProgress: real,
    action: Option<string>)

  const BothOffMessage := "Adjust both temperature and humidity levels"
  const TempOffMessage := "Temperature is outside optimal range"
  const HumidityOffMessage := "Humidity levels need adjustment"

  /** `tempOptimal`: 20 °C to 30 °C, both ends included. */
  predicate TempOptimal(t: real) {
    t >= 20.0 && t <= 30.0
  }

  /** `humidityOptimal`: 50 % to 70 %, both ends included. */
  predicate HumidityOptimal(h: real) {
    h >= 50.0 && h <= 70.0
  }

  /** `getTempStatus`: a chain of early returns, cold first. */
  function TempStatus(t: real): Status {
    if t < 20.0 then Status("Too Cold", "text-destructive", AlertTriangle)
    else if t > 30.0 then Status("Too Hot", "text-destructive", AlertTriangle)
    else Status("Optimal", "text-success", CheckCircle)
  }

  /** `getHumidityStatus`: a chain of early returns, dry first. */
  function HumidityStatus(h: real): Status {
    if h < 50.0 then Status("Too Dry", "text-warning", AlertTriangle)
    else if h > 70.0 then Status("Too Humid", "text-destructive", AlertTriangle)
    else Status("Optimal", "text-success", CheckCircle)
  }

  /** The badge variant of either reading, decided by its optimal flag. */
  function BadgeVariant(optimal: bool): string {
    if optimal then "default" else "destructive"
  }

  function Min(a: real, b: real): real { if a <= b then a else b }
  function Max(a: real, b: real): real { if a >= b then a else b }

  /** The temperature progress bar: `Math.min(Math.max(t / 40 * 100, 0), 100)`. */
  function TempProgress(t: real): (p: real)
    ensures 0.0 <= p <= 100.0
    ensures 0.0 <= t <= 40.0 ==> p == t * 2.5
  {
    Min(Max(t / 40.0 * 100.0, 0.0), 100.0)
  }

  /** The "Action Required" box: absent when both readings are optimal,
      otherwise one of three messages. */
  function ActionMessage(t: real, h: real): Option<string> {
    if !TempOptimal(t) || !HumidityOptimal(h) then
      Some(if !TempOptimal(t) && !HumidityOptimal(h) then BothOffMessage
           else if !TempOptimal(t) then TempOffMessage
           else HumidityOffMessage)
    else None
  }

  /** The whole card. The humidity bar shows the reading unclamped. */
  function Render(t: real, h: real): View {
    View(TempStatus(t), BadgeVariant(TempOptimal(t)), TempProgress(t),
         HumidityStatus(h), BadgeVariant(HumidityOptimal(h)), h,
         ActionMessage(t, h))
  }

  /** The temperature label is a three-way split at 20 and 30, and
      "Optimal" agrees with `tempOptimal`. */
  lemma TempStatusClassifies(t: real)
    ensures TempStatus(t).text == "Too Cold" <==> t < 20.0
    ensures TempStatus(t).text == "Too Hot" <==> t > 30.0
    ensures TempStatus(t).text == "Optimal" <==> TempOptimal(t)
    ensures TempStatus(t).text in {"Too Cold", "Too Hot", "Optimal"}
  {
  }

  /** The humidity label is a three-way split at 50 and 70, and
      "Optimal" agrees with `humidityOptimal`. */
  lemma HumidityStatusClassifies(h: real)
    ensures HumidityStatus(h).text == "Too Dry" <==> h < 50.0
    ensures HumidityStatus(h).text == "Too Humid" <==> h > 70.0
    ensures HumidityStatus(h).text == "Optimal" <==> HumidityOptimal(h)
    ensures HumidityStatus(h).text in {"Too Dry", "Too Humid", "Optimal"}
  {
  }

  /** The boundaries themselves are optimal. */
  lemma BoundsAreInclusive()
    ensures TempStatus(20.0).text == "Optimal" && TempStatus(30.0).text == "Optimal"
    ensures HumidityStatus(50.0).text == "Optimal" && HumidityStatus(70.0).text == "Optimal"
  {
  }

  /** Both temperature failures are destructive; for humidity only the
      humid side is, the dry side is a warning. The icon follows the
      optimal flag. */
  lemma StatusColours(t: real, h: real)
    ensures TempStatus(t).color == "text-destructive" <==> !TempOptimal(t)
    ensures TempStatus(t).color == "text-success" <==> TempOptimal(t)
    ensures HumidityStatus(h).color == "text-warning" <==> h < 50.0
    ensures HumidityStatus(h).color == "text-destructive" <==> h > 70.0
    ensures HumidityStatus(h).color == "text-success" <==> HumidityOptimal(h)
    ensures TempStatus(t).icon == CheckCircle <==> TempOptimal(t)
    ensures HumidityStatus(h).icon == CheckCircle <==> HumidityOptimal(h)
  {
  }

  /** Each badge is "default" exactly for an optimal reading and
      "destructive" otherwise, so a too-dry reading has a warning-coloured
      icon beside a destructive badge. */
  lemma BadgesFollowOptimality(t: real, h: real)
    ensures Render(t, h).tempBadge == "default" <==> TempOptimal(t)
    ensures Render(t, h).tempBadge == "destructive" <==> !TempOptimal(t)
    ensures Render(t, h).humidityBadge == "default" <==> HumidityOptimal(h)
    ensures Render(t, h).humidityBadge == "destructive" <==> !HumidityOptimal(h)
    ensures h < 50.0 ==>
              Render(t, h).humidityStatus.color == "text-warning" && Render(t, h).humidityBadge == "destructive"
  {
  }

  /** The temperature bar never moves backwards as the temperature rises. */
  lemma TempProgressMonotone(t1: real, t2: real)
    requires t1 <= t2
    ensures TempProgress(t1) <= TempProgress(t2)
  {
  }

  /** The bar is empty at or below 0 °C and full at or above 40 °C. */
  lemma TempProgressSaturates(t: real)
    ensures t <= 0.0 ==> TempProgress(t) == 0.0
    ensures t >= 40.0 ==> TempProgress(t) == 100.0
  {
  }

  /** The box appears exactly when some reading is off, and its message
      names what is off. */
  lemma ActionBoxRules(t: real, h: real)
    ensures ActionMessage(t, h).Some? <==> !TempOptimal(t) || !HumidityOptimal(h)
    ensures ActionMessage(t, h) == Some(BothOffMessage) <==> !TempOptimal(t) && !HumidityOptimal(h)
    ensures ActionMessage(t, h) == Some(TempOffMessage) <==> !TempOptimal(t) && HumidityOptimal(h)
    ensures ActionMessage(t, h) == Some(HumidityOffMessage) <==> TempOptimal(t) && !HumidityOptimal(h)
  {
  }

  /** The dashboard's readings, 28.5 °C and 65 %, are both optimal, so its
      card shows two "Optimal" badges and no action box. */
  lemma DashboardReadingsNeedNoAction()
    ensures Render(28.5, 65.0).tempStatus.text == "Optimal"
    ensures Render(28.5, 65.0).humidityStatus.text == "Optimal"
    ensures Render(28.5, 65.0).action == None
    ensures Render(28.5, 65.0).tempProgress == 71.25
  {
  }
}
