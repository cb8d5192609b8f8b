/** The standards-comparison dialog: five farm metrics shown beside their
    industry standards, each with a status icon, a status badge and a
    "performance vs standard" percentage. The statuses and the overall
    score on the dialog are fixed data, not computed. */
module StandardsComparison {
  import opened Wrappers

  /** One row of `comparisonData`. */
  datatype Comparison = Comparison(
    metric: string,
    current: real,
    standard: real,
    unit: string,
    status: string,
    description: string)

  const ComparisonData: seq<Comparison> := [
    Comparison("Mortality Rate", 3.2, 3.5, "%", "good",
               "Below industry standard - excellent performance"),
    Comparison("Feed Conversion Ratio (FCR)", 1.85, 1.75, "", "warning",
               "Slightly above optimal - monitor feed quality"),
    Comparison("Daily Weight Gain", 0.32, 0.30, "kg", "good",
               "Above standard - birds growing well"),
    Comparison("Liveability Rate", 96.8, 96.5, "%", "good",
               "Meeting industry benchmarks"),
    Comparison("Feed Efficiency", 1.85, 1.80, "", "warning",
               "Room for improvement in feed management")
  ]

  datatype Icon = CheckCircle2 | AlertCircle | XCircle
  datatype IconView = IconView(icon: Icon, color: string)

  /** A badge has either a class name or a variant, and a label. */
  datatype BadgeView = BadgeView(text: string, className: Option<string>, variant: Option<string>)

  /** `getStatusIcon`: a switch over three statuses, `null` otherwise. */
  function StatusIcon(status: string): Option<IconView> {
    if status == "good" then Some(IconView(CheckCircle2, "text-success"))
    else if status == "warning" then Some(IconView(AlertCircle, "text-warning"))
    else if status == "critical" then Some(IconView(XCircle, "text-destructive"))
    else None
  }

  /** `getStatusBadge`: a switch over the same three statuses. */
  function StatusBadge(status: string): Option<BadgeView> {
    if status == "good" then
      Some(BadgeView("Above Standard", Some("bg-success/10 text-success border-success"), None))
    else if status == "warning" then
      Some(BadgeView("Needs Improvement", Some("bg-warning/10 text-warning border-warning"), None))
    else if status == "critical" then
      Some(BadgeView("Critical", None, Some("destructive")))
    else None
  }

  /** The divisor `getPercentage` will use is nonzero. */
  predicate DivisorNonzero(current: real, standard: real) {
    if current < standard then current != 0.0 else standard != 0.0
  }

  function Min(a: real, b: real): real { if a <= b then a else b }

  /** `getPercentage`: the direction is inferred per call, treating the
      metric as lower-is-better whenever `current < standard`; the ratio
      is capped at 100. */
  function GetPercentage(current: real, standard: real): (p: real)
    requires DivisorNonzero(current, standard)
    ensures p <= 100.0
  {
    if current < standard then Min(100.0, standard / current * 100.0)
    else Min(100.0, current / standard * 100.0)
  }

  /** For positive readings the ratio chosen is always the larger one, at
      least 1, so the cap always applies: the percentage is 100. */
  lemma PercentageOfPositivesIsFull(current: real, standard: real)
    requires current > 0.0 && standard > 0.0
    ensures GetPercentage(current, standard) == 100.0
  {
    if current < standard {
      assert standard / current > 1.0 by {
        assert (standard / current) * current == standard;
      }
    } else {
      assert current / standard >= 1.0 by {
        assert (current / standard) * standard == current;
      }
    }
  }

  /** Swapping the reading and the standard changes nothing: the
      lower-is-better direction comes from the arguments alone. */
  lemma PercentageIsSymmetric(a: real, b: real)
    requires a > 0.0 && b > 0.0
    ensures GetPercentage(a, b) == GetPercentage(b, a)
  {
    PercentageOfPositivesIsFull(a, b);
    PercentageOfPositivesIsFull(b, a);
  }

  /** Every row of the dialog therefore shows 100.0%, whether its status
      says "good" or "warning". */
  lemma EveryRowShowsFullPercentage()
    ensures forall i :: 0 <= i < |ComparisonData| ==>
              DivisorNonzero(ComparisonData[i].current, ComparisonData[i].standard) &&
              GetPercentage(ComparisonData[i].current, ComparisonData[i].standard) == 100.0
  {
    forall i | 0 <= i < |ComparisonData|
      ensures DivisorNonzero(ComparisonData[i].current, ComparisonData[i].standard)
      ensures GetPercentage(ComparisonData[i].current, ComparisonData[i].standard) == 100.0
    {
      PercentageOfPositivesIsFull(ComparisonData[i].current, ComparisonData[i].standard);
    }
  }

  /** The percentage as the comment beside `getPercentage` describes it:
      the direction is a property of the metric ("lower is better" for
      mortality and FCR), not of the two readings. */
  function PercentageForDirection(current: real, standard: real, lowerIsBetter: bool): (p: real)
    requires current > 0.0 && standard > 0.0
    ensures 0.0 < p <= 100.0
    ensures p == 100.0 <==> (if lowerIsBetter then current <= standard else current >= standard)
  {
    var ratio := if lowerIsBetter then standard / current else current / standard;
    RatioBelowOneIsBelowFull(lowerIsBetter, current, standard, ratio);
    Min(100.0, ratio * 100.0)
  }

  lemma RatioBelowOneIsBelowFull(lowerIsBetter: bool, current: real, standard: real, ratio: real)
    requires current > 0.0 && standard > 0.0
    requires ratio == if lowerIsBetter then standard / current else current / standard
    ensures ratio > 0.0
    ensures ratio >= 1.0 <==> (if lowerIsBetter then current <= standard else current >= standard)
  {
    if lowerIsBetter {
      assert ratio * current == standard;
    } else {
      assert ratio * standard == current;
    }
  }

  /** The feed conversion ratio row (1.85 against 1.75, a lower-is-better
      metric) is worse than standard, yet the dialog shows 100%; with the
      metric's own direction it would show less. */
  lemma FcrRowHidesShortfall()
    ensures ComparisonData[1].metric == "Feed Conversion Ratio (FCR)"
    ensures GetPercentage(ComparisonData[1].current, ComparisonData[1].standard) == 100.0
    ensures PercentageForDirection(ComparisonData[1].current, ComparisonData[1].standard, true) < 100.0
  {
    PercentageOfPositivesIsFull(1.85, 1.75);
  }

  /** The icon and the badge recognise exactly the same three statuses. */
  lemma RecognisedStatuses(status: string)
    ensures StatusIcon(status).Some? <==> status == "good" || status == "warning" || status == "critical"
    ensures StatusBadge(status).Some? <==> StatusIcon(status).Some?
  {
  }

  /** The badge labels and the icon colours of the three statuses. */
  lemma StatusPresentation()
    ensures StatusBadge("good").value.text == "Above Standard"
    ensures StatusBadge("warning").value.text == "Needs Improvement"
    ensures StatusBadge("critical").value.text == "Critical"
    ensures StatusIcon("good").value.color == "text-success"
    ensures StatusIcon("warning").value.color == "text-warning"
    ensures StatusIcon("critical").value.color == "text-destructive"
  {
  }

  /** Every row of `comparisonData` has a status the dialog recognises. */
  lemma EveryRowHasIconAndBadge()
    ensures forall i :: 0 <= i < |ComparisonData| ==>
              StatusIcon(ComparisonData[i].status).Some? && StatusBadge(ComparisonData[i].status).Some?
  {
  }
}
