/** The reports page. Its status card is styled from the single string
    `performanceStatus` by three separate nested ternaries: one for the
    card class, one for the badge variant, one for the badge label. Each
    splits "good" / "warning" / anything else. */
module Reports {

  datatype WeeklyAverage = WeeklyAverage(mortality: real, feedEfficiency: real, weightGain: real, totalFeed: real)

  /** The report record; the PDF generator takes the same shape. */
  datatype ReportData = ReportData(weeklyAverage: WeeklyAverage, performanceStatus: string, lastUpdated: string)

  const BuiltInReport := ReportData(WeeklyAverage(3.2, 1.85, 0.32, 2047.0), "good", "2 hours ago")

  const SuccessCard := "bg-success/5 border-success/20"
  const WarningCard := "bg-warning/5 border-warning/20"
  const DestructiveCard := "bg-destructive/5 border-destructive/20"

  function CardClass(status: string): string {
    if status == "good" then SuccessCard
    else if status == "warning" then WarningCard
    else DestructiveCard
  }

  function BadgeVariant(status: string): string {
    if status == "good" then "default"
    else if status == "warning" then "secondary"
    else "destructive"
  }

  function StatusLabel(status: string): string {
    if status == "good" then "On Track"
    else if status == "warning" then "Needs Attention"
    else "Critical"
  }

  lemma GoodStatusView()
    ensures CardClass("good") == SuccessCard
    ensures BadgeVariant("good") == "default" && StatusLabel("good") == "On Track"
  {
  }

  lemma WarningStatusView()
    ensures CardClass("warning") == WarningCard
    ensures BadgeVariant("warning") == "secondary" && StatusLabel("warning") == "Needs Attention"
  {
  }

  /** Every other string, the "alert" listed beside the constant among
      them, falls to the destructive branch. */
  lemma OtherStatusView(status: string)
    requires status != "good" && status != "warning"
    ensures CardClass(status) == DestructiveCard
    ensures BadgeVariant(status) == "destructive" && StatusLabel(status) == "Critical"
    ensures StatusLabel("alert") == "Critical"
  {
  }

  /** The three ternaries always agree: each picks the same branch as the
      other two, for every status string. */
  lemma StatusViewsAgree(status: string)
    ensures CardClass(status) == SuccessCard <==> BadgeVariant(status) == "default"
    ensures BadgeVariant(status) == "default" <==> StatusLabel(status) == "On Track"
    ensures CardClass(status) == WarningCard <==> BadgeVariant(status) == "secondary"
    ensures BadgeVariant(status) == "secondary" <==> StatusLabel(status) == "Needs Attention"
    ensures CardClass(status) == DestructiveCard <==> BadgeVariant(status) == "destructive"
    ensures BadgeVariant(status) == "destructive" <==> StatusLabel(status) == "Critical"
  {
  }

  /** With the page's own data the card reads "On Track". */
  lemma BuiltInReportIsOnTrack()
    ensures StatusLabel(BuiltInReport.performanceStatus) == "On Track"
    ensures CardClass(BuiltInReport.performanceStatus) == SuccessCard
  {
  }
}
