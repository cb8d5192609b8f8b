/** The PDF report. The drawing library is left out; what is kept is
    the text chosen for the status, its colour, the vertical position of
    everything drawn (the mutable `yPos` counter and the loop over the
    analysis lines) and the file name. Number-to-text conversion is the
    parameter `show`; the two clock readings are parameters too. */
module PdfGenerator {
  import opened IsoDates
  import Reports

  datatype Rgb = Rgb(red: int, green: int, blue: int)

  predicate IsColour(c: Rgb) {
    0 <= c.red <= 255 && 0 <= c.green <= 255 && 0 <= c.blue <= 255
  }

  /** One thing drawn on the page: text at a left offset, text centred on
      the page, or a horizontal rule. */
  datatype Mark = Text(s: string, x: int, y: int) | Centred(s: string, y: int) | Rule(y: int)

  /** What the generator produces. */
  datatype Report = Report(marks: seq<Mark>, statusColor: Rgb, fileName: string)

  const FooterY := 280

  const AnalysisText: seq<string> := [
    "Based on the last 7 days of data:",
    "",
    "• Mortality rate is within acceptable range",
    "• Feed efficiency shows good conversion rates",
    "• Weight gain is progressing as expected",
    "• Overall flock health is stable",
    "",
    "Recommendations:",
    "• Continue current feeding schedule",
    "• Monitor environmental conditions closely",
    "• Maintain biosecurity protocols"
  ]

  /** `statusColor`: green, yellow, or red for anything else. */
  function StatusColor(status: string): (c: Rgb)
    ensures IsColour(c)
  {
    if status == "good" then Rgb(34, 197, 94)
    else if status == "warning" then Rgb(234, 179, 8)
    else Rgb(239, 68, 68)
  }

  /** `statusText`. */
  function StatusText(status: string): string {
    if status == "good" then "On Track"
    else if status == "warning" then "Needs Attention"
    else "Critical"
  }

  function ReportFileName(nowIso: string): string {
    "poultrywatch-report-" + DatePart(nowIso) + ".pdf"
  }

  /** Marks drawn top to bottom. */
  predicate TopToBottom(marks: seq<Mark>) {
    forall i, j :: 0 <= i < j < |marks| ==> marks[i].y <= marks[j].y
  }

  /** The title block: title, the two timestamps, a rule, the status and
      the metrics heading. */
  function HeaderMarks(data: Reports.ReportData, generatedOn: string): seq<Mark> {
    [Centred("PoultryWatch Performance Report", 20),
     Centred("Generated: " + generatedOn, 28),
     Centred("Last Updated: " + data.lastUpdated, 33),
     Rule(38),
     Text("Overall Performance Status", 20, 50),
     Text(StatusText(data.performanceStatus), 20, 58),
     Text("Weekly Average Metrics", 20, 75)]
  }

  /** The four metric rows (label at 25, value at 120), the separator and
      the analysis heading, at the positions the `yPos` counter reaches. */
  function MetricMarks(w: Reports.WeeklyAverage, show: real -> string): seq<Mark> {
    [Text("Mortality Rate:", 25, 85), Text(show(w.mortality) + "%", 120, 85),
     Text("Feed Efficiency (FCR):", 25, 95), Text(show(w.feedEfficiency), 120, 95),
     Text("Daily Weight Gain:", 25, 105), Text(show(w.weightGain) + " kg", 120, 105),
     Text("Total Feed Used:", 25, 115), Text(show(w.totalFeed) + " kg", 120, 115),
     Rule(135), Text("Performance Analysis", 20, 150)]
  }

  /** The analysis lines, 6 apart from `top` down. */
  function AnalysisMarks(analysis: seq<string>, top: int): (m: seq<Mark>)
    ensures |m| == |analysis|
    ensures forall k :: 0 <= k < |analysis| ==> m[k] == Text(analysis[k], 25, top + 6 * k)
  {
    seq(|analysis|, k requires 0 <= k < |analysis| => Text(analysis[k], 25, top + 6 * k))
  }

  /** The two footer lines. */
  const FooterMarks: seq<Mark> := [
    Centred("PoultryWatch - Cloud-based Poultry Monitoring System", FooterY),
    Centred("This report is auto-generated and intended for farm management purposes", 285)]

  /** The metric rows, the separator, the analysis heading and the analysis
      lines, placed by the `yPos` counter: it starts at 85, moves 10 after
      each metric row (20 after the last), 15 after the separator, 10 after
      the heading and 6 after each analysis line. */
  method LayoutBody(w: Reports.WeeklyAverage, show: real -> string, analysis: seq<string>)
    returns (marks: seq<Mark>, yPos: int)
    ensures marks == MetricMarks(w, show) + AnalysisMarks(analysis, 160)
    ensures yPos == 160 + 6 * |analysis|
    ensures TopToBottom(marks)
    ensures forall i :: 0 <= i < |marks| ==> marks[i].y < yPos
  {
    yPos := 85;
    marks := [Text("Mortality Rate:", 25, yPos), Text(show(w.mortality) + "%", 120, yPos)];
    yPos := yPos + 10;
    marks := marks + [Text("Feed Efficiency (FCR):", 25, yPos), Text(show(w.feedEfficiency), 120, yPos)];
    yPos := yPos + 10;
    marks := marks + [Text("Daily Weight Gain:", 25, yPos), Text(show(w.weightGain) + " kg", 120, yPos)];
    yPos := yPos + 10;
    marks := marks + [Text("Total Feed Used:", 25, yPos), Text(show(w.totalFeed) + " kg", 120, yPos)];
    yPos := yPos + 20;
    marks := marks + [Rule(yPos)];
    yPos := yPos + 15;
    marks := marks + [Text("Performance Analysis", 20, yPos)];
    yPos := yPos + 10;
    ghost var head := marks;
    assert head == MetricMarks(w, show);
    var i := 0;
    while i < |analysis|
      invariant 0 <= i <= |analysis|
      invariant marks == head + AnalysisMarks(analysis[..i], 160)
      invariant yPos == 160 + 6 * i
    {
      marks := marks + [Text(analysis[i], 25, yPos)];
      assert AnalysisMarks(analysis[..i + 1], 160) == AnalysisMarks(analysis[..i], 160) + [Text(analysis[i], 25, yPos)];
      yPos := yPos + 6;
      i := i + 1;
    }
    assert analysis[..i] == analysis;
    BodyTopToBottom(head, analysis);
  }

  /** The body runs top to bottom and ends above the counter's final value. */
  lemma BodyTopToBottom(head: seq<Mark>, analysis: seq<string>)
    requires |head| == 10 && TopToBottom(head)
    requires forall i :: 0 <= i < 10 ==> head[i].y <= 150
    ensures TopToBottom(head + AnalysisMarks(analysis, 160))
    ensures forall i :: 0 <= i < |head| + |analysis| ==> (head + AnalysisMarks(analysis, 160))[i].y < 160 + 6 * |analysis|
  {
    var lines := AnalysisMarks(analysis, 160);
    var marks := head + lines;
    forall a | 0 <= a < |marks| ensures marks[a].y < 160 + 6 * |analysis| {
      if a >= 10 { assert marks[a] == lines[a - 10]; } else { assert marks[a] == head[a]; }
    }
    forall a, b | 0 <= a < b < |marks| ensures marks[a].y <= marks[b].y {
      if a >= 10 {
        assert marks[a] == lines[a - 10] && marks[b] == lines[b - 10];
      } else if b >= 10 {
        assert marks[a] == head[a] && marks[b] == lines[b - 10];
      } else {
        assert marks[a] == head[a] && marks[b] == head[b];
      }
    }
  }

  /** Two top-to-bottom runs, the second starting no higher than the
      first ends, make one. */
  lemma ConcatTopToBottom(a: seq<Mark>, b: seq<Mark>)
    requires TopToBottom(a) && TopToBottom(b)
    requires a != [] && b != [] ==> a[|a| - 1].y <= b[0].y
    ensures TopToBottom(a + b)
  {
    forall i, j | 0 <= i < j < |a + b| ensures (a + b)[i].y <= (a + b)[j].y {
      if j < |a| {
        assert (a + b)[i] == a[i] && (a + b)[j] == a[j];
      } else if i >= |a| {
        assert (a + b)[i] == b[i - |a|] && (a + b)[j] == b[j - |a|];
      } else {
        assert (a + b)[i] == a[i] && (a + b)[j] == b[j - |a|];
        assert a[i].y <= a[|a| - 1].y && b[0].y <= b[j - |a|].y;
      }
    }
  }

  /** `generatePDFReport`: the header at fixed positions, the status text
      in its colour, the body laid out by `LayoutBody` with the eleven
      analysis lines, and the two footer lines; the page runs top to
      bottom and everything above the footer ends by 226. */
  method GenerateReport(data: Reports.ReportData, show: real -> string, generatedOn: string, nowIso: string)
    returns (r: Report)
    ensures r.marks == HeaderMarks(data, generatedOn) + MetricMarks(data.weeklyAverage, show)
                       + AnalysisMarks(AnalysisText, 160) + FooterMarks
    ensures r.statusColor == StatusColor(data.performanceStatus)
    ensures TopToBottom(r.marks)
    ensures forall i :: 0 <= i < 28 ==> r.marks[i].y <= 226 < FooterY
    ensures r.fileName == ReportFileName(nowIso)
  {
    var header := [
      Centred("PoultryWatch Performance Report", 20),
      Centred("Generated: " + generatedOn, 28),
      Centred("Last Updated: " + data.lastUpdated, 33),
      Rule(38),
      Text("Overall Performance Status", 20, 50),
      Text(StatusText(data.performanceStatus), 20, 58),
      Text("Weekly Average Metrics", 20, 75)];
    var body, yPos := LayoutBody(data.weeklyAverage, show, AnalysisText);
    var footer := [
      Centred("PoultryWatch - Cloud-based Poultry Monitoring System", FooterY),
      Centred("This report is auto-generated and intended for farm management purposes", 285)];
    PageLayout(header, body, footer);
    r := Report(header + body + footer, StatusColor(data.performanceStatus), ReportFileName(nowIso));
  }

  /** The page's order and bounds from those of its three parts. */
  lemma PageLayout(header: seq<Mark>, body: seq<Mark>, footer: seq<Mark>)
    requires |header| == 7 && TopToBottom(header) && header[6].y <= 85
    requires forall i :: 0 <= i < 7 ==> header[i].y <= 226
    requires |body| == 21 && TopToBottom(body) && body[0].y == 85 && body[20].y <= FooterY
    requires forall i :: 0 <= i < 21 ==> body[i].y < 226
    requires |footer| == 2 && TopToBottom(footer) && footer[0].y == FooterY
    ensures TopToBottom(header + body + footer)
    ensures forall i :: 0 <= i < 28 ==> (header + body + footer)[i].y <= 226
  {
    ConcatTopToBottom(header, body);
    ConcatTopToBottom(header + body, footer);
    var m := header + body + footer;
    forall a | 0 <= a < 28 ensures m[a].y <= 226 {
      if a >= 7 { assert m[a] == body[a - 7]; } else { assert m[a] == header[a]; }
    }
  }

  /** What the page holds, position by position: the header, the metric
      rows at 85 to 115 with the separator at 135 and the analysis heading
      at 150, the eleven analysis lines from 160 in steps of 6, and the
      two footer lines at 280 and 285. */
  lemma PageContents(data: Reports.ReportData, show: real -> string, generatedOn: string)
    ensures var p := HeaderMarks(data, generatedOn) + MetricMarks(data.weeklyAverage, show)
                     + AnalysisMarks(AnalysisText, 160) + FooterMarks;
      && |p| == 30
      && p[..7] == [
        Centred("PoultryWatch Performance Report", 20),
        Centred("Generated: " + generatedOn, 28),
        Centred("Last Updated: " + data.lastUpdated, 33),
        Rule(38),
        Text("Overall Performance Status", 20, 50),
        Text(StatusText(data.performanceStatus), 20, 58),
        Text("Weekly Average Metrics", 20, 75)]
      && p[7..17] == [
        Text("Mortality Rate:", 25, 85),
        Text(show(data.weeklyAverage.mortality) + "%", 120, 85),
        Text("Feed Efficiency (FCR):", 25, 95),
        Text(show(data.weeklyAverage.feedEfficiency), 120, 95),
        Text("Daily Weight Gain:", 25, 105),
        Text(show(data.weeklyAverage.weightGain) + " kg", 120, 105),
        Text("Total Feed Used:", 25, 115),
        Text(show(data.weeklyAverage.totalFeed) + " kg", 120, 115),
        Rule(135),
        Text("Performance Analysis", 20, 150)]
      && (forall k :: 0 <= k < |AnalysisText| ==> p[17 + k] == Text(AnalysisText[k], 25, 160 + 6 * k))
      && p[28] == Centred("PoultryWatch - Cloud-based Poultry Monitoring System", 280)
      && p[29] == Centred("This report is auto-generated and intended for farm management purposes", 285)
  {
    var h, m, a := HeaderMarks(data, generatedOn), MetricMarks(data.weeklyAverage, show), AnalysisMarks(AnalysisText, 160);
    var p := h + m + a + FooterMarks;
    assert p[..7] == h;
    assert p[7..17] == m;
    forall k | 0 <= k < |AnalysisText| ensures p[17 + k] == Text(AnalysisText[k], 25, 160 + 6 * k) {
      assert p[17 + k] == a[k];
    }
  }

  /** The PDF's status text is the reports page's badge label, for every
      status string. */
  lemma StatusTextMatchesReportsPage(status: string)
    ensures StatusText(status) == Reports.StatusLabel(status)
  {
  }

  lemma StatusColours()
    ensures StatusColor("good") == Rgb(34, 197, 94)
    ensures StatusColor("warning") == Rgb(234, 179, 8)
    ensures forall s :: s != "good" && s != "warning" ==> StatusColor(s) == Rgb(239, 68, 68)
  {
  }

  /** The file is named after the date part of the ISO timestamp. */
  lemma FileNameOfTimestamp(day: string, time: string)
    requires 'T' !in day
    ensures ReportFileName(day + "T" + time) == "poultrywatch-report-" + day + ".pdf"
  {
    DatePartOfTimestamp(day, time);
  }
}
