/** The historical-data dialog: a date-range selector, four summary
    figures and a table of daily records with a mortality highlight and a
    trend icon. The summary figures are fixed text; the table is the fixed
    record list, whatever the selected range. */
module HistoricalData {
  import opened IsoDates

  /** One entry of `historicalData`. */
  datatype Record = Record(
    date: string,
    mortality: real,
    feedEfficiency: real,
    weightGain: real,
    totalFeed: real,
    trend: string)

  const Records: seq<Record> := [
    Record("2024-01-15", 2.8, 1.82, 0.31, 1950.0, "up"),
    Record("2024-01-16", 3.1, 1.85, 0.32, 2020.0, "up"),
    Record("2024-01-17", 2.9, 1.83, 0.30, 1980.0, "down"),
    Record("2024-01-18", 3.3, 1.88, 0.33, 2100.0, "up"),
    Record("2024-01-19", 3.0, 1.84, 0.31, 2010.0, "neutral"),
    Record("2024-01-20", 3.2, 1.85, 0.32, 2047.0, "up")
  ]

  /** The four summary cards, as the dialog writes them. */
  datatype Summary = Summary(avgMortality: real, feedEfficiency: real, weightGain: real, totalFeed: int)

  const DisplayedSummary := Summary(3.05, 1.845, 0.315, 2018)

  datatype TrendIcon = TrendingUp | TrendingDown | NeutralDot

  /** One rendered table row: the cell texts, the mortality cell's class,
      and the trend icon with its class. */
  datatype Row = Row(
    date: string,
    mortality: string,
    mortalityClass: string,
    feedEfficiency: string,
    weightGain: string,
    totalFeed: string,
    trendIcon: TrendIcon,
    trendClass: string)

  /** Mortality above 3 % is highlighted as destructive; 3 % itself is not. */
  function MortalityClass(mortality: real): string {
    if mortality > 3.0 then "text-destructive" else "text-success"
  }

  /** 'up' and 'down' have their own icons; anything else is a dot. */
  function TrendIconOf(trend: string): TrendIcon {
    if trend == "up" then TrendingUp
    else if trend == "down" then TrendingDown
    else NeutralDot
  }

  /** The rising icon is green, the falling one red, the dot muted. */
  function TrendClass(icon: TrendIcon): string {
    match icon
    case TrendingUp => "h-4 w-4 text-success"
    case TrendingDown => "h-4 w-4 text-destructive"
    case NeutralDot => "h-4 w-4 bg-muted rounded-full"
  }

  /** One row of the table; `show` is the number-to-text conversion. */
  function RenderRow(r: Record, show: real -> string): Row {
    Row(r.date, show(r.mortality) + "%", MortalityClass(r.mortality), show(r.feedEfficiency),
        show(r.weightGain) + "kg", show(r.totalFeed) + "kg",
        TrendIconOf(r.trend), TrendClass(TrendIconOf(r.trend)))
  }

  /** The table body, `historicalData.map(...)`: every record, in order,
      rendered. The selected range is accepted and not consulted: "Apply
      Filter" has no handler. */
  function TableRows(from: string, to: string, show: real -> string): (rows: seq<Row>)
    ensures |rows| == |Records|
    ensures forall i :: 0 <= i < |rows| ==> rows[i] == RenderRow(Records[i], show)
  {
    seq(|Records|, i requires 0 <= i < |Records| => RenderRow(Records[i], show))
  }

  lemma MortalityHighlight(mortality: real)
    ensures MortalityClass(mortality) == "text-destructive" <==> mortality > 3.0
    ensures MortalityClass(mortality) == "text-success" <==> mortality <= 3.0
    ensures MortalityClass(3.0) == "text-success"
  {
  }

  lemma TrendMapping(trend: string)
    ensures TrendIconOf(trend) == TrendingUp <==> trend == "up"
    ensures TrendIconOf(trend) == TrendingDown <==> trend == "down"
    ensures TrendIconOf(trend) == NeutralDot <==> trend != "up" && trend != "down"
  {
  }

  /** A row's trend class is green exactly for 'up' and red exactly for
      'down'. */
  lemma TrendColours(r: Record, show: real -> string)
    ensures RenderRow(r, show).trendClass == "h-4 w-4 text-success" <==> r.trend == "up"
    ensures RenderRow(r, show).trendClass == "h-4 w-4 text-destructive" <==> r.trend == "down"
  {
  }

  /** The table is the same for every date range. */
  lemma TableIgnoresDateRange(from1: string, to1: string, from2: string, to2: string, show: real -> string)
    ensures TableRows(from1, to1, show) == TableRows(from2, to2, show)
  {
  }

  /** Only the 3.1, 3.3 and 3.2 rows are highlighted. */
  lemma HighlightedRows(from: string, to: string, show: real -> string)
    ensures forall i :: 0 <= i < |Records| ==>
              (TableRows(from, to, show)[i].mortalityClass == "text-destructive" <==> i in {1, 3, 5})
  {
    assert TableRows(from, to, show) == [RenderRow(Records[0], show), RenderRow(Records[1], show),
                                         RenderRow(Records[2], show), RenderRow(Records[3], show),
                                         RenderRow(Records[4], show), RenderRow(Records[5], show)];
  }

  // Column arithmetic

  datatype Column = Mortality | FeedEfficiency | WeightGain | TotalFeed

  function Value(r: Record, c: Column): real {
    match c
    case Mortality => r.mortality
    case FeedEfficiency => r.feedEfficiency
    case WeightGain => r.weightGain
    case TotalFeed => r.totalFeed
  }

  function ColumnOf(data: seq<Record>, c: Column): (xs: seq<real>)
    ensures |xs| == |data|
    ensures forall i :: 0 <= i < |data| ==> xs[i] == Value(data[i], c)
  {
    seq(|data|, i requires 0 <= i < |data| => Value(data[i], c))
  }

  function Sum(xs: seq<real>): real {
    if xs == [] then 0.0 else xs[0] + Sum(xs[1..])
  }

  function Mean(xs: seq<real>): real
    requires |xs| > 0
  {
    Sum(xs) / (|xs| as real)
  }

  /** `Math.round`: the nearest integer, halves rounded up. */
  function Round(x: real): (n: int)
    ensures n as real - 0.5 <= x < n as real + 0.5
  {
    (x + 0.5).Floor
  }

  lemma SumOfSix(a: real, b: real, c: real, d: real, e: real, f: real)
    ensures Sum([a, b, c, d, e, f]) == a + b + c + d + e + f
  {
    assert [f][1..] == [];
    assert Sum([f]) == f;
    assert [e, f][1..] == [f];
    assert Sum([e, f]) == e + f;
    assert [d, e, f][1..] == [e, f];
    assert Sum([d, e, f]) == d + e + f;
    assert [c, d, e, f][1..] == [d, e, f];
    assert Sum([c, d, e, f]) == c + d + e + f;
    assert [b, c, d, e, f][1..] == [c, d, e, f];
    assert Sum([b, c, d, e, f]) == b + c + d + e + f;
    assert [a, b, c, d, e, f][1..] == [b, c, d, e, f];
  }

  /** The four summary figures agree with the table: the first three are
      the exact column means, the total feed is the rounded mean
      (12107 / 6 = 2017.83...). */
  lemma SummaryMatchesTable()
    ensures DisplayedSummary.avgMortality == Mean(ColumnOf(Records, Mortality))
    ensures DisplayedSummary.feedEfficiency == Mean(ColumnOf(Records, FeedEfficiency))
    ensures DisplayedSummary.weightGain == Mean(ColumnOf(Records, WeightGain))
    ensures DisplayedSummary.totalFeed == Round(Mean(ColumnOf(Records, TotalFeed)))
  {
    assert ColumnOf(Records, Mortality) == [2.8, 3.1, 2.9, 3.3, 3.0, 3.2];
    assert ColumnOf(Records, FeedEfficiency) == [1.82, 1.85, 1.83, 1.88, 1.84, 1.85];
    assert ColumnOf(Records, WeightGain) == [0.31, 0.32, 0.30, 0.33, 0.31, 0.32];
    assert ColumnOf(Records, TotalFeed) == [1950.0, 2020.0, 1980.0, 2100.0, 2010.0, 2047.0];
    SumOfSix(2.8, 3.1, 2.9, 3.3, 3.0, 3.2);
    SumOfSix(1.82, 1.85, 1.83, 1.88, 1.84, 1.85);
    SumOfSix(0.31, 0.32, 0.30, 0.33, 0.31, 0.32);
    SumOfSix(1950.0, 2020.0, 1980.0, 2100.0, 2010.0, 2047.0);
  }

  /** The dialog's `dateRange` state, replaced one field at a time. */
  class DateRange {
    var from: string
    var to: string

    /** Opens on the last 30 days: both ends are the date parts of clock
        readings, passed in as ISO timestamps. */
    constructor (thirtyDaysAgoIso: string, nowIso: string)
      ensures from == DatePart(thirtyDaysAgoIso) && to == DatePart(nowIso)
    {
      from := DatePart(thirtyDaysAgoIso);
      to := DatePart(nowIso);
    }

    method SetFrom(value: string)
      modifies this
      ensures from == value && to == old(to)
    {
      from := value;
    }

    method SetTo(value: string)
      modifies this
      ensures to == value && from == old(from)
    {
      to := value;
    }
  }
}
