/** The analytics endpoints: the overview (per-day counts and success
    rates, the most recognised persons, the average processing time, the
    number of stored embeddings and the peak hour) and the per-person
    report. Every query is a parameter whose answer is an `Outcome`;
    `round(...)` is not modelled, rates are exact. */
module Analytics {
  import opened Common

  /** One row of the per-day aggregate; the date is already rendered
      with `isoformat()`, or `None`. */
  datatype DailyStat = DailyStat(date: Option<string>, totalCount: Option<int>, successCount: Option<int>)

  datatype DayCount = DayCount(date: Option<string>, count: int)
  datatype DayRate = DayRate(date: Option<string>, rate: real)

  /** The count entry of one day: the total, `None` read as 0. */
  function DayCountOf(stat: DailyStat): (c: DayCount)
    ensures c.date == stat.date
    ensures stat.totalCount == None ==> c.count == 0
    ensures stat.totalCount.Some? ==> c.count == stat.totalCount.value
  {
    DayCount(stat.date, OrZero(stat.totalCount))
  }

  /** The rate entry of one day: successes per hundred attempts, 0 for a
      day without attempts. */
  function DayRateOf(stat: DailyStat): (r: DayRate)
    ensures r.date == stat.date
    ensures var total := OrZero(stat.totalCount);
            var success := OrZero(stat.successCount);
            && (total > 0 ==> r.rate * total as real == success as real * 100.0)
            && (total <= 0 ==> r.rate == 0.0)
            && (0 < total && 0 <= success <= total ==> 0.0 <= r.rate <= 100.0)
  {
    DayRate(stat.date, SuccessRate(OrZero(stat.successCount), OrZero(stat.totalCount)))
  }

  /** The loop of `get_analytics_overview` building the two parallel lists:
      one count entry and one rate entry per row, with the same date, in
      row order. */
  method BuildDailySeries(stats: seq<DailyStat>) returns (counts: seq<DayCount>, rates: seq<DayRate>)
    ensures |counts| == |stats| && |rates| == |stats|
    ensures forall i :: 0 <= i < |stats| ==> counts[i] == DayCountOf(stats[i]) && rates[i] == DayRateOf(stats[i])
    ensures forall i :: 0 <= i < |stats| ==> counts[i].date == rates[i].date == stats[i].date
  {
    counts := [];
    rates := [];
    for i := 0 to |stats|
      invariant |counts| == i && |rates| == i
      invariant forall j :: 0 <= j < i ==> counts[j] == DayCountOf(stats[j]) && rates[j] == DayRateOf(stats[j])
    {
      var stat := stats[i];
      var total := if stat.totalCount.Some? then stat.totalCount.value else 0;
      var success := if stat.successCount.Some? then stat.successCount.value else 0;
      var rate := if total > 0 then success as real / total as real * 100.0 else 0.0;
      counts := counts + [DayCount(stat.date, total)];
      rates := rates + [DayRate(stat.date, rate)];
    }
  }

  /** A row of the top-persons query. */
  datatype TopRow = TopRow(name: string, recognitionCount: int)
  datatype PersonCount = PersonCount(name: string, count: int)

  /** The comprehension over the top-persons rows. */
  function TopPersons(rows: seq<TopRow>): (r: seq<PersonCount>)
    ensures |r| == |rows|
    ensures forall i :: 0 <= i < |rows| ==> r[i].name == rows[i].name && r[i].count == rows[i].recognitionCount
  {
    if |rows| == 0 then [] else TopPersons(rows[..|rows| - 1]) + [PersonCount(rows[|rows| - 1].name, rows[|rows| - 1].recognitionCount)]
  }

  /** The top-persons list keeps the query's order: splitting the rows
      splits the list at the same place. */
  lemma {:induction false} TopPersonsAppend(a: seq<TopRow>, b: seq<TopRow>)
    ensures TopPersons(a + b) == TopPersons(a) + TopPersons(b)
  {
    if |b| == 0 {
      assert a + b == a;
    } else {
      assert (a + b)[..|a + b| - 1] == a + b[..|b| - 1];
      TopPersonsAppend(a, b[..|b| - 1]);
    }
  }

  /** `float(rows[0]["avg_time"]) if rows and rows[0]["avg_time"] else 0`. */
  function AverageTime(rows: seq<Option<real>>): (t: real)
    ensures (rows == [] || rows[0] == None) ==> t == 0.0
    ensures rows != [] && rows[0].Some? ==> t == rows[0].value
  {
    if rows != [] && rows[0].Some? && rows[0].value != 0.0 then rows[0].value else 0.0
  }

  /** The decimal digits of a natural number. */
  function Digits(n: nat): (s: string)
    ensures |s| >= 1
    ensures forall i :: 0 <= i < |s| ==> '0' <= s[i] <= '9'
  {
    if n < 10 then [DigitChar(n)] else Digits(n / 10) + [DigitChar(n % 10)]
  }

  function DigitChar(d: nat): (c: char)
    requires d < 10
    ensures '0' <= c <= '9' && (c as int) - ('0' as int) == d
  {
    ('0' as int + d) as char
  }

  /** The value of a string of decimal digits. */
  function ParseDecimal(s: string): int {
    if |s| == 0 then 0 else ParseDecimal(s[..|s| - 1]) * 10 + ((s[|s| - 1] as int) - ('0' as int))
  }

  lemma {:induction false} DigitsRoundTrip(n: nat)
    ensures ParseDecimal(Digits(n)) == n
  {
    if n >= 10 {
      var s := Digits(n);
      assert s[..|s| - 1] == Digits(n / 10);
      DigitsRoundTrip(n / 10);
    }
  }

  /** Python's `f"{h:02d}"`: at least two characters, zero-padded after the sign. */
  function ZeroPad2(h: int): (s: string)
    ensures |s| >= 2
    ensures h >= 0 ==> forall i :: 0 <= i < |s| ==> '0' <= s[i] <= '9'
    ensures h < 0 ==> s[0] == '-' && forall i :: 1 <= i < |s| ==> '0' <= s[i] <= '9'
    ensures 0 <= h < 10 ==> s[0] == '0'
  {
    if h < 0 then "-" + Digits(-h)
    else if h < 10 then "0" + Digits(h)
    else Digits(h)
  }

  /** The peak-hour label: the first row's hour as `HH:00`, or "N/A" when
      there is no row or its hour is `None`. */
  function PeakHour(rows: seq<Option<int>>): (text: string)
    ensures (rows == [] || rows[0] == None) ==> text == "N/A"
    ensures rows != [] && rows[0].Some? ==>
      |text| >= 5 && text[|text| - 3..] == ":00"
  {
    if rows != [] && rows[0].Some? then ZeroPad2(rows[0].value) + ":00" else "N/A"
  }

  /** A non-negative peak hour reads back from its label; an hour of a day
      (0 to 23) renders as exactly five characters. */
  lemma PeakHourRoundTrip(rows: seq<Option<int>>)
    requires rows != [] && rows[0].Some? && rows[0].value >= 0
    ensures var text := PeakHour(rows);
            ParseDecimal(text[..|text| - 3]) == rows[0].value
    ensures rows[0].value < 100 ==> |PeakHour(rows)| == 5
  {
    var h: nat := rows[0].value;
    var text := PeakHour(rows);
    assert text[..|text| - 3] == ZeroPad2(h);
    DigitsRoundTrip(h);
    if h < 10 {
      var s := ZeroPad2(h);
      assert s[..|s| - 1] == "0";
      assert ParseDecimal("0") == 0;
    } else if h < 100 {
      assert Digits(h) == Digits(h / 10) + [DigitChar(h % 10)];
    }
  }

  /** The overview response. */
  datatype Overview = Overview(
    dailyRecognitions: seq<DayCount>, successRateTrend: seq<DayRate>, topPersons: seq<PersonCount>,
    averageProcessingTime: real, peakHour: string, totalEmbeddings: Option<int>)

  /** `get_analytics_overview`: the queries run in order and the first that
      raises turns into a 500 carrying its message. */
  method GetAnalyticsOverview(
    daily: Outcome<seq<DailyStat>>,
    top: Outcome<seq<TopRow>>,
    averageTime: Outcome<seq<Option<real>>>,
    vectorStats: Outcome<Field<int>>,
    peak: Outcome<seq<Option<int>>>)
    returns (r: Result<Overview, (nat, string)>)
    ensures r.Ok? <==> daily.Answer? && top.Answer? && averageTime.Answer? && vectorStats.Answer? && peak.Answer?
    ensures daily.Raises? ==> r == Err((InternalServerError, "Failed to retrieve analytics: " + daily.message))
    ensures daily.Answer? && top.Raises? ==> r == Err((InternalServerError, "Failed to retrieve analytics: " + top.message))
    ensures daily.Answer? && top.Answer? && averageTime.Raises? ==>
      r == Err((InternalServerError, "Failed to retrieve analytics: " + averageTime.message))
    ensures daily.Answer? && top.Answer? && averageTime.Answer? && vectorStats.Raises? ==>
      r == Err((InternalServerError, "Failed to retrieve analytics: " + vectorStats.message))
    ensures daily.Answer? && top.Answer? && averageTime.Answer? && vectorStats.Answer? && peak.Raises? ==>
      r == Err((InternalServerError, "Failed to retrieve analytics: " + peak.message))
    ensures r.Ok? ==>
      && |r.value.dailyRecognitions| == |daily.value| == |r.value.successRateTrend|
      && (forall i :: 0 <= i < |daily.value| ==>
            r.value.dailyRecognitions[i] == DayCountOf(daily.value[i])
            && r.value.successRateTrend[i] == DayRateOf(daily.value[i]))
      && r.value.topPersons == TopPersons(top.value)
      && r.value.averageProcessingTime == AverageTime(averageTime.value)
      && r.value.totalEmbeddings == vectorStats.value.Get(0)
      && r.value.peakHour == PeakHour(peak.value)
  {
    if daily.Raises? {
      return Err((InternalServerError, "Failed to retrieve analytics: " + daily.message));
    }
    var counts, rates := BuildDailySeries(daily.value);
    if top.Raises? {
      return Err((InternalServerError, "Failed to retrieve analytics: " + top.message));
    }
    var persons := TopPersons(top.value);
    if averageTime.Raises? {
      return Err((InternalServerError, "Failed to retrieve analytics: " + averageTime.message));
    }
    var avg := AverageTime(averageTime.value);
    if vectorStats.Raises? {
      return Err((InternalServerError, "Failed to retrieve analytics: " + vectorStats.message));
    }
    var embeddings := vectorStats.value.Get(0);
    if peak.Raises? {
      return Err((InternalServerError, "Failed to retrieve analytics: " + peak.message));
    }
    r := Ok(Overview(counts, rates, persons, avg, PeakHour(peak.value), embeddings));
  }

  /** The rows of the per-person queries. */
  datatype NamedPerson = NamedPerson(id: string, name: string)
  datatype PersonStats = PersonStats(
    totalRecognitions: Option<int>, successfulRecognitions: Option<int>,
    avgConfidence: Option<real>, lastRecognition: Option<string>)
  datatype TrendRow = TrendRow(date: Option<string>, count: int)

  /** The record used when the statistics query returns no row. */
  const NoStats := PersonStats(Some(0), Some(0), Some(0.0), None)

  datatype PersonReport = PersonReport(
    personName: string, totalRecognitions: int, successfulRecognitions: int,
    averageConfidence: real, lastRecognition: Option<string>, dailyTrend: seq<TrendRow>)

  /** `get_person_analytics`: 404 for an unknown person; a missing
      statistics row reads as zero recognitions and no last recognition. */
  function PersonAnalytics(
    persons: Outcome<seq<NamedPerson>>,
    stats: Outcome<seq<PersonStats>>,
    trend: Outcome<seq<TrendRow>>)
    : (r: Result<PersonReport, (nat, string)>)
    ensures persons == Answer([]) ==> r == Err((NotFound, "Person not found"))
    ensures persons.Raises? ==> r == Err((InternalServerError, "Failed to retrieve person analytics: " + persons.message))
    ensures persons.Answer? && persons.value != [] && stats.Raises? ==>
      r == Err((InternalServerError, "Failed to retrieve person analytics: " + stats.message))
    ensures persons.Answer? && persons.value != [] && stats.Answer? && trend.Raises? ==>
      r == Err((InternalServerError, "Failed to retrieve person analytics: " + trend.message))
    ensures r.Ok? <==> persons.Answer? && persons.value != [] && stats.Answer? && trend.Answer?
    ensures r.Ok? ==>
      && r.value.personName == persons.value[0].name
      && r.value.dailyTrend == trend.value
      && (stats.value == [] ==>
            r.value.totalRecognitions == 0 && r.value.successfulRecognitions == 0
            && r.value.averageConfidence == 0.0 && r.value.lastRecognition == None)
      && (stats.value != [] ==>
            && r.value.totalRecognitions == OrZero(stats.value[0].totalRecognitions)
            && r.value.successfulRecognitions == OrZero(stats.value[0].successfulRecognitions)
            && r.value.averageConfidence == OrZeroReal(stats.value[0].avgConfidence)
            && r.value.lastRecognition == stats.value[0].lastRecognition)
  {
    match persons
    case Raises(m) => Err((InternalServerError, "Failed to retrieve person analytics: " + m))
    case Answer(found) =>
      if found == [] then Err((NotFound, "Person not found"))
      else match stats
        case Raises(m) => Err((InternalServerError, "Failed to retrieve person analytics: " + m))
        case Answer(rows) =>
          var row := if rows == [] then NoStats else rows[0];
          match trend
          case Raises(m) => Err((InternalServerError, "Failed to retrieve person analytics: " + m))
          case Answer(days) =>
            Ok(PersonReport(found[0].name, OrZero(row.totalRecognitions), OrZero(row.successfulRecognitions),
                            OrZeroReal(row.avgConfidence), row.lastRecognition, days))
  }
}
