/**
 * The admin dashboard summary (src/hooks/use-dashboard-metrics.ts): four query
 * replies are folded into one metrics record, with a 7-day upload histogram
 * and a week-over-week trend.
 *
 * A row's `created_at` is given as its local day number; the `DD/MM` label of a
 * day is the parameter `dayLabel`. The trend is an integer in tenths of a percent.
 */
module Dashboard {
  import opened Types
  import SupabaseClient

  /** One bar of the histogram. */
  datatype UploadsByDay = UploadsByDay(date: string, count: nat)

  datatype Metrics = Metrics(
    modelsCount: nat,
    mediaCount: nat,
    recentModels: seq<Model>,
    recentMedia: seq<Media>,
    uploadsData: seq<UploadsByDay>,
    uploadsTrend: int,
    scheduledMedia: seq<Media>)

  const InitialState := Metrics(0, 0, [], [], [], 0, [])

  const ErrorPrefix := "Erro ao buscar dados do dashboard: "

  /** What one query settles to: rows and an exact count (either may be null), or an error message. */
  datatype Reply<T> = Rows(data: Option<seq<T>>, count: Option<nat>) | Failed(message: string)

  /** The four settled replies, in the order they are checked. Upload rows are day numbers. */
  datatype QueryResults = QueryResults(
    models: Reply<Model>,
    media: Reply<Media>,
    uploads: Reply<int>,
    scheduled: Reply<Media>)

  /** `data || []`. */
  function RowsOf<T>(r: Reply<T>): seq<T>
  {
    if r.Rows? && r.data.Some? then r.data.value else []
  }

  /** `count ?? 0`. */
  function CountOf<T>(r: Reply<T>): nat
  {
    if r.Rows? && r.count.Some? then r.count.value else 0
  }

  /** Entry `i` of the window is the day `6 - i` days before today. */
  function WindowDay(today: int, i: int): int
  {
    today - (6 - i)
  }

  /** `uploadsByDay[label] ?? 0`. */
  function Lookup(m: map<string, nat>, l: string): nat
  {
    if l in m then m[l] else 0
  }

  /** Number of rows whose day carries the label `l`. */
  function CountLabel(rows: seq<int>, dayLabel: int -> string, l: string): (n: nat)
    ensures n <= |rows|
    ensures n == 0 <== forall k :: 0 <= k < |rows| ==> dayLabel(rows[k]) != l
  {
    if rows == [] then 0
    else CountLabel(rows[..|rows| - 1], dayLabel, l) + (if dayLabel(rows[|rows| - 1]) == l then 1 else 0)
  }

  /** Number of rows that fall on day `d`. */
  function CountDay(rows: seq<int>, d: int): nat
  {
    if rows == [] then 0
    else CountDay(rows[..|rows| - 1], d) + (if rows[|rows| - 1] == d then 1 else 0)
  }

  /** The 7-day histogram the hook publishes, as a specification. */
  function Histogram(rows: seq<int>, today: int, dayLabel: int -> string): (h: seq<UploadsByDay>)
    ensures |h| == 7
  {
    seq(7, i requires 0 <= i < 7 =>
      UploadsByDay(dayLabel(WindowDay(today, i)), CountLabel(rows, dayLabel, dayLabel(WindowDay(today, i)))))
  }

  function Total(days: seq<UploadsByDay>): nat
  {
    if days == [] then 0 else Total(days[..|days| - 1]) + days[|days| - 1].count
  }

  /**
   * `Number(x.toFixed(1))` in tenths for x = num / (10 * den): the nearest integer
   * to num / den, halves rounded away from zero.
   */
  function RoundHalfAway(num: int, den: nat): (r: int)
    requires den > 0
    ensures -(den as int) <= 2 * num - 2 * den * r <= den
    ensures num >= 0 ==> r >= 0
    ensures num <= 0 ==> r <= 0
  {
    if num >= 0 then (2 * num + den) / (2 * den) else -((2 * -num + den) / (2 * den))
  }

  /** Week-over-week trend in tenths of a percent (1000 is 100%). */
  function Trend(previous: nat, recent: nat): int
  {
    if previous == 0 then (if recent > 0 then 1000 else 0)
    else RoundHalfAway(1000 * (recent - previous), previous)
  }

  /** The metrics built when every query succeeded. */
  function BuildMetrics(q: QueryResults, today: int, dayLabel: int -> string): Metrics
  {
    var h := Histogram(RowsOf(q.uploads), today, dayLabel);
    var midPoint := |h| / 2;
    Metrics(CountOf(q.models), CountOf(q.media), RowsOf(q.models), RowsOf(q.media),
            h, Trend(Total(h[..midPoint]), Total(h[midPoint..])), RowsOf(q.scheduled))
  }

  /** The body of the `try` block: the first failed reply aborts, otherwise the new metrics. */
  function Summarize(q: QueryResults, today: int, dayLabel: int -> string): Result<Metrics, string>
  {
    if q.models.Failed? then Err(q.models.message)
    else if q.media.Failed? then Err(q.media.message)
    else if q.uploads.Failed? then Err(q.uploads.message)
    else if q.scheduled.Failed? then Err(q.scheduled.message)
    else Ok(BuildMetrics(q, today, dayLabel))
  }

  // Properties of the histogram, the split and the trend.

  ghost predicate Injective(dayLabel: int -> string)
  {
    forall a, b :: dayLabel(a) == dayLabel(b) ==> a == b
  }

  /** The labels of the 7 window days, oldest first. */
  function WindowLabels(today: int, dayLabel: int -> string): (ls: seq<string>)
    ensures |ls| == 7
  {
    seq(7, i requires 0 <= i < 7 => dayLabel(WindowDay(today, i)))
  }

  predicate Distinct(ls: seq<string>)
  {
    forall i, j :: 0 <= i < j < |ls| ==> ls[i] != ls[j]
  }

  /** Number of rows whose label is one of `ls`. */
  function CountIn(rows: seq<int>, dayLabel: int -> string, ls: seq<string>): (n: nat)
    ensures n <= |rows|
  {
    if rows == [] then 0
    else CountIn(rows[..|rows| - 1], dayLabel, ls) + (if dayLabel(rows[|rows| - 1]) in ls then 1 else 0)
  }

  /** Sum over the labels `ls` of the rows counted under each. */
  function SumCounts(rows: seq<int>, dayLabel: int -> string, ls: seq<string>): nat
  {
    if ls == [] then 0
    else SumCounts(rows, dayLabel, ls[..|ls| - 1]) + CountLabel(rows, dayLabel, ls[|ls| - 1])
  }

  function Occurrences(ls: seq<string>, x: string): nat
  {
    if ls == [] then 0 else Occurrences(ls[..|ls| - 1], x) + (if ls[|ls| - 1] == x then 1 else 0)
  }

  /** The window is 7 days long, oldest first, and its last entry is today. */
  lemma HistogramWindow(rows: seq<int>, today: int, dayLabel: int -> string)
    ensures |Histogram(rows, today, dayLabel)| == 7
    ensures Histogram(rows, today, dayLabel)[6].date == dayLabel(today)
    ensures forall i :: 0 <= i < 7 ==>
      Histogram(rows, today, dayLabel)[i].date == dayLabel(today - (6 - i)) &&
      Histogram(rows, today, dayLabel)[i].count == CountLabel(rows, dayLabel, dayLabel(today - (6 - i)))
  {
    var h := Histogram(rows, today, dayLabel);
    forall i | 0 <= i < 7
      ensures h[i].date == dayLabel(today - (6 - i))
      ensures h[i].count == CountLabel(rows, dayLabel, dayLabel(today - (6 - i)))
    {
      assert WindowDay(today, i) == today - (6 - i);
    }
  }

  /** Under an injective label, counting by label is counting by day. */
  lemma {:induction false} CountLabelInjective(rows: seq<int>, dayLabel: int -> string, d: int)
    requires Injective(dayLabel)
    ensures CountLabel(rows, dayLabel, dayLabel(d)) == CountDay(rows, d)
  {
    if rows != [] {
      CountLabelInjective(rows[..|rows| - 1], dayLabel, d);
    }
  }

  lemma {:induction false} CountDayZero(rows: seq<int>, d: int)
    ensures CountDay(rows, d) == 0 <==> forall k :: 0 <= k < |rows| ==> rows[k] != d
  {
    if rows != [] {
      var init := rows[..|rows| - 1];
      CountDayZero(init, d);
      assert forall k :: 0 <= k < |init| ==> init[k] == rows[k];
    }
  }

  /** Entry `i` counts exactly the rows of its day, and is 0 when there are none. */
  lemma HistogramCounts(rows: seq<int>, today: int, dayLabel: int -> string, i: int)
    requires Injective(dayLabel) && 0 <= i < 7
    ensures Histogram(rows, today, dayLabel)[i].count == CountDay(rows, WindowDay(today, i))
    ensures Histogram(rows, today, dayLabel)[i].count == 0 <==>
      forall k :: 0 <= k < |rows| ==> rows[k] != WindowDay(today, i)
  {
    CountLabelInjective(rows, dayLabel, WindowDay(today, i));
    CountDayZero(rows, WindowDay(today, i));
  }

  lemma {:induction false} OccurrencesDistinct(ls: seq<string>, x: string)
    requires Distinct(ls)
    ensures Occurrences(ls, x) == if x in ls then 1 else 0
  {
    if ls != [] {
      var init := ls[..|ls| - 1];
      assert Distinct(init);
      OccurrencesDistinct(init, x);
      assert x in ls <==> x in init || ls[|ls| - 1] == x;
    }
  }

  lemma {:induction false} SumCountsSnoc(rows: seq<int>, dayLabel: int -> string, ls: seq<string>)
    requires rows != []
    ensures SumCounts(rows, dayLabel, ls) ==
      SumCounts(rows[..|rows| - 1], dayLabel, ls) + Occurrences(ls, dayLabel(rows[|rows| - 1]))
  {
    if ls != [] {
      SumCountsSnoc(rows, dayLabel, ls[..|ls| - 1]);
    }
  }

  lemma {:induction false} SumCountsEmpty(dayLabel: int -> string, ls: seq<string>)
    ensures SumCounts([], dayLabel, ls) == 0
  {
    if ls != [] {
      SumCountsEmpty(dayLabel, ls[..|ls| - 1]);
    }
  }

  lemma {:induction false} SumCountsDistinct(rows: seq<int>, dayLabel: int -> string, ls: seq<string>)
    requires Distinct(ls)
    ensures SumCounts(rows, dayLabel, ls) == CountIn(rows, dayLabel, ls)
  {
    if rows == [] {
      SumCountsEmpty(dayLabel, ls);
    } else {
      SumCountsSnoc(rows, dayLabel, ls);
      OccurrencesDistinct(ls, dayLabel(rows[|rows| - 1]));
      SumCountsDistinct(rows[..|rows| - 1], dayLabel, ls);
    }
  }

  lemma {:induction false} TotalPrefix(rows: seq<int>, today: int, dayLabel: int -> string, k: nat)
    requires k <= 7
    ensures Total(Histogram(rows, today, dayLabel)[..k]) ==
      SumCounts(rows, dayLabel, WindowLabels(today, dayLabel)[..k])
  {
    if k > 0 {
      var h, ls := Histogram(rows, today, dayLabel), WindowLabels(today, dayLabel);
      assert h[..k][..k - 1] == h[..k - 1];
      assert ls[..k][..k - 1] == ls[..k - 1];
      TotalPrefix(rows, today, dayLabel, k - 1);
    }
  }

  /**
   * When the 7 window labels are distinct, the histogram counts every row whose
   * label is in the window once and drops the others, so it never exceeds the rows.
   */
  lemma HistogramTotal(rows: seq<int>, today: int, dayLabel: int -> string)
    requires Distinct(WindowLabels(today, dayLabel))
    ensures Total(Histogram(rows, today, dayLabel)) == CountIn(rows, dayLabel, WindowLabels(today, dayLabel))
    ensures Total(Histogram(rows, today, dayLabel)) <= |rows|
  {
    var h, ls := Histogram(rows, today, dayLabel), WindowLabels(today, dayLabel);
    TotalPrefix(rows, today, dayLabel, 7);
    assert h[..7] == h && ls[..7] == ls;
    SumCountsDistinct(rows, dayLabel, ls);
  }

  lemma {:induction false} TotalAppend(a: seq<UploadsByDay>, b: seq<UploadsByDay>)
    ensures Total(a + b) == Total(a) + Total(b)
  {
    if b != [] {
      assert (a + b)[..|a + b| - 1] == a + b[..|b| - 1];
      TotalAppend(a, b[..|b| - 1]);
    } else {
      assert a + b == a;
    }
  }

  lemma {:induction false} TotalZero(days: seq<UploadsByDay>)
    requires forall i :: 0 <= i < |days| ==> days[i].count == 0
    ensures Total(days) == 0
  {
    if days != [] {
      TotalZero(days[..|days| - 1]);
    }
  }

  /** The split point of a 7-day window is 3, and the two halves add up to the whole. */
  lemma HalvesAddUp(h: seq<UploadsByDay>)
    requires |h| == 7
    ensures |h| / 2 == 3
    ensures Total(h[..|h| / 2]) + Total(h[|h| / 2..]) == Total(h)
  {
    assert h[..3] + h[3..] == h;
    TotalAppend(h[..3], h[3..]);
  }

  /** The trend's special cases when the earlier half is empty. */
  lemma TrendFromZero(recent: nat)
    ensures recent == 0 ==> Trend(0, recent) == 0
    ensures recent > 0 ==> Trend(0, recent) == 1000
  {
  }

  /** A trend against a non-empty earlier half never drops below -100% and has the sign of the change. */
  lemma TrendBounds(previous: nat, recent: nat)
    requires previous > 0
    ensures Trend(previous, recent) >= -1000
    ensures recent >= previous ==> Trend(previous, recent) >= 0
    ensures recent <= previous ==> Trend(previous, recent) <= 0
  {
  }

  /** Any failed reply aborts the update, reporting the first failure in query order. */
  lemma SummarizeAborts(q: QueryResults, today: int, dayLabel: int -> string)
    requires q.models.Failed? || q.media.Failed? || q.uploads.Failed? || q.scheduled.Failed?
    ensures Summarize(q, today, dayLabel).Err?
    ensures Summarize(q, today, dayLabel).error ==
      if q.models.Failed? then q.models.message
      else if q.media.Failed? then q.media.message
      else if q.uploads.Failed? then q.uploads.message
      else q.scheduled.message
  {
  }

  /** With no failure the metrics carry the 7-day histogram and the trend of its two halves. */
  lemma SummarizeSucceeds(q: QueryResults, today: int, dayLabel: int -> string)
    requires !q.models.Failed? && !q.media.Failed? && !q.uploads.Failed? && !q.scheduled.Failed?
    ensures Summarize(q, today, dayLabel).Ok?
    ensures Summarize(q, today, dayLabel).value.uploadsData == Histogram(RowsOf(q.uploads), today, dayLabel)
    ensures Summarize(q, today, dayLabel).value.uploadsTrend ==
      Trend(Total(Histogram(RowsOf(q.uploads), today, dayLabel)[..3]), Total(Histogram(RowsOf(q.uploads), today, dayLabel)[3..]))
    ensures Summarize(q, today, dayLabel).value.modelsCount == CountOf(q.models)
    ensures Summarize(q, today, dayLabel).value.mediaCount == CountOf(q.media)
  {
  }

  /** Null data and null counts become empty lists, zero counts, a zero-filled window and a zero trend. */
  lemma MissingDataDefaults(today: int, dayLabel: int -> string)
    ensures Summarize(QueryResults(Rows(None, None), Rows(None, None), Rows(None, None), Rows(None, None)), today, dayLabel)
      == Ok(Metrics(0, 0, [], [], Histogram([], today, dayLabel), 0, []))
    ensures forall i :: 0 <= i < 7 ==> Histogram([], today, dayLabel)[i].count == 0
  {
    var h := Histogram([], today, dayLabel);
    forall i | 0 <= i < 7 ensures h[i].count == 0 {
      assert h[i].count == CountLabel([], dayLabel, dayLabel(WindowDay(today, i)));
    }
    TotalZero(h[..3]);
    TotalZero(h[3..]);
  }

  /** The `reduce` that counts rows per day label. */
  method CountByLabel(rows: seq<int>, dayLabel: int -> string) returns (acc: map<string, nat>)
    ensures forall l :: l in acc <==> CountLabel(rows, dayLabel, l) > 0
    ensures forall l :: Lookup(acc, l) == CountLabel(rows, dayLabel, l)
  {
    acc := map[];
    var i := 0;
    while i < |rows|
      invariant 0 <= i <= |rows|
      invariant forall l :: l in acc <==> CountLabel(rows[..i], dayLabel, l) > 0
      invariant forall l :: Lookup(acc, l) == CountLabel(rows[..i], dayLabel, l)
    {
      var date := dayLabel(rows[i]);
      acc := acc[date := Lookup(acc, date) + 1];
      assert rows[..i + 1][..i] == rows[..i];
      i := i + 1;
    }
    assert rows[..|rows|] == rows;
  }

  /** The `Array.from({ length: 7 }).map(...)` that projects the counts onto the window. */
  method FillWindow(byLabel: map<string, nat>, today: int, dayLabel: int -> string) returns (filled: seq<UploadsByDay>)
    ensures |filled| == 7
    ensures forall i :: 0 <= i < 7 ==>
      filled[i] == UploadsByDay(dayLabel(WindowDay(today, i)), Lookup(byLabel, dayLabel(WindowDay(today, i))))
  {
    filled := [];
    var index := 0;
    while index < 7
      invariant 0 <= index <= 7 && |filled| == index
      invariant forall i :: 0 <= i < index ==>
        filled[i] == UploadsByDay(dayLabel(WindowDay(today, i)), Lookup(byLabel, dayLabel(WindowDay(today, i))))
    {
      var l := dayLabel(WindowDay(today, index));
      filled := filled + [UploadsByDay(l, Lookup(byLabel, l))];
      index := index + 1;
    }
  }

  /** The hook's state: the published metrics, the loading flag and the error message. */
  class DashboardState {
    var metrics: Metrics
    var loading: bool
    var error: Option<string>

    constructor ()
      ensures metrics == InitialState && loading && error == None
    {
      metrics := InitialState;
      loading := true;
      error := None;
    }

    /**
     * `fetchSummary` as written: `createClient()` runs before the `try`, so when it
     * throws nothing below it runs. `client` is what `createClient()` returned or threw.
     */
    method FetchSummaryAsWritten(client: Result<nat, string>, q: QueryResults, today: int, dayLabel: int -> string)
      modifies this
      ensures client.Err? ==> loading && error == None && metrics == old(metrics)
      ensures client.Ok? ==> !loading
      ensures client.Ok? && Summarize(q, today, dayLabel).Err? ==>
        metrics == old(metrics) && error == Some(ErrorPrefix + Summarize(q, today, dayLabel).error)
      ensures client.Ok? && Summarize(q, today, dayLabel).Ok? ==>
        metrics == Summarize(q, today, dayLabel).value && error == None
    {
      loading := true;
      error := None;
      if client.Err? {
        return;
      }
      TrySummarize(q, today, dayLabel);
      loading := false;
    }

    /** `fetchSummary` with the client created inside the `try`, so that every path ends the load. */
    method FetchSummary(client: Result<nat, string>, q: QueryResults, today: int, dayLabel: int -> string)
      modifies this
      ensures !loading
      ensures client.Err? ==> metrics == old(metrics) && error == Some(ErrorPrefix + client.error)
      ensures client.Ok? && Summarize(q, today, dayLabel).Err? ==>
        metrics == old(metrics) && error == Some(ErrorPrefix + Summarize(q, today, dayLabel).error)
      ensures client.Ok? && Summarize(q, today, dayLabel).Ok? ==>
        metrics == Summarize(q, today, dayLabel).value && error == None
    {
      loading := true;
      error := None;
      if client.Err? {
        error := Some(ErrorPrefix + client.error);
      } else {
        TrySummarize(q, today, dayLabel);
      }
      loading := false;
    }

    /** The `try`/`catch` around the queries: throw on the first error, else publish. */
    method TrySummarize(q: QueryResults, today: int, dayLabel: int -> string)
      requires error == None
      modifies this`metrics, this`error
      ensures Summarize(q, today, dayLabel).Err? ==>
        metrics == old(metrics) && error == Some(ErrorPrefix + Summarize(q, today, dayLabel).error)
      ensures Summarize(q, today, dayLabel).Ok? ==>
        metrics == Summarize(q, today, dayLabel).value && error == None
    {
      var thrown: Option<string> := None;
      if q.models.Failed? {
        thrown := Some(q.models.message);
      } else if q.media.Failed? {
        thrown := Some(q.media.message);
      } else if q.uploads.Failed? {
        thrown := Some(q.uploads.message);
      } else if q.scheduled.Failed? {
        thrown := Some(q.scheduled.message);
      }
      if thrown.Some? {
        error := Some(ErrorPrefix + thrown.value);
        return;
      }
      var uploadsByDay := CountByLabel(RowsOf(q.uploads), dayLabel);
      var filledUploads := FillWindow(uploadsByDay, today, dayLabel);
      assert filledUploads == Histogram(RowsOf(q.uploads), today, dayLabel);
      var midPoint := |filledUploads| / 2;
      var previousTotal := Total(filledUploads[..midPoint]);
      var recentTotal := Total(filledUploads[midPoint..]);
      metrics := Metrics(CountOf(q.models), CountOf(q.media), RowsOf(q.models), RowsOf(q.media),
                         filledUploads, Trend(previousTotal, recentTotal), RowsOf(q.scheduled));
    }
  }

  /** Unconfigured credentials, as written: the dashboard never leaves its loading state and shows no error. */
  method UnconfiguredStaysLoading(q: QueryResults, today: int, dayLabel: int -> string) returns (d: DashboardState)
    ensures d.loading && d.error == None && d.metrics == InitialState
  {
    d := new DashboardState();
    d.FetchSummaryAsWritten(Err(SupabaseClient.NotConfigured), q, today, dayLabel);
  }

  /** Unconfigured credentials, corrected: the load ends and the configuration error is shown. */
  method UnconfiguredReportsError(q: QueryResults, today: int, dayLabel: int -> string) returns (d: DashboardState)
    ensures !d.loading && d.error == Some(ErrorPrefix + SupabaseClient.NotConfigured) && d.metrics == InitialState
  {
    d := new DashboardState();
    d.FetchSummary(Err(SupabaseClient.NotConfigured), q, today, dayLabel);
  }
}
