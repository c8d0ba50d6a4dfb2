// Missing-date detection over a company's news report (data/news/omission_news.py):
// every day of an inclusive date range for which no report item carries a
// pubDate starting with that day's YYYY-MM-DD rendering.

module OmissionNews {
  import opened Wrappers
  import opened Calendar
  import opened Frames

  /** One value of report.json, reduced to its pubDate field when the item has one. */
  datatype ReportItem = ReportItem(pubDate: Option<string>)

  /** s[:10]: the first ten characters, or all of s when it is shorter. */
  function Prefix10(s: string): (p: string)
    ensures |p| == if |s| < 10 then |s| else 10
    ensures p == s[..|p|]
  {
    s[..if |s| < 10 then |s| else 10]
  }

  /** 'pubDate' in item and day == item['pubDate'][:10]. */
  predicate Covers(item: ReportItem, day: string) {
    item.pubDate.Some? && day == Prefix10(item.pubDate.value)
  }

  /** Some item of the report covers the day. */
  predicate Covered(report: seq<ReportItem>, day: string) {
    exists i :: 0 <= i < |report| && Covers(report[i], day)
  }

  /** An item without pubDate covers no day. */
  lemma NoPubDateCoversNothing(report: seq<ReportItem>, day: string)
    requires forall i :: 0 <= i < |report| ==> report[i].pubDate.None?
    ensures !Covered(report, day)
  {
  }

  predicate AllValid(ds: seq<Date>) {
    forall i :: 0 <= i < |ds| ==> Valid(ds[i])
  }

  /** pd.date_range(start, end): every day from start to end, both included, one day apart. */
  function DaysFrom(start: Date, end: Date): (ds: seq<Date>)
    requires Valid(start) && Valid(end)
    ensures AllValid(ds)
    decreases Ordinal(end) - Ordinal(start)
  {
    if Ordinal(start) > Ordinal(end) then []
    else if Ordinal(start) == Ordinal(end) then [start]
    else
      BeforeValidHasNext(start, end);
      [start] + DaysFrom(NextDay(start), end)
  }

  /** The range has one day per day number from start to end, the i-th numbered start + i. */
  lemma {:induction false} DaysFromNumbers(start: Date, end: Date)
    requires Valid(start) && Valid(end)
    ensures |DaysFrom(start, end)| == if Ordinal(start) <= Ordinal(end) then Ordinal(end) - Ordinal(start) + 1 else 0
    ensures forall i :: 0 <= i < |DaysFrom(start, end)| ==> Ordinal(DaysFrom(start, end)[i]) == Ordinal(start) + i
    decreases Ordinal(end) - Ordinal(start)
  {
    if Ordinal(start) < Ordinal(end) {
      BeforeValidHasNext(start, end);
      DaysFromNumbers(NextDay(start), end);
    }
  }

  /** Every valid day between start and end occurs in the range. */
  lemma DaysFromComplete(start: Date, end: Date, d: Date)
    requires Valid(start) && Valid(end) && Valid(d)
    requires Ordinal(start) <= Ordinal(d) <= Ordinal(end)
    ensures d in DaysFrom(start, end)
  {
    var ds := DaysFrom(start, end);
    DaysFromNumbers(start, end);
    var i := Ordinal(d) - Ordinal(start);
    OrdinalInjective(ds[i], d);
  }

  /** date.strftime('%Y-%m-%d') for the valid days the range holds. */
  function DayText(d: Date): string {
    if Valid(d) then Format(d) else ""
  }

  /** The days of ds that no item covers, in the order of ds. */
  function MissingDays(report: seq<ReportItem>, ds: seq<Date>): seq<Date> {
    Filter(ds, (d: Date) => !Covered(report, DayText(d)))
  }

  /** The rendering of each day. */
  function Formats(ds: seq<Date>): seq<string> {
    MapSeq(ds, DayText)
  }

  /**
   * find_missing_dates: for each day of pd.date_range in turn, look for an item
   * whose pubDate starts with the day; append the day's rendering when none
   * does. A report file that does not exist (None) gives the empty list.
   */
  method FindMissingDates(report: Option<seq<ReportItem>>, start: Date, end: Date) returns (missing: seq<string>)
    requires Valid(start) && Valid(end)
    ensures report.None? ==> missing == []
    ensures report.Some? ==> missing == Formats(MissingDays(report.value, DaysFrom(start, end)))
  {
    missing := [];
    if report.Some? {
      var items := report.value;
      var days := DaysFrom(start, end);
      for k := 0 to |days|
        invariant missing == Formats(MissingDays(items, days[..k]))
      {
        var day := Format(days[k]);
        var found := AnyCovers(items, day);
        if !found {
          missing := missing + [day];
        }
        FilterMapPrefix(days, k, (d: Date) => !Covered(items, DayText(d)), DayText);
      }
      assert days[..|days|] == days;
    }
  }

  /** The inner loop: scan the items until one covers the day. */
  method AnyCovers(items: seq<ReportItem>, day: string) returns (found: bool)
    ensures found == Covered(items, day)
  {
    found := false;
    var j := 0;
    while j < |items| && !found
      invariant 0 <= j <= |items|
      invariant found <==> exists i :: 0 <= i < j && Covers(items[i], day)
    {
      if items[j].pubDate.Some? && day == Prefix10(items[j].pubDate.value) {
        found := true;
      }
      j := j + 1;
    }
  }

  /** The days of the range are exactly the valid days from start to end. */
  lemma DaysFromIff(start: Date, end: Date, d: Date)
    requires Valid(start) && Valid(end)
    ensures d in DaysFrom(start, end) <==> Valid(d) && Ordinal(start) <= Ordinal(d) <= Ordinal(end)
  {
    var ds := DaysFrom(start, end);
    if d in ds {
      DaysFromNumbers(start, end);
      var i :| 0 <= i < |ds| && ds[i] == d;
    }
    if Valid(d) && Ordinal(start) <= Ordinal(d) <= Ordinal(end) {
      DaysFromComplete(start, end, d);
    }
  }

  /**
   * What the loop promises: a string is returned exactly when it renders a
   * day of the range (see DaysFromIff) that no item covers.
   */
  lemma MissingIff(report: seq<ReportItem>, start: Date, end: Date, s: string)
    requires Valid(start) && Valid(end)
    ensures s in Formats(MissingDays(report, DaysFrom(start, end))) <==>
      exists d :: d in DaysFrom(start, end) && s == Format(d) && !Covered(report, s)
  {
    var ds := DaysFrom(start, end);
    FilterMapMember(ds, (d: Date) => !Covered(report, DayText(d)), DayText, s);
  }

  /** Two valid days in order render as two dates that parse back in that order. */
  lemma RenderedInOrder(a: Date, b: Date)
    requires Valid(a) && Valid(b) && Ordinal(a) < Ordinal(b)
    ensures ParseIso(DayText(a)).Some? && ParseIso(DayText(b)).Some?
    ensures Ordinal(ParseIso(DayText(a)).value) < Ordinal(ParseIso(DayText(b)).value)
    ensures DayText(a) != DayText(b)
  {
    FormatRoundTrip(a);
    FormatRoundTrip(b);
  }

  /** The returned strings are ascending as dates and so pairwise different. */
  lemma MissingAscending(report: seq<ReportItem>, start: Date, end: Date)
    requires Valid(start) && Valid(end)
    ensures var out := Formats(MissingDays(report, DaysFrom(start, end)));
      forall i, j :: 0 <= i < j < |out| ==>
        ParseIso(out[i]).Some? && ParseIso(out[j]).Some?
        && Ordinal(ParseIso(out[i]).value) < Ordinal(ParseIso(out[j]).value)
        && out[i] != out[j]
  {
    var ds := DaysFrom(start, end);
    var p := (d: Date) => !Covered(report, DayText(d));
    DaysFromNumbers(start, end);
    assert StrictlyBy(ds, Ordinal);
    FilterStrict(ds, p, Ordinal);
    var m := MissingDays(report, ds);
    forall i | 0 <= i < |m| ensures Valid(m[i]) {
      FilterMember(ds, p, m[i]);
    }
    var out := Formats(m);
    forall i, j | 0 <= i < j < |out|
      ensures ParseIso(out[i]).Some? && ParseIso(out[j]).Some?
        && Ordinal(ParseIso(out[i]).value) < Ordinal(ParseIso(out[j]).value)
        && out[i] != out[j]
    {
      RenderedInOrder(m[i], m[j]);
    }
  }
}
