/** The read side of the analytics engine: the report for one alias (analyticsTopic,
    controller/apiController.js:157-179), the topic rollup (analyticsTopicById,
    controller/apiController.js:181-223) and the per-user rollup (analyticsOverall,
    controller/apiController.js:225-284). A rollup receives the short-URL records the
    database query returned, in the order it returned them, and the analytics store. */
module Rollups {
  import opened Records
  import opened Series
  import opened Tallies
  import opened Clicks

  /** Every stored record keeps the click invariants. */
  predicate AllConsistent(store: map<string, Analytics>) {
    forall k :: k in store ==> Consistent(store[k])
  }

  /** Body of the per-alias report. `uniqueClicks` is the number of listed visitors. */
  datatype AliasReport = AliasReport(
    totalClicks: nat,
    uniqueClicks: nat,
    clicksByDate: seq<DateBucket>,
    osType: seq<Tally>,
    deviceType: seq<Tally>)

  /** The report for one alias: 404 when the alias has no analytics record, otherwise the
      record with its visitor list replaced by the list's length. */
  function AnalyticsTopic(store: map<string, Analytics>, alias: string): (r: Outcome<AliasReport>)
    ensures r.Fail? <==> alias !in store
    ensures r.Fail? ==> r == Fail(404, "Analytics not found for the alias")
    ensures r.Ok? ==> r.value.totalClicks == store[alias].totalClicks
    ensures r.Ok? ==> r.value.uniqueClicks == |store[alias].uniqueClicks|
    ensures r.Ok? ==> r.value.clicksByDate == store[alias].clicksByDate
    ensures r.Ok? ==> r.value.osType == store[alias].osType && r.value.deviceType == store[alias].deviceType
  {
    if alias !in store then Fail(404, "Analytics not found for the alias")
    else
      var a := store[alias];
      Ok(AliasReport(a.totalClicks, |a.uniqueClicks|, a.clicksByDate, a.osType, a.deviceType))
  }

  /** A report on a consistent record is self-consistent: no more visitors than clicks, and
      the day buckets and each breakdown add up to the click total. */
  lemma ReportConsistent(store: map<string, Analytics>, alias: string)
    requires alias in store && Consistent(store[alias])
    ensures AnalyticsTopic(store, alias).Ok?
    ensures var rep := AnalyticsTopic(store, alias).value;
            && rep.uniqueClicks <= rep.totalClicks
            && Total(rep.clicksByDate) == rep.totalClicks
            && ClicksSum(rep.osType) == rep.totalClicks
            && ClicksSum(rep.deviceType) == rep.totalClicks
  {
  }

  /** After a click is recorded for an alias, its report exists and shows one more click
      than before (none before when it had no record), and one more visitor exactly when
      the click's address was not yet listed. */
  lemma ReportAfterClick(store: map<string, Analytics>, alias: string, ip: string, now: int, osName: string, deviceName: string)
    requires alias in store ==> store[alias].shortUrlAlias == alias && Consistent(store[alias])
    ensures var before := Loaded(store, alias);
            var rep := AnalyticsTopic(store[alias := Clicked(before, ip, now, osName, deviceName)], alias);
            && rep.Ok?
            && rep.value.totalClicks == (if alias in store then store[alias].totalClicks else 0) + 1
            && rep.value.uniqueClicks == |before.uniqueClicks| + (if ip in before.uniqueClicks then 0 else 1)
  {
  }

  /** The two breakdowns of a record. */
  datatype Category = Os | Device

  function Breakdown(a: Analytics, c: Category): seq<Tally> {
    if c == Os then a.osType else a.deviceType
  }

  /** A quantity a rollup adds up over aliases: the click total, the visitor count, the
      clicks of one day, one breakdown entry's `uniqueClicks` (Hits) or `uniqueUsers`, or
      1 for every alias that has a record (Tracked). */
  datatype Measure =
    | Tracked
    | TotalClicks
    | Visitors
    | OnDay(day: int)
    | Hits(category: Category, name: string)
    | Users(category: Category, name: string)

  /** The quantity `m` of one analytics record. */
  function Measured(a: Analytics, m: Measure): nat {
    match m
    case Tracked => 1
    case TotalClicks => a.totalClicks
    case Visitors => |a.uniqueClicks|
    case OnDay(d) => DayCount(a.clicksByDate, d)
    case Hits(c, n) => ClicksFor(Breakdown(a, c), n)
    case Users(c, n) => UsersFor(Breakdown(a, c), n)
  }

  /** What one short URL adds to a rollup: its record's quantity, or nothing when the alias
      has no analytics record. */
  function Contribution(store: map<string, Analytics>, u: ShortUrl, m: Measure): nat {
    if u.alias in store then Measured(store[u.alias], m) else 0
  }

  /** The quantity `m` summed over the short URLs `us`. Visitor counts are summed per alias,
      so an address that visited two aliases counts twice. */
  function SumOf(us: seq<ShortUrl>, store: map<string, Analytics>, m: Measure): nat {
    if us == [] then 0 else SumOf(us[..|us| - 1], store, m) + Contribution(store, us[|us| - 1], m)
  }

  /** Taking one short URL out of the list takes exactly its contribution out of the sum. */
  lemma {:induction false} SumOfRemove(us: seq<ShortUrl>, j: nat, store: map<string, Analytics>, m: Measure)
    requires j < |us|
    ensures SumOf(us, store, m) == SumOf(us[..j] + us[j + 1..], store, m) + Contribution(store, us[j], m)
  {
    var n := |us| - 1;
    if j == n {
      assert us[..j] + us[j + 1..] == us[..n];
    } else {
      var p := us[..n];
      SumOfRemove(p, j, store, m);
      assert us[..j] + us[j + 1..] == (p[..j] + p[j + 1..]) + [us[n]];
      assert (us[..j] + us[j + 1..])[..n - 1] == p[..j] + p[j + 1..];
    }
  }

  /** Removing the same element from two permutations of each other leaves permutations. */
  lemma RemoveFromBoth(us: seq<ShortUrl>, vs: seq<ShortUrl>, j: nat)
    requires us != [] && j < |vs| && vs[j] == us[|us| - 1]
    requires multiset(us) == multiset(vs)
    ensures multiset(us[..|us| - 1]) == multiset(vs[..j] + vs[j + 1..])
  {
    var x := vs[j];
    assert us == us[..|us| - 1] + [x];
    assert vs == vs[..j] + [x] + vs[j + 1..];
    assert multiset(vs[..j] + vs[j + 1..]) == multiset(vs[..j]) + multiset(vs[j + 1..]);
    var a, b := multiset(us[..|us| - 1]), multiset(vs[..j] + vs[j + 1..]);
    assert multiset(vs) == b + multiset{x};
    assert multiset(us) == a + multiset{x};
    assert a == (a + multiset{x}) - multiset{x};
    assert b == (b + multiset{x}) - multiset{x};
  }

  /** Rollup sums do not depend on the order in which the query returns the short URLs. */
  lemma {:induction false} SumOfPermutation(us: seq<ShortUrl>, vs: seq<ShortUrl>, store: map<string, Analytics>, m: Measure)
    requires multiset(us) == multiset(vs)
    ensures SumOf(us, store, m) == SumOf(vs, store, m)
  {
    if us == [] {
      assert |vs| == |multiset(vs)| == 0;
    } else {
      var x := us[|us| - 1];
      assert x in multiset(vs);
      var j :| 0 <= j < |vs| && vs[j] == x;
      RemoveFromBoth(us, vs, j);
      SumOfPermutation(us[..|us| - 1], vs[..j] + vs[j + 1..], store, m);
      SumOfRemove(vs, j, store, m);
    }
  }

  /** One entry of the topic report's `urls` list. */
  datatype UrlStat = UrlStat(shortUrl: string, totalClicks: nat, uniqueClicks: nat)

  /** The `urls` entry of a short URL whose alias has a record. */
  function StatOf(store: map<string, Analytics>, u: ShortUrl): UrlStat
    requires u.alias in store
  {
    UrlStat(u.shortUrl, store[u.alias].totalClicks, |store[u.alias].uniqueClicks|)
  }

  /** The `urls` list: one entry per short URL that has an analytics record, in query order. */
  function UrlStats(us: seq<ShortUrl>, store: map<string, Analytics>): (r: seq<UrlStat>)
    ensures |r| == SumOf(us, store, Tracked) <= |us|
  {
    if us == [] then []
    else
      var u := us[|us| - 1];
      var p := UrlStats(us[..|us| - 1], store);
      if u.alias in store then p + [StatOf(store, u)] else p
  }

  /** Every entry of the `urls` list belongs to a short URL of the query result that has a
      record, and every such short URL has its entry. */
  lemma {:induction false} UrlStatsEntries(us: seq<ShortUrl>, store: map<string, Analytics>)
    ensures forall s :: s in UrlStats(us, store) ==> exists u :: u in us && u.alias in store && s == StatOf(store, u)
    ensures forall u :: u in us && u.alias in store ==> StatOf(store, u) in UrlStats(us, store)
  {
    if us != [] {
      var p := us[..|us| - 1];
      var v := us[|us| - 1];
      UrlStatsEntries(p, store);
      assert us == p + [v];
      assert forall u :: u in p ==> u in us;
      forall u | u in us && u.alias in store
        ensures StatOf(store, u) in UrlStats(us, store)
      {
        if u != v {
          assert u in p;
        }
      }
    }
  }

  /** The `urls` list of a concatenation is the concatenation of the lists: entries follow
      the order of the query result. */
  lemma {:induction false} UrlStatsConcat(us: seq<ShortUrl>, vs: seq<ShortUrl>, store: map<string, Analytics>)
    ensures UrlStats(us + vs, store) == UrlStats(us, store) + UrlStats(vs, store)
  {
    if vs == [] {
      assert us + vs == us;
    } else {
      var p := vs[..|vs| - 1];
      var v := vs[|vs| - 1];
      var tail := if v.alias in store then [StatOf(store, v)] else [];
      UrlStatsConcat(us, p, store);
      assert (us + vs)[..|us + vs| - 1] == us + p && (us + vs)[|us + vs| - 1] == v;
      assert UrlStats(us + vs, store) == UrlStats(us + p, store) + tail;
      assert UrlStats(vs, store) == UrlStats(p, store) + tail;
    }
  }

  /** A single short URL has an entry exactly when its alias has a record. */
  lemma UrlStatsOne(u: ShortUrl, store: map<string, Analytics>)
    ensures UrlStats([u], store) == if u.alias in store then [StatOf(store, u)] else []
  {
    assert [u][..0] == [];
  }

  function StatClicks(s: seq<UrlStat>): nat {
    if s == [] then 0 else StatClicks(s[..|s| - 1]) + s[|s| - 1].totalClicks
  }

  function StatVisitors(s: seq<UrlStat>): nat {
    if s == [] then 0 else StatVisitors(s[..|s| - 1]) + s[|s| - 1].uniqueClicks
  }

  /** The per-URL subtotals of the topic report add up to its totals. */
  lemma {:induction false} UrlStatsAddUp(us: seq<ShortUrl>, store: map<string, Analytics>)
    ensures StatClicks(UrlStats(us, store)) == SumOf(us, store, TotalClicks)
    ensures StatVisitors(UrlStats(us, store)) == SumOf(us, store, Visitors)
  {
    if us != [] {
      var p := us[..|us| - 1];
      UrlStatsAddUp(p, store);
      var s := UrlStats(p, store);
      var u := us[|us| - 1];
      if u.alias in store {
        var t := s + [StatOf(store, u)];
        assert UrlStats(us, store) == t;
        assert t[..|t| - 1] == s;
      } else {
        assert UrlStats(us, store) == s;
      }
    }
  }

  lemma SumOfSnoc(us: seq<ShortUrl>, i: nat, store: map<string, Analytics>)
    requires i < |us|
    ensures forall m :: SumOf(us[..i + 1], store, m) == SumOf(us[..i], store, m) + Contribution(store, us[i], m)
  {
    assert us[..i + 1][..i] == us[..i];
  }

  /** Body of the topic report. */
  datatype TopicReport = TopicReport(
    totalClicks: nat,
    uniqueClicks: nat,
    clicksByDate: seq<DateBucket>,
    urls: seq<UrlStat>)

  /** analyticsTopicById over the short URLs of one topic: 404 exactly when the topic has no
      short URLs; otherwise totals over the aliases that have a record, their series merged
      day by day, and one `urls` entry per such alias. */
  method AnalyticsTopicById(shortUrls: seq<ShortUrl>, store: map<string, Analytics>) returns (r: Outcome<TopicReport>)
    ensures r.Fail? <==> shortUrls == []
    ensures r.Fail? ==> r == Fail(404, "No short URLs found for this topic")
    ensures r.Ok? ==> r.value.totalClicks == SumOf(shortUrls, store, TotalClicks)
    ensures r.Ok? ==> r.value.uniqueClicks == SumOf(shortUrls, store, Visitors)
    ensures r.Ok? ==> r.value.urls == UrlStats(shortUrls, store)
    ensures r.Ok? ==> forall d :: DayCount(r.value.clicksByDate, d) == SumOf(shortUrls, store, OnDay(d))
    ensures r.Ok? ==> DistinctDays(r.value.clicksByDate)
    ensures r.Ok? && AllConsistent(store) ==> Total(r.value.clicksByDate) == r.value.totalClicks
  {
    if |shortUrls| == 0 {
      return Fail(404, "No short URLs found for this topic");
    }
    var totalClicks, uniqueClicks := 0, 0;
    var clicksByDate: seq<DateBucket> := [];
    var urls: seq<UrlStat> := [];
    for i := 0 to |shortUrls|
      invariant totalClicks == SumOf(shortUrls[..i], store, TotalClicks)
      invariant uniqueClicks == SumOf(shortUrls[..i], store, Visitors)
      invariant urls == UrlStats(shortUrls[..i], store)
      invariant forall d :: DayCount(clicksByDate, d) == SumOf(shortUrls[..i], store, OnDay(d))
      invariant DistinctDays(clicksByDate)
      invariant AllConsistent(store) ==> Total(clicksByDate) == totalClicks
    {
      var url := shortUrls[i];
      SumOfSnoc(shortUrls, i, store);
      assert shortUrls[..i + 1][..i] == shortUrls[..i];
      if url.alias in store {
        var data := store[url.alias];
        totalClicks := totalClicks + data.totalClicks;
        uniqueClicks := uniqueClicks + |data.uniqueClicks|;
        clicksByDate := MergeClicksByDate(clicksByDate, data.clicksByDate);
        urls := urls + [StatOf(store, url)];
      }
    }
    assert shortUrls[..|shortUrls|] == shortUrls;
    r := Ok(TopicReport(totalClicks, uniqueClicks, clicksByDate, urls));
  }

  /** Body of the per-user report. */
  datatype OverallReport = OverallReport(
    totalUrls: nat,
    totalClicks: nat,
    uniqueClicks: nat,
    clicksByDate: seq<DateBucket>,
    osType: seq<Tally>,
    deviceType: seq<Tally>)

  /** `s` holds, day by day, the clicks of the short URLs `us`. */
  ghost predicate SeriesSums(s: seq<DateBucket>, us: seq<ShortUrl>, store: map<string, Analytics>) {
    forall d :: DayCount(s, d) == SumOf(us, store, OnDay(d))
  }

  /** `t` holds, name by name, both counters of breakdown `c` of the short URLs `us`. */
  ghost predicate TallySums(t: seq<Tally>, c: Category, us: seq<ShortUrl>, store: map<string, Analytics>) {
    forall n :: ClicksFor(t, n) == SumOf(us, store, Hits(c, n)) && UsersFor(t, n) == SumOf(us, store, Users(c, n))
  }

  /** The running totals of analyticsOverall after the short URLs `us`. */
  ghost predicate OverallSoFar(us: seq<ShortUrl>, store: map<string, Analytics>, totalClicks: nat, uniqueClicks: nat,
                               clicksByDate: seq<DateBucket>, osType: seq<Tally>, deviceType: seq<Tally>)
  {
    && totalClicks == SumOf(us, store, TotalClicks)
    && uniqueClicks == SumOf(us, store, Visitors)
    && SeriesSums(clicksByDate, us, store)
    && TallySums(osType, Os, us, store)
    && TallySums(deviceType, Device, us, store)
    && DistinctDays(clicksByDate) && DistinctNames(osType) && DistinctNames(deviceType)
    && (AllConsistent(store) ==>
          && Total(clicksByDate) == totalClicks
          && ClicksSum(osType) == totalClicks && ClicksSum(deviceType) == totalClicks
          && Balanced(osType) && Balanced(deviceType))
  }

  /** Folding in the short URL `us[i]`, with the merges' own guarantees, keeps OverallSoFar. */
  lemma OverallStep(us: seq<ShortUrl>, i: nat, store: map<string, Analytics>,
                    total: nat, unique: nat, series: seq<DateBucket>, os: seq<Tally>, device: seq<Tally>,
                    total': nat, unique': nat, series': seq<DateBucket>, os': seq<Tally>, device': seq<Tally>)
    requires i < |us| && OverallSoFar(us[..i], store, total, unique, series, os, device)
    requires us[i].alias !in store ==> total' == total && unique' == unique && series' == series && os' == os && device' == device
    requires us[i].alias in store ==>
               var a := store[us[i].alias];
               && total' == total + a.totalClicks
               && unique' == unique + |a.uniqueClicks|
               && (forall d :: DayCount(series', d) == DayCount(series, d) + DayCount(a.clicksByDate, d))
               && Total(series') == Total(series) + Total(a.clicksByDate)
               && (DistinctDays(series) ==> DistinctDays(series'))
               && MergedFrom(os', os, a.osType) && (DistinctNames(os) ==> DistinctNames(os'))
               && (Balanced(os) && Balanced(a.osType) ==> Balanced(os'))
               && MergedFrom(device', device, a.deviceType) && (DistinctNames(device) ==> DistinctNames(device'))
               && (Balanced(device) && Balanced(a.deviceType) ==> Balanced(device'))
    ensures OverallSoFar(us[..i + 1], store, total', unique', series', os', device')
  {
    SumOfSnoc(us, i, store);
  }

  /** analyticsOverall over the short URLs of one user: 404 exactly when the user has none;
      otherwise `totalUrls` counts every one of them, and the totals, series and breakdowns
      are summed over those that have a record, breakdowns merged by name. */
  method AnalyticsOverall(shortUrls: seq<ShortUrl>, store: map<string, Analytics>) returns (r: Outcome<OverallReport>)
    ensures r.Fail? <==> shortUrls == []
    ensures r.Fail? ==> r == Fail(404, "No short URLs found for the user")
    ensures r.Ok? ==> r.value.totalUrls == |shortUrls|
    ensures r.Ok? ==> r.value.totalClicks == SumOf(shortUrls, store, TotalClicks)
    ensures r.Ok? ==> r.value.uniqueClicks == SumOf(shortUrls, store, Visitors)
    ensures r.Ok? ==> forall d :: DayCount(r.value.clicksByDate, d) == SumOf(shortUrls, store, OnDay(d))
    ensures r.Ok? ==> forall n :: ClicksFor(r.value.osType, n) == SumOf(shortUrls, store, Hits(Os, n))
    ensures r.Ok? ==> forall n :: UsersFor(r.value.osType, n) == SumOf(shortUrls, store, Users(Os, n))
    ensures r.Ok? ==> forall n :: ClicksFor(r.value.deviceType, n) == SumOf(shortUrls, store, Hits(Device, n))
    ensures r.Ok? ==> forall n :: UsersFor(r.value.deviceType, n) == SumOf(shortUrls, store, Users(Device, n))
    ensures r.Ok? ==> DistinctDays(r.value.clicksByDate)
    ensures r.Ok? ==> DistinctNames(r.value.osType) && DistinctNames(r.value.deviceType)
    ensures r.Ok? && AllConsistent(store) ==>
              && Total(r.value.clicksByDate) == r.value.totalClicks
              && ClicksSum(r.value.osType) == r.value.totalClicks
              && ClicksSum(r.value.deviceType) == r.value.totalClicks
              && Balanced(r.value.osType) && Balanced(r.value.deviceType)
  {
    if |shortUrls| == 0 {
      return Fail(404, "No short URLs found for the user");
    }
    var totalClicks: nat, uniqueClicks: nat := 0, 0;
    var clicksByDate: seq<DateBucket> := [];
    var osType: seq<Tally> := [];
    var deviceType: seq<Tally> := [];
    for i := 0 to |shortUrls|
      invariant OverallSoFar(shortUrls[..i], store, totalClicks, uniqueClicks, clicksByDate, osType, deviceType)
    {
      var url := shortUrls[i];
      ghost var (total, unique, series, os, device) := (totalClicks, uniqueClicks, clicksByDate, osType, deviceType);
      if url.alias in store {
        var data := store[url.alias];
        totalClicks := totalClicks + data.totalClicks;
        uniqueClicks := uniqueClicks + |data.uniqueClicks|;
        clicksByDate := MergeClicksByDate(clicksByDate, data.clicksByDate);
        osType := MergeTallies(osType, data.osType);
        deviceType := MergeTallies(deviceType, data.deviceType);
      }
      OverallStep(shortUrls, i, store, total, unique, series, os, device,
                  totalClicks, uniqueClicks, clicksByDate, osType, deviceType);
    }
    assert shortUrls[..|shortUrls|] == shortUrls;
    r := Ok(OverallReport(|shortUrls|, totalClicks, uniqueClicks, clicksByDate, osType, deviceType));
  }
}
