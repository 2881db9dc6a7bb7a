/** What one recorded click does to an alias's analytics record
    (controller/apiController.js:94-149), and the invariants the record keeps. */
module Clicks {
  import opened Records
  import opened Series
  import opened Tallies

  /** No visitor is listed twice. */
  predicate NoDups(s: seq<string>) {
    forall i, j :: 0 <= i < j < |s| ==> s[i] != s[j]
  }

  /** `Array.from(new Set(s))`: the first occurrence of every element, in order. */
  function Dedup(s: seq<string>): (r: seq<string>)
    ensures NoDups(r)
    ensures forall x :: x in r <==> x in s
    ensures NoDups(s) ==> r == s
  {
    if s == [] then []
    else
      var p := s[..|s| - 1];
      assert s == p + [s[|s| - 1]];
      var d := Dedup(p);
      if s[|s| - 1] in d then d else d + [s[|s| - 1]]
  }

  /** The visitor list after a click from `ip`: unchanged when `ip` is listed, otherwise
      rebuilt through a Set with `ip` added at the end. */
  function AddVisitor(ips: seq<string>, ip: string): (r: seq<string>)
    ensures forall x :: x in r <==> x in ips || x == ip
    ensures ip in ips ==> r == ips
    ensures NoDups(ips) ==> NoDups(r) && |r| <= |ips| + 1
    ensures NoDups(ips) && ip !in ips ==> r == ips + [ip]
  {
    if ip in ips then ips else Dedup(ips) + [ip]
  }

  /** The invariants every stored analytics record keeps. */
  predicate Consistent(a: Analytics) {
    && |a.uniqueClicks| <= a.totalClicks
    && NoDups(a.uniqueClicks)
    && DistinctDays(a.clicksByDate) && Total(a.clicksByDate) == a.totalClicks
    && DistinctNames(a.osType) && Balanced(a.osType) && ClicksSum(a.osType) == a.totalClicks
    && DistinctNames(a.deviceType) && Balanced(a.deviceType) && ClicksSum(a.deviceType) == a.totalClicks
  }

  /** The record created on an alias's first recorded click. */
  function NewAnalytics(alias: string): (a: Analytics)
    ensures a.shortUrlAlias == alias && a.totalClicks == 0 && a.uniqueClicks == []
    ensures a.clicksByDate == [] && a.osType == [] && a.deviceType == []
    ensures Consistent(a)
  {
    Analytics(alias, 0, [], [], [], [])
  }

  /** The record a click loads: the stored one, or a fresh one. */
  function Loaded(store: map<string, Analytics>, alias: string): Analytics {
    if alias in store then store[alias] else NewAnalytics(alias)
  }

  /** The record after one click from `ip` at time `now` (milliseconds), from a client the
      user-agent parser classifies as `osName` on `deviceName`. */
  function Clicked(a: Analytics, ip: string, now: int, osName: string, deviceName: string): Analytics {
    a.(totalClicks := a.totalClicks + 1,
       uniqueClicks := AddVisitor(a.uniqueClicks, ip),
       clicksByDate := Accumulate(a.clicksByDate, DateBucket(now, 1)),
       osType := AddTally(a.osType, Tally(osName, 1, 1)),
       deviceType := AddTally(a.deviceType, Tally(deviceName, 1, 1)))
  }

  /** The click as the handler applies it, field by field, to the loaded record. */
  method RecordClick(a: Analytics, ip: string, now: int, osName: string, deviceName: string) returns (data: Analytics)
    ensures data == Clicked(a, ip, now, osName, deviceName)
    ensures data.shortUrlAlias == a.shortUrlAlias
  {
    data := a.(totalClicks := a.totalClicks + 1);
    if ip !in data.uniqueClicks {
      data := data.(uniqueClicks := Dedup(data.uniqueClicks) + [ip]);
    }
    data := data.(clicksByDate := Accumulate(data.clicksByDate, DateBucket(now, 1)));
    data := data.(osType := AddTally(data.osType, Tally(osName, 1, 1)));
    data := data.(deviceType := AddTally(data.deviceType, Tally(deviceName, 1, 1)));
  }

  /** One click adds one to the total, to today's bucket and to the click's OS and device
      entries (both counters), and to nothing else; the visitor list gains `ip` only. */
  lemma ClickCounts(a: Analytics, ip: string, now: int, osName: string, deviceName: string)
    ensures Clicked(a, ip, now, osName, deviceName).totalClicks == a.totalClicks + 1
    ensures forall x :: x in Clicked(a, ip, now, osName, deviceName).uniqueClicks <==> x in a.uniqueClicks || x == ip
    ensures forall d :: DayCount(Clicked(a, ip, now, osName, deviceName).clicksByDate, d) ==
                        DayCount(a.clicksByDate, d) + (if d == DayOf(now) then 1 else 0)
    ensures forall n :: ClicksFor(Clicked(a, ip, now, osName, deviceName).osType, n) ==
                        ClicksFor(a.osType, n) + (if n == osName then 1 else 0)
    ensures forall n :: UsersFor(Clicked(a, ip, now, osName, deviceName).osType, n) ==
                        UsersFor(a.osType, n) + (if n == osName then 1 else 0)
    ensures forall n :: ClicksFor(Clicked(a, ip, now, osName, deviceName).deviceType, n) ==
                        ClicksFor(a.deviceType, n) + (if n == deviceName then 1 else 0)
    ensures forall n :: UsersFor(Clicked(a, ip, now, osName, deviceName).deviceType, n) ==
                        UsersFor(a.deviceType, n) + (if n == deviceName then 1 else 0)
  {
    var r := Clicked(a, ip, now, osName, deviceName);
    AccumulateCounts(a.clicksByDate, DateBucket(now, 1));
    assert r.clicksByDate == Accumulate(a.clicksByDate, DateBucket(now, 1));
    AddTallyCounts(a.osType, Tally(osName, 1, 1));
    assert r.osType == AddTally(a.osType, Tally(osName, 1, 1));
    AddTallyCounts(a.deviceType, Tally(deviceName, 1, 1));
    assert r.deviceType == AddTally(a.deviceType, Tally(deviceName, 1, 1));
  }

  /** A click keeps a consistent record consistent: the bucket counts and each breakdown
      still sum to the total, there is still one bucket per day and one entry per name,
      and the visitor list stays duplicate-free and no longer than the total. */
  lemma ClickKeepsConsistent(a: Analytics, ip: string, now: int, osName: string, deviceName: string)
    requires Consistent(a)
    ensures Consistent(Clicked(a, ip, now, osName, deviceName))
  {
    AccumulateCounts(a.clicksByDate, DateBucket(now, 1));
    AddTallyCounts(a.osType, Tally(osName, 1, 1));
    AddTallyCounts(a.deviceType, Tally(deviceName, 1, 1));
  }

  /** A click on the day of a single-bucket series raises that bucket. */
  lemma SameDayBucket(date: int, c: nat, now: int)
    requires DayOf(now) == DayOf(date)
    ensures Accumulate([DateBucket(date, c)], DateBucket(now, 1)) == [DateBucket(date, c + 1)]
  {
    assert Day(DateBucket(date, c)) in Days([DateBucket(date, c)]);
  }

  /** A hit on the name of a single-entry breakdown raises both its counters. */
  lemma SameNameTally(name: string, c: nat)
    ensures AddTally([Tally(name, c, c)], Tally(name, 1, 1)) == [Tally(name, c + 1, c + 1)]
  {
    assert Names([Tally(name, c, c)]) == {name};
  }

  /** Three clicks on alias "ab12" on one UTC day (2025-01-01) from two addresses, all from
      Windows desktops: three clicks, two visitors, one day bucket of three, one OS entry. */
  lemma ThreeClicksOneDay()
    ensures var t := 1735689600000;
            var a1 := Clicked(NewAnalytics("ab12"), "10.0.0.1", t, "Windows", "Other");
            var a2 := Clicked(a1, "10.0.0.2", t + 3600000, "Windows", "Other");
            var a3 := Clicked(a2, "10.0.0.1", t + 7200000, "Windows", "Other");
            && a3.totalClicks == 3
            && a3.uniqueClicks == ["10.0.0.1", "10.0.0.2"]
            && a3.clicksByDate == [DateBucket(t, 3)]
            && a3.osType == [Tally("Windows", 3, 3)]
            && a3.deviceType == [Tally("Other", 3, 3)]
  {
    var t := 1735689600000;
    var a1 := Clicked(NewAnalytics("ab12"), "10.0.0.1", t, "Windows", "Other");
    assert a1 == Analytics("ab12", 1, ["10.0.0.1"], [DateBucket(t, 1)], [Tally("Windows", 1, 1)], [Tally("Other", 1, 1)]);
    SameDayBucket(t, 1, t + 3600000);
    SameNameTally("Windows", 1);
    SameNameTally("Other", 1);
    var a2 := Clicked(a1, "10.0.0.2", t + 3600000, "Windows", "Other");
    assert a2 == Analytics("ab12", 2, ["10.0.0.1", "10.0.0.2"], [DateBucket(t, 2)], [Tally("Windows", 2, 2)], [Tally("Other", 2, 2)]);
    SameDayBucket(t, 2, t + 7200000);
    SameNameTally("Windows", 2);
    SameNameTally("Other", 2);
  }
}
