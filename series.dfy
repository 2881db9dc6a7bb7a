/** The per-day click series `clicksByDate`: the find-or-append step a click
    applies to it (controller/apiController.js:120-125) and mergeClicksByDate
    (controller/apiController.js:291-302), which repeats that step for every
    bucket of another series. */
module Series {
  import opened Records

  /** The UTC day a bucket counts. */
  function Day(b: DateBucket): int {
    DayOf(b.date)
  }

  /** The days that have a bucket. */
  function Days(s: seq<DateBucket>): set<int> {
    set b | b in s :: Day(b)
  }

  /** The bucket timestamps, in order. */
  function Dates(s: seq<DateBucket>): seq<int> {
    seq(|s|, i requires 0 <= i < |s| => s[i].date)
  }

  /** At most one bucket per day. */
  predicate DistinctDays(s: seq<DateBucket>) {
    forall i, j :: 0 <= i < j < |s| ==> Day(s[i]) != Day(s[j])
  }

  /** The clicks the series holds for `day`: the series seen as a day-to-count map. */
  function DayCount(s: seq<DateBucket>, day: int): nat {
    if s == [] then 0
    else DayCount(s[..|s| - 1], day) + (if Day(s[|s| - 1]) == day then s[|s| - 1].clickCount else 0)
  }

  /** The sum of all bucket counts. */
  function Total(s: seq<DateBucket>): nat {
    if s == [] then 0 else Total(s[..|s| - 1]) + s[|s| - 1].clickCount
  }

  /** The index of the first bucket for `day`, as Array.prototype.find locates it. */
  function FindDay(s: seq<DateBucket>, day: int): (r: Option<nat>)
    ensures r.Some? ==> r.value < |s| && Day(s[r.value]) == day
    ensures r.Some? ==> forall j :: 0 <= j < r.value ==> Day(s[j]) != day
    ensures r.None? <==> day !in Days(s)
  {
    if s == [] then None
    else if Day(s[0]) == day then Some(0)
    else
      assert Days(s) == {Day(s[0])} + Days(s[1..]) by {
        assert s == [s[0]] + s[1..];
      }
      match FindDay(s[1..], day)
      case None => None
      case Some(k) => Some(k + 1)
  }

  /** Adds bucket `b` to the series: the first bucket on b's day gains b's count, or,
      when no bucket has that day, `b` is appended. */
  function Accumulate(s: seq<DateBucket>, b: DateBucket): (r: seq<DateBucket>)
    ensures Day(b) !in Days(s) ==> r == s + [b]
    ensures Day(b) in Days(s) ==> |r| == |s|
    ensures Day(b) in Days(s) ==>
      exists i :: 0 <= i < |s| && Day(s[i]) == Day(b) && r == s[i := DateBucket(s[i].date, s[i].clickCount + b.clickCount)]
    ensures Dates(r) == Dates(s) + (if Day(b) in Days(s) then [] else [b.date])
    ensures Days(r) == Days(s) + {Day(b)}
    ensures DistinctDays(s) ==> DistinctDays(r)
  {
    match FindDay(s, Day(b))
    case Some(i) =>
      var r := s[i := DateBucket(s[i].date, s[i].clickCount + b.clickCount)];
      assert Days(r) == Days(s) by {
        forall x | x in Days(s) ensures x in Days(r) {
          var j :| 0 <= j < |s| && Day(s[j]) == x;
          assert Day(r[j]) == x;
        }
      }
      r
    case None => s + [b]
  }

  /** The bucket Accumulate raises is the first one on b's day, as `find` picks it. */
  lemma AccumulateRaisesFirst(s: seq<DateBucket>, b: DateBucket)
    requires Day(b) in Days(s)
    ensures exists i :: 0 <= i < |s| && Day(s[i]) == Day(b) && (forall j :: 0 <= j < i ==> Day(s[j]) != Day(b))
                        && Accumulate(s, b) == s[i := DateBucket(s[i].date, s[i].clickCount + b.clickCount)]
  {
    var i := FindDay(s, Day(b)).value;
    assert Accumulate(s, b) == s[i := DateBucket(s[i].date, s[i].clickCount + b.clickCount)];
  }

  /** Raising one bucket's count by `c` raises the total and that bucket's day by `c`. */
  lemma {:induction false} RaiseAt(s: seq<DateBucket>, i: nat, c: nat)
    requires i < |s|
    ensures Total(s[i := DateBucket(s[i].date, s[i].clickCount + c)]) == Total(s) + c
    ensures forall d :: DayCount(s[i := DateBucket(s[i].date, s[i].clickCount + c)], d) ==
                        DayCount(s, d) + (if Day(s[i]) == d then c else 0)
  {
    var t := s[i := DateBucket(s[i].date, s[i].clickCount + c)];
    if i < |s| - 1 {
      var p := s[..|s| - 1];
      assert t[..|t| - 1] == p[i := DateBucket(p[i].date, p[i].clickCount + c)];
      RaiseAt(p, i, c);
    } else {
      assert t[..|t| - 1] == s[..|s| - 1];
    }
  }

  /** Accumulating `b` adds its count to its own day and to the total, and to nothing else. */
  lemma AccumulateCounts(s: seq<DateBucket>, b: DateBucket)
    ensures Total(Accumulate(s, b)) == Total(s) + b.clickCount
    ensures forall d :: DayCount(Accumulate(s, b), d) == DayCount(s, d) + (if Day(b) == d then b.clickCount else 0)
  {
    match FindDay(s, Day(b))
    case Some(i) => RaiseAt(s, i, b.clickCount);
    case None => assert (s + [b])[..|s|] == s;
  }

  lemma DaysSnoc(s: seq<DateBucket>, b: DateBucket)
    ensures Days(s + [b]) == Days(s) + {Day(b)}
  {
  }

  /** Dates of the buckets mergeClicksByDate appends: the first bucket of every day of
      `incoming` that neither `existing` nor an earlier bucket of `incoming` has, in the
      order of `incoming`. */
  function AppendedDates(existing: seq<DateBucket>, incoming: seq<DateBucket>): seq<int> {
    if incoming == [] then []
    else
      var prior := incoming[..|incoming| - 1];
      var b := incoming[|incoming| - 1];
      AppendedDates(existing, prior) + (if Day(b) in Days(existing) + Days(prior) then [] else [b.date])
  }

  /** Accumulating the next bucket of `incoming` extends the appended dates exactly as
      AppendedDates prescribes. */
  lemma AccumulateAppends(existing: seq<DateBucket>, prior: seq<DateBucket>, merged: seq<DateBucket>, b: DateBucket)
    requires Days(merged) == Days(existing) + Days(prior)
    requires Dates(merged) == Dates(existing) + AppendedDates(existing, prior)
    ensures Dates(Accumulate(merged, b)) == Dates(existing) + AppendedDates(existing, prior + [b])
  {
    assert (prior + [b])[..|prior|] == prior;
  }

  /** `merged` is `existing` with the buckets of `added` accumulated into it in order. */
  ghost predicate MergedByDay(merged: seq<DateBucket>, existing: seq<DateBucket>, added: seq<DateBucket>) {
    && (forall d :: DayCount(merged, d) == DayCount(existing, d) + DayCount(added, d))
    && Days(merged) == Days(existing) + Days(added)
    && Total(merged) == Total(existing) + Total(added)
    && Dates(merged) == Dates(existing) + AppendedDates(existing, added)
  }

  /** Accumulating one more bucket keeps MergedByDay. */
  lemma MergeDayStep(merged: seq<DateBucket>, existing: seq<DateBucket>, added: seq<DateBucket>, b: DateBucket)
    requires MergedByDay(merged, existing, added)
    ensures MergedByDay(Accumulate(merged, b), existing, added + [b])
  {
    assert (added + [b])[..|added|] == added;
    DaysSnoc(added, b);
    AccumulateAppends(existing, added, merged, b);
    AccumulateCounts(merged, b);
  }

  /** mergeClicksByDate: adds every bucket of `incoming` into `existing`, day by day.
      As day-to-count maps the result is the pointwise sum of the inputs; the buckets of
      `existing` keep their places and new days are appended in the order of `incoming`. */
  method MergeClicksByDate(existing: seq<DateBucket>, incoming: seq<DateBucket>) returns (merged: seq<DateBucket>)
    ensures forall d :: DayCount(merged, d) == DayCount(existing, d) + DayCount(incoming, d)
    ensures Days(merged) == Days(existing) + Days(incoming)
    ensures Total(merged) == Total(existing) + Total(incoming)
    ensures Dates(merged) == Dates(existing) + AppendedDates(existing, incoming)
    ensures DistinctDays(existing) ==> DistinctDays(merged)
    ensures incoming == [] ==> merged == existing
  {
    merged := existing;
    for k := 0 to |incoming|
      invariant MergedByDay(merged, existing, incoming[..k])
      invariant DistinctDays(existing) ==> DistinctDays(merged)
      invariant k == 0 ==> merged == existing
    {
      var b := incoming[k];
      assert incoming[..k + 1] == incoming[..k] + [b];
      MergeDayStep(merged, existing, incoming[..k], b);
      merged := Accumulate(merged, b);
    }
    assert incoming[..|incoming|] == incoming;
  }
}
