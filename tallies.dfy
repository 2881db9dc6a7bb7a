/** The per-category breakdowns `osType` and `deviceType`: the find-or-append step a
    click applies to each (controller/apiController.js:127-149) and the merge by name
    that analyticsOverall applies across aliases (controller/apiController.js:250-268). */
module Tallies {
  import opened Records

  /** The category names that have an entry. */
  function Names(s: seq<Tally>): set<string> {
    set t | t in s :: t.name
  }

  /** At most one entry per name. */
  predicate DistinctNames(s: seq<Tally>) {
    forall i, j :: 0 <= i < j < |s| ==> s[i].name != s[j].name
  }

  /** Every entry's two counters agree, as they do when each hit raises both. */
  predicate Balanced(s: seq<Tally>) {
    forall t :: t in s ==> t.uniqueClicks == t.uniqueUsers
  }

  /** The `uniqueClicks` the breakdown holds for `name`: the breakdown seen as a name-to-count map. */
  function ClicksFor(s: seq<Tally>, name: string): nat {
    if s == [] then 0
    else ClicksFor(s[..|s| - 1], name) + (if s[|s| - 1].name == name then s[|s| - 1].uniqueClicks else 0)
  }

  /** The `uniqueUsers` the breakdown holds for `name`. */
  function UsersFor(s: seq<Tally>, name: string): nat {
    if s == [] then 0
    else UsersFor(s[..|s| - 1], name) + (if s[|s| - 1].name == name then s[|s| - 1].uniqueUsers else 0)
  }

  /** The sum of all entries' `uniqueClicks`. */
  function ClicksSum(s: seq<Tally>): nat {
    if s == [] then 0 else ClicksSum(s[..|s| - 1]) + s[|s| - 1].uniqueClicks
  }

  /** The index of the first entry named `name`, as Array.prototype.find locates it. */
  function FindName(s: seq<Tally>, name: string): (r: Option<nat>)
    ensures r.Some? ==> r.value < |s| && s[r.value].name == name
    ensures r.Some? ==> forall j :: 0 <= j < r.value ==> s[j].name != name
    ensures r.None? <==> name !in Names(s)
  {
    if s == [] then None
    else if s[0].name == name then Some(0)
    else
      assert Names(s) == {s[0].name} + Names(s[1..]) by {
        assert s == [s[0]] + s[1..];
      }
      match FindName(s[1..], name)
      case None => None
      case Some(k) => Some(k + 1)
  }

  /** The entry at `i` with `t`'s counters added to its own. */
  function Raised(s: seq<Tally>, i: nat, t: Tally): seq<Tally>
    requires i < |s|
  {
    s[i := Tally(s[i].name, s[i].uniqueClicks + t.uniqueClicks, s[i].uniqueUsers + t.uniqueUsers)]
  }

  /** Adds entry `t` to the breakdown: the first entry with t's name gains both of t's
      counters, or, when no entry has that name, `t` is appended. */
  function AddTally(s: seq<Tally>, t: Tally): (r: seq<Tally>)
    ensures t.name !in Names(s) ==> r == s + [t]
    ensures t.name in Names(s) ==> |r| == |s|
    ensures t.name in Names(s) ==> exists i :: 0 <= i < |s| && s[i].name == t.name && r == Raised(s, i, t)
    ensures Names(r) == Names(s) + {t.name}
    ensures DistinctNames(s) ==> DistinctNames(r)
    ensures Balanced(s) && t.uniqueClicks == t.uniqueUsers ==> Balanced(r)
  {
    match FindName(s, t.name)
    case Some(i) =>
      var r := Raised(s, i, t);
      assert Names(r) == Names(s) by {
        forall x | x in Names(s) ensures x in Names(r) {
          var j :| 0 <= j < |s| && s[j].name == x;
          assert r[j].name == x;
        }
      }
      r
    case None => s + [t]
  }

  /** The entry AddTally raises is the first one with t's name, as `find` picks it. */
  lemma AddTallyRaisesFirst(s: seq<Tally>, t: Tally)
    requires t.name in Names(s)
    ensures exists i :: 0 <= i < |s| && s[i].name == t.name && (forall j :: 0 <= j < i ==> s[j].name != t.name)
                        && AddTally(s, t) == Raised(s, i, t)
  {
    var i := FindName(s, t.name).value;
    assert AddTally(s, t) == Raised(s, i, t);
  }

  /** Raising one entry by `t`'s counters raises the sum and that entry's name, and nothing else. */
  lemma {:induction false} RaisedCounts(s: seq<Tally>, i: nat, t: Tally)
    requires i < |s|
    ensures ClicksSum(Raised(s, i, t)) == ClicksSum(s) + t.uniqueClicks
    ensures forall n :: ClicksFor(Raised(s, i, t), n) == ClicksFor(s, n) + (if s[i].name == n then t.uniqueClicks else 0)
    ensures forall n :: UsersFor(Raised(s, i, t), n) == UsersFor(s, n) + (if s[i].name == n then t.uniqueUsers else 0)
  {
    var r := Raised(s, i, t);
    if i < |s| - 1 {
      var p := s[..|s| - 1];
      assert r[..|r| - 1] == Raised(p, i, t);
      RaisedCounts(p, i, t);
    } else {
      assert r[..|r| - 1] == s[..|s| - 1];
    }
  }

  /** Adding `t` adds its counters to its own name and to the sum, and to nothing else. */
  lemma AddTallyCounts(s: seq<Tally>, t: Tally)
    ensures ClicksSum(AddTally(s, t)) == ClicksSum(s) + t.uniqueClicks
    ensures forall n :: ClicksFor(AddTally(s, t), n) == ClicksFor(s, n) + (if t.name == n then t.uniqueClicks else 0)
    ensures forall n :: UsersFor(AddTally(s, t), n) == UsersFor(s, n) + (if t.name == n then t.uniqueUsers else 0)
  {
    match FindName(s, t.name)
    case Some(i) => RaisedCounts(s, i, t);
    case None => assert (s + [t])[..|s|] == s;
  }

  /** `merged` is `acc` with the entries of `added` merged in: the pointwise sum of both counters. */
  ghost predicate MergedFrom(merged: seq<Tally>, acc: seq<Tally>, added: seq<Tally>) {
    && (forall n :: ClicksFor(merged, n) == ClicksFor(acc, n) + ClicksFor(added, n))
    && (forall n :: UsersFor(merged, n) == UsersFor(acc, n) + UsersFor(added, n))
    && Names(merged) == Names(acc) + Names(added)
    && ClicksSum(merged) == ClicksSum(acc) + ClicksSum(added)
  }

  /** Adding one more entry keeps MergedFrom. */
  lemma MergeStep(merged: seq<Tally>, acc: seq<Tally>, added: seq<Tally>, t: Tally)
    requires MergedFrom(merged, acc, added)
    ensures MergedFrom(AddTally(merged, t), acc, added + [t])
  {
    assert (added + [t])[..|added|] == added;
    AddTallyCounts(merged, t);
  }

  /** Merges the breakdown `incoming` of one alias into the running breakdown `acc` by
      name, both counters summed. As name-to-count maps the result is the pointwise sum
      of the inputs. */
  method MergeTallies(acc: seq<Tally>, incoming: seq<Tally>) returns (merged: seq<Tally>)
    ensures forall n :: ClicksFor(merged, n) == ClicksFor(acc, n) + ClicksFor(incoming, n)
    ensures forall n :: UsersFor(merged, n) == UsersFor(acc, n) + UsersFor(incoming, n)
    ensures Names(merged) == Names(acc) + Names(incoming)
    ensures ClicksSum(merged) == ClicksSum(acc) + ClicksSum(incoming)
    ensures DistinctNames(acc) ==> DistinctNames(merged)
    ensures Balanced(acc) && Balanced(incoming) ==> Balanced(merged)
    ensures incoming == [] ==> merged == acc
  {
    merged := acc;
    for k := 0 to |incoming|
      invariant MergedFrom(merged, acc, incoming[..k])
      invariant DistinctNames(acc) ==> DistinctNames(merged)
      invariant Balanced(acc) && Balanced(incoming) ==> Balanced(merged)
      invariant k == 0 ==> merged == acc
    {
      var t := incoming[k];
      assert incoming[..k + 1] == incoming[..k] + [t];
      MergeStep(merged, acc, incoming[..k], t);
      merged := AddTally(merged, t);
    }
    assert incoming[..|incoming|] == incoming;
  }
}
