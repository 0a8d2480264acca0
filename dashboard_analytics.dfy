/**
 * The two "best day" selections of the dashboard: a `reduce` over the list,
 * seeded with element 0, that replaces the current best only when an element
 * is strictly greater. The result is the earliest element that attains the
 * maximum; on an empty list the seed is `undefined` and so is the result.
 */
module DashboardAnalytics {
  import opened Wrappers

  datatype Pattern = Pattern(date: int, productivity: int)
  datatype Trend = Trend(date: int, selfEsteem: int)

  /** `xs.reduce((max, x) => key(x) > key(max) ? x : max, acc)`, visiting `xs` from the left. */
  function Reduce<T>(xs: seq<T>, key: T -> int, acc: T): (r: T)
    ensures r == acc || r in xs
    ensures key(acc) <= key(r)
    ensures forall x :: x in xs ==> key(x) <= key(r)
  {
    if xs == [] then acc
    else
      var r := Reduce(xs[1..], key, if key(xs[0]) > key(acc) then xs[0] else acc);
      assert forall x :: x in xs ==> x == xs[0] || x in xs[1..];
      r
  }

  /** The fold seeded with `xs[0]`; an empty list gives `undefined`, here `None`. */
  function BestBy<T>(xs: seq<T>, key: T -> int): (r: Option<T>)
    ensures r.None? <==> xs == []
    ensures r.Some? ==> r.value == xs[FirstMaxIndex(xs, key)]
  {
    if xs == [] then None
    else
      ReduceFindsFirstMax(xs, key, xs[0]);
      Some(Reduce(xs, key, xs[0]))
  }

  /** Reference definition, computed from the right: the index of the first
      element whose key is the largest. */
  function FirstMaxIndex<T>(xs: seq<T>, key: T -> int): (k: nat)
    requires xs != []
    ensures k < |xs|
    ensures forall j :: 0 <= j < |xs| ==> key(xs[j]) <= key(xs[k])
    ensures forall j :: 0 <= j < k ==> key(xs[j]) < key(xs[k])
  {
    if |xs| == 1 then 0
    else
      var k := FirstMaxIndex(xs[1..], key) + 1;
      if key(xs[0]) >= key(xs[k]) then 0 else k
  }

  /** The fold from any seed ends on the first maximum of the list when that
      beats the seed, and on the seed otherwise. */
  lemma {:induction false} ReduceFindsFirstMax<T>(xs: seq<T>, key: T -> int, acc: T)
    requires xs != []
    ensures var k := FirstMaxIndex(xs, key);
            Reduce(xs, key, acc) == if key(xs[k]) > key(acc) then xs[k] else acc
  {
    var step := if key(xs[0]) > key(acc) then xs[0] else acc;
    if |xs| > 1 {
      ReduceFindsFirstMax(xs[1..], key, step);
    }
  }

  /** `maxProductivityDay`: the earliest pattern with the highest productivity. */
  function MaxProductivityDay(patterns: seq<Pattern>): (r: Option<Pattern>)
    ensures r.None? <==> patterns == []
    ensures r.Some? ==> r.value in patterns
    ensures r.Some? ==> forall p :: p in patterns ==> p.productivity <= r.value.productivity
    ensures r.Some? ==> exists k :: 0 <= k < |patterns| && patterns[k] == r.value &&
                          forall j :: 0 <= j < k ==> patterns[j].productivity < r.value.productivity
    ensures |patterns| == 1 ==> r == Some(patterns[0])
  {
    var key := (p: Pattern) => p.productivity;
    var r := BestBy(patterns, key);
    if r.Some? then
      var k := FirstMaxIndex(patterns, key);
      assert patterns[k] == r.value;
      r
    else r
  }

  /** `maxSelfEsteemDay`: the earliest trend with the highest self-esteem. */
  function MaxSelfEsteemDay(trends: seq<Trend>): (r: Option<Trend>)
    ensures r.None? <==> trends == []
    ensures r.Some? ==> r.value in trends
    ensures r.Some? ==> forall t :: t in trends ==> t.selfEsteem <= r.value.selfEsteem
    ensures r.Some? ==> exists k :: 0 <= k < |trends| && trends[k] == r.value &&
                          forall j :: 0 <= j < k ==> trends[j].selfEsteem < r.value.selfEsteem
    ensures |trends| == 1 ==> r == Some(trends[0])
  {
    var key := (t: Trend) => t.selfEsteem;
    var r := BestBy(trends, key);
    if r.Some? then
      var k := FirstMaxIndex(trends, key);
      assert trends[k] == r.value;
      r
    else r
  }
}
