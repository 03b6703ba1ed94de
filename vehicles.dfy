/**
 * The vehicle tally of the detection-to-decision pipeline: the counting loop of
 * `process_frame` and the positive-count filter that feeds the distribution chart.
 *
 * The detector's output is taken as given: one list of box labels per detector
 * result, each label being the class name the detector reports for that box.
 */
module Vehicles {

  datatype Option<T> = None | Some(value: T)

  /** The vehicle classes, in the order of the dictionary literal the tally starts from. */
  const Classes: seq<string> := ["car", "truck", "bus", "motorcycle", "bicycle"]

  /** One item of the per-class dictionary: a class name and its count. */
  datatype Entry = Entry(key: string, count: int)

  /** An insertion-ordered dictionary from class name to count, kept as its list of items. */
  type Tally = seq<Entry>

  /** The keys of a tally, in order. */
  function Keys(t: Tally): seq<string>
  {
    seq(|t|, i requires 0 <= i < |t| => t[i].key)
  }

  /** Dictionary membership `k in d`, returning where the item with key `k` sits. */
  function Find(t: Tally, k: string): (r: Option<nat>)
    ensures r.None? ==> forall i :: 0 <= i < |t| ==> t[i].key != k
    ensures r.Some? ==> r.value < |t| && t[r.value].key == k
    ensures r.Some? ==> forall i :: 0 <= i < r.value ==> t[i].key != k
  {
    if t == [] then None
    else if t[0].key == k then Some(0)
    else
      match Find(t[1..], k)
      case None => None
      case Some(i) => Some(i + 1)
  }

  /** All detections of all results, in the order the nested loops visit them. */
  function Flatten(results: seq<seq<string>>): seq<string>
  {
    if results == [] then [] else Flatten(results[..|results| - 1]) + results[|results| - 1]
  }

  /** Finishing one more result appends its boxes to the detections seen. */
  lemma FlattenStep(results: seq<seq<string>>, r: nat)
    requires r < |results|
    ensures Flatten(results[..r + 1]) == Flatten(results[..r]) + results[r]
  {
    assert results[..r + 1][..r] == results[..r];
  }

  /** Finishing one more box appends its label to the detections seen. */
  lemma PrefixStep(before: seq<string>, boxes: seq<string>, b: nat)
    requires b < |boxes|
    ensures before + boxes[..b + 1] == (before + boxes[..b]) + [boxes[b]]
  {
  }

  /**
   * Reference definition of the tally: the five classes in their initial order,
   * each with the number of detections carrying that label.
   */
  function TallyOf(labels: seq<string>): Tally
  {
    seq(|Classes|, i requires 0 <= i < |Classes| => Entry(Classes[i], multiset(labels)[Classes[i]]))
  }

  /** Sum of the counts of a tally. */
  function Total(t: Tally): int
  {
    if t == [] then 0 else t[0].count + Total(t[1..])
  }

  /** The detections the tally counts: those labelled with a vehicle class, in order. */
  function VehicleDetections(labels: seq<string>): seq<string>
  {
    if labels == [] then []
    else
      var last := labels[|labels| - 1];
      VehicleDetections(labels[..|labels| - 1]) + (if last in Classes then [last] else [])
  }

  /** The item at position `k` incremented by one: `d[label] += 1` where `k` is where `label` sits. */
  function Bumped(t: Tally, k: nat): Tally
    requires k < |t|
  {
    t[k := Entry(t[k].key, t[k].count + 1)]
  }

  /** Incrementing one item raises the sum of the counts by exactly one. */
  lemma {:induction false} TotalBumped(t: Tally, k: nat)
    requires k < |t|
    ensures Total(Bumped(t, k)) == Total(t) + 1
  {
    if k == 0 {
      assert Bumped(t, k)[1..] == t[1..];
    } else {
      assert Bumped(t, k)[1..] == Bumped(t[1..], k - 1);
      TotalBumped(t[1..], k - 1);
    }
  }

  /** A tally whose counts are all zero sums to zero. */
  lemma {:induction false} TotalOfZeros(t: Tally)
    requires forall i :: 0 <= i < |t| ==> t[i].count == 0
    ensures Total(t) == 0
  {
    if t != [] {
      TotalOfZeros(t[1..]);
    }
  }

  /**
   * One more detection: a vehicle label increments its own class and no other,
   * any other label leaves the tally as it was.
   */
  lemma TallyOfAppend(labels: seq<string>, x: string)
    ensures x !in Classes ==> TallyOf(labels + [x]) == TallyOf(labels)
    ensures forall k :: 0 <= k < |Classes| && Classes[k] == x ==>
              TallyOf(labels + [x]) == Bumped(TallyOf(labels), k)
  {
  }

  /** The dictionary literal `process_frame` starts from is the tally of no detections. */
  lemma InitialTally()
    ensures [Entry("car", 0), Entry("truck", 0), Entry("bus", 0), Entry("motorcycle", 0), Entry("bicycle", 0)] == TallyOf([])
    ensures Total(TallyOf([])) == 0
  {
  }

  /**
   * One step of the counting loop, stated on the dictionary `t` and count `c` the
   * loop holds: a label found in the dictionary increments that item and the
   * count; a label not found leaves both as they are.
   */
  lemma CountStep(seen: seq<string>, name: string, t: Tally, c: int)
    requires t == TallyOf(seen) && c == Total(t)
    ensures Find(t, name).Some? ==>
              var k := Find(t, name).value;
              && Bumped(t, k) == TallyOf(seen + [name])
              && c + 1 == Total(TallyOf(seen + [name]))
    ensures Find(t, name).None? ==> t == TallyOf(seen + [name]) && c == Total(TallyOf(seen + [name]))
  {
    TallyOfAppend(seen, name);
    match Find(t, name)
    case Some(k) =>
      TotalBumped(t, k);
    case None =>
  }

  /** The sum of the tally is the number of detections labelled with a vehicle class. */
  lemma {:induction false} TotalOfTally(labels: seq<string>)
    ensures Total(TallyOf(labels)) == |VehicleDetections(labels)|
  {
    if labels == [] {
      TotalOfZeros(TallyOf(labels));
    } else {
      var prefix, last := labels[..|labels| - 1], labels[|labels| - 1];
      assert labels == prefix + [last];
      TotalOfTally(prefix);
      TallyOfAppend(prefix, last);
      if last in Classes {
        var k :| 0 <= k < |Classes| && Classes[k] == last;
        TotalBumped(TallyOf(prefix), k);
      }
    }
  }

  /**
   * The counting loop of `process_frame`: starting from every vehicle class at 0,
   * each detection whose label is a key of the dictionary increments that class
   * and the running vehicle count together; other labels are skipped.
   */
  method ProcessFrame(results: seq<seq<string>>) returns (vehicleCount: int, vehicleTypes: Tally)
    ensures vehicleTypes == TallyOf(Flatten(results))
    ensures vehicleCount == Total(vehicleTypes)
    ensures vehicleCount == |VehicleDetections(Flatten(results))|
  {
    vehicleCount := 0;
    vehicleTypes := [Entry("car", 0), Entry("truck", 0), Entry("bus", 0), Entry("motorcycle", 0), Entry("bicycle", 0)];
    InitialTally();
    ghost var seen: seq<string> := [];
    var r := 0;
    while r < |results|
      invariant 0 <= r <= |results|
      invariant seen == Flatten(results[..r])
      invariant vehicleTypes == TallyOf(seen)
      invariant vehicleCount == Total(vehicleTypes)
    {
      var boxes := results[r];
      FlattenStep(results, r);
      ghost var before := seen;
      var b := 0;
      while b < |boxes|
        invariant 0 <= b <= |boxes|
        invariant seen == before + boxes[..b]
        invariant vehicleTypes == TallyOf(seen)
        invariant vehicleCount == Total(vehicleTypes)
      {
        var name := boxes[b];
        CountStep(seen, name, vehicleTypes, vehicleCount);
        var found := Find(vehicleTypes, name);
        if found.Some? {
          var k := found.value;
          vehicleTypes := Bumped(vehicleTypes, k);
          vehicleCount := vehicleCount + 1;
        }
        PrefixStep(before, boxes, b);
        seen := seen + [name];
        b := b + 1;
      }
      assert boxes[..b] == boxes;
      r := r + 1;
    }
    assert results[..r] == results;
    TotalOfTally(seen);
  }

  /** Shape of every tally: the five initial keys in their initial order, no negative count. */
  lemma TallyShape(labels: seq<string>)
    ensures Keys(TallyOf(labels)) == Classes
    ensures forall i :: 0 <= i < |TallyOf(labels)| ==> TallyOf(labels)[i].count >= 0
  {
  }

  /** The tally depends only on the multiset of labels, not on their order. */
  lemma TallyOrderIndependent(a: seq<string>, b: seq<string>)
    requires multiset(a) == multiset(b)
    ensures TallyOf(a) == TallyOf(b)
  {
  }

  /** A detection labelled with no vehicle class, wherever it occurs, changes nothing. */
  lemma IgnoredLabel(labels: seq<string>, x: string, at: nat)
    requires x !in Classes
    requires at <= |labels|
    ensures TallyOf(labels[..at] + [x] + labels[at..]) == TallyOf(labels)
    ensures Total(TallyOf(labels[..at] + [x] + labels[at..])) == Total(TallyOf(labels))
  {
    assert labels[..at] + labels[at..] == labels;
    assert multiset(labels[..at] + [x] + labels[at..]) == multiset(labels) + multiset{x};
  }

  /**
   * The chart comprehension `{k: v for k, v in d.items() if v > 0}`: the items
   * with a positive count, in the dictionary's order.
   */
  function Positive(t: Tally): (r: Tally)
    ensures forall e :: e in r <==> e in t && e.count > 0
    ensures forall e :: multiset(r)[e] == if e.count > 0 then multiset(t)[e] else 0
    ensures |r| <= |t|
  {
    if t == [] then []
    else
      var head := if t[0].count > 0 then [t[0]] else [];
      assert multiset(t) == multiset{t[0]} + multiset(t[1..]) by {
        assert t == [t[0]] + t[1..];
      }
      head + Positive(t[1..])
  }

  /** `x` occurs in `t` at an earlier position than `y`. */
  ghost predicate Before(t: Tally, x: Entry, y: Entry)
  {
    exists p, q :: 0 <= p < q < |t| && t[p] == x && t[q] == y
  }

  /** Every two items of `r` occur in `t` in the same relative order. */
  ghost predicate OrderedIn(r: Tally, t: Tally)
  {
    forall i, j :: 0 <= i < j < |r| ==> Before(t, r[i], r[j])
  }

  lemma OrderedInSkip(h: Entry, r: Tally, t: Tally)
    requires OrderedIn(r, t)
    ensures OrderedIn(r, [h] + t)
  {
    var u := [h] + t;
    forall i, j | 0 <= i < j < |r|
      ensures Before(u, r[i], r[j])
    {
      assert Before(t, r[i], r[j]);
      var p, q :| 0 <= p < q < |t| && t[p] == r[i] && t[q] == r[j];
      assert u[p + 1] == r[i] && u[q + 1] == r[j];
    }
  }

  lemma OrderedInKeep(h: Entry, r: Tally, t: Tally)
    requires OrderedIn(r, t)
    requires forall e :: e in r ==> e in t
    ensures OrderedIn([h] + r, [h] + t)
  {
    var u, v := [h] + t, [h] + r;
    forall i, j | 0 <= i < j < |v|
      ensures Before(u, v[i], v[j])
    {
      if i == 0 {
        assert r[j - 1] in t;
        var q :| 0 <= q < |t| && t[q] == r[j - 1];
        assert u[0] == v[i] && u[q + 1] == v[j];
      } else {
        assert Before(t, r[i - 1], r[j - 1]);
        var p, q :| 0 <= p < q < |t| && t[p] == r[i - 1] && t[q] == r[j - 1];
        assert u[p + 1] == v[i] && u[q + 1] == v[j];
      }
    }
  }

  /** The filter keeps the relative order of the items it keeps. */
  lemma {:induction false} PositiveKeepsOrder(t: Tally)
    ensures OrderedIn(Positive(t), t)
  {
    if t == [] {
      assert Positive(t) == [];
    } else {
      var rest := Positive(t[1..]);
      PositiveKeepsOrder(t[1..]);
      assert t == [t[0]] + t[1..];
      if t[0].count > 0 {
        assert Positive(t) == [t[0]] + rest;
        OrderedInKeep(t[0], rest, t[1..]);
      } else {
        assert Positive(t) == rest;
        OrderedInSkip(t[0], rest, t[1..]);
      }
    }
  }

  /** With no negative count, the filter is empty exactly when the counts sum to zero. */
  lemma {:induction false} PositiveEmptyIffTotalZero(t: Tally)
    requires forall i :: 0 <= i < |t| ==> t[i].count >= 0
    ensures Total(t) >= 0
    ensures Positive(t) == [] <==> Total(t) == 0
  {
    if t != [] {
      PositiveEmptyIffTotalZero(t[1..]);
    }
  }
}
