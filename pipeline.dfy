/**
 * One analysis of a frame, as the image and video branches run it: the tally of
 * the detections, the decision for its total, and the positive-count items the
 * distribution chart is drawn from.
 */
module Pipeline {
  import opened Vehicles
  import opened Signal

  /** Everything one analysis hands to the display. */
  datatype Report = Report(vehicleCount: int, vehicleTypes: Tally, decision: Decision, chart: Tally)

  /**
   * `process_frame` followed by `traffic_logic` on its vehicle count, then the
   * chart filter over the per-class counts.
   */
  method AnalyzeFrame(results: seq<seq<string>>) returns (report: Report)
    ensures report.vehicleTypes == TallyOf(Flatten(results))
    ensures report.vehicleCount == Total(report.vehicleTypes) == |VehicleDetections(Flatten(results))|
    ensures report.decision == TrafficLogic(report.vehicleCount)
    ensures report.chart == Positive(report.vehicleTypes)
    ensures forall e :: e in report.chart <==> e in report.vehicleTypes && e.count > 0
    ensures OrderedIn(report.chart, report.vehicleTypes)
    ensures report.chart == [] <==> report.vehicleCount == 0
  {
    var vehicleCount, vehicleTypes := ProcessFrame(results);
    var decision := TrafficLogic(vehicleCount);
    var chart := Positive(vehicleTypes);
    PositiveKeepsOrder(vehicleTypes);
    PositiveEmptyIffTotalZero(vehicleTypes);
    report := Report(vehicleCount, vehicleTypes, decision, chart);
  }

  /** Every detection of `s` carries the label `x`. */
  predicate AllLabelled(s: seq<string>, x: string)
  {
    forall i :: 0 <= i < |s| ==> s[i] == x
  }

  lemma {:induction false} AllLabelledCounts(s: seq<string>, x: string)
    requires AllLabelled(s, x)
    ensures forall y :: multiset(s)[y] == if y == x then |s| else 0
  {
    if s != [] {
      var prefix := s[..|s| - 1];
      AllLabelledCounts(prefix, x);
      assert s == prefix + [x];
      assert multiset(s) == multiset(prefix) + multiset{x};
    }
  }

  lemma TotalOfFive(t: Tally)
    requires |t| == 5
    ensures Total(t) == t[0].count + t[1].count + t[2].count + t[3].count + t[4].count
  {
    assert t[4..][1..] == [];
    assert Total(t[4..]) == t[4].count;
    assert t[3..][1..] == t[4..];
    assert Total(t[3..]) == t[3].count + Total(t[4..]);
    assert t[2..][1..] == t[3..];
    assert Total(t[2..]) == t[2].count + Total(t[3..]);
    assert t[1..][1..] == t[2..];
    assert Total(t[1..]) == t[1].count + Total(t[2..]);
  }

  /** The tally of any detections whose label counts are given, class by class. */
  lemma TallyFromCounts(labels: seq<string>, car: nat, truck: nat, bus: nat, motorcycle: nat, bicycle: nat)
    requires multiset(labels)["car"] == car && multiset(labels)["truck"] == truck
    requires multiset(labels)["bus"] == bus && multiset(labels)["motorcycle"] == motorcycle
    requires multiset(labels)["bicycle"] == bicycle
    ensures TallyOf(labels)
         == [Entry("car", car), Entry("truck", truck), Entry("bus", bus), Entry("motorcycle", motorcycle), Entry("bicycle", bicycle)]
    ensures Total(TallyOf(labels)) == car + truck + bus + motorcycle + bicycle
  {
    var t := TallyOf(labels);
    assert t[0] == Entry("car", car) && t[1] == Entry("truck", truck) && t[2] == Entry("bus", bus);
    assert t[3] == Entry("motorcycle", motorcycle) && t[4] == Entry("bicycle", bicycle);
    assert |t| == 5;
    assert t == [t[0], t[1], t[2], t[3], t[4]];
    TotalOfFive(t);
  }

  /** No detection at all: an all-zero tally, LOW, 15 seconds, nothing to chart. */
  lemma {:induction false} ScenarioEmpty()
    ensures TallyOf([]) == [Entry("car", 0), Entry("truck", 0), Entry("bus", 0), Entry("motorcycle", 0), Entry("bicycle", 0)]
    ensures Total(TallyOf([])) == 0
    ensures TrafficLogic(0) == Decision(Low, 15, "🟢 Smooth Traffic")
    ensures Positive(TallyOf([])) == []
  {
    InitialTally();
    PositiveEmptyIffTotalZero(TallyOf([]));
  }

  /** Ten cars: still LOW, 15 seconds. */
  lemma ScenarioTenCars(cars: seq<string>)
    requires |cars| == 10 && AllLabelled(cars, "car")
    ensures TallyOf(cars)[0] == Entry("car", 10)
    ensures Total(TallyOf(cars)) == 10
    ensures TrafficLogic(Total(TallyOf(cars))) == Decision(Low, 15, "🟢 Smooth Traffic")
  {
    AllLabelledCounts(cars, "car");
    TallyFromCounts(cars, 10, 0, 0, 0, 0);
  }

  /** Eleven cars: MEDIUM, 30 seconds. */
  lemma ScenarioElevenCars(cars: seq<string>)
    requires |cars| == 11 && AllLabelled(cars, "car")
    ensures Total(TallyOf(cars)) == 11
    ensures TrafficLogic(Total(TallyOf(cars))) == Decision(Medium, 30, "🟡 Moderate Traffic")
  {
    AllLabelledCounts(cars, "car");
    TallyFromCounts(cars, 11, 0, 0, 0, 0);
  }

  /** Fifteen cars and twelve trucks: total 27, HIGH, 45 seconds. */
  lemma ScenarioCarsAndTrucks(cars: seq<string>, trucks: seq<string>)
    requires |cars| == 15 && AllLabelled(cars, "car")
    requires |trucks| == 12 && AllLabelled(trucks, "truck")
    ensures Total(TallyOf(cars + trucks)) == 27
    ensures TrafficLogic(Total(TallyOf(cars + trucks))) == Decision(High, 45, "🔴 Heavy Congestion")
  {
    AllLabelledCounts(cars, "car");
    AllLabelledCounts(trucks, "truck");
    assert multiset(cars + trucks) == multiset(cars) + multiset(trucks);
    TallyFromCounts(cars + trucks, 15, 12, 0, 0, 0);
  }

  /** Five cars, three buses and two persons: the persons are not counted; total 8, LOW. */
  lemma ScenarioWithPersons(cars: seq<string>, buses: seq<string>, persons: seq<string>)
    requires |cars| == 5 && AllLabelled(cars, "car")
    requires |buses| == 3 && AllLabelled(buses, "bus")
    requires |persons| == 2 && AllLabelled(persons, "person")
    ensures TallyOf(cars + buses + persons)
         == [Entry("car", 5), Entry("truck", 0), Entry("bus", 3), Entry("motorcycle", 0), Entry("bicycle", 0)]
    ensures Total(TallyOf(cars + buses + persons)) == 8
    ensures TrafficLogic(Total(TallyOf(cars + buses + persons))).density == Low
  {
    AllLabelledCounts(cars, "car");
    AllLabelledCounts(buses, "bus");
    AllLabelledCounts(persons, "person");
    assert multiset(cars + buses + persons) == multiset(cars) + multiset(buses) + multiset(persons);
    TallyFromCounts(cars + buses + persons, 5, 0, 3, 0, 0);
  }

  /** The item `e` as the chart filter keeps it: alone, or dropped. */
  function Kept(e: Entry): seq<Entry>
  {
    if e.count > 0 then [e] else []
  }

  /** One step of the chart filter: the first item is kept or dropped, then the rest is filtered. */
  lemma PositiveStep(t: Tally)
    requires t != []
    ensures Positive(t) == Kept(t[0]) + Positive(t[1..])
  {
  }

  /** The chart filter over a five-item tally, item by item. */
  lemma PositiveOfFive(t: Tally)
    requires |t| == 5
    ensures Positive(t) == Kept(t[0]) + (Kept(t[1]) + (Kept(t[2]) + (Kept(t[3]) + Kept(t[4]))))
  {
    var t1, t2, t3, t4 := t[1..], t[2..], t[3..], t[4..];
    assert t1[1..] == t2 && t2[1..] == t3 && t3[1..] == t4 && t4[1..] == [];
    PositiveStep(t4);
    assert Positive(t4) == Kept(t[4]);
    PositiveStep(t3);
    PositiveStep(t2);
    PositiveStep(t1);
    PositiveStep(t);
  }

  /** A five-item tally whose first and third counts alone are positive charts those two, in order. */
  lemma ChartOfFirstAndThird(t: Tally)
    requires |t| == 5
    requires t[0].count > 0 && t[1].count == 0 && t[2].count > 0 && t[3].count == 0 && t[4].count == 0
    ensures Positive(t) == [t[0], t[2]]
  {
    PositiveOfFive(t);
    assert Kept(t[3]) + Kept(t[4]) == [];
    assert Kept(t[1]) + (Kept(t[2]) + (Kept(t[3]) + Kept(t[4]))) == [t[2]];
  }

  /**
   * The same frame run end to end: five cars, three buses and two persons in one
   * detector result give a report with count 8, LOW with 15 seconds, and a chart
   * of cars then buses.
   */
  method ScenarioWithPersonsReport(cars: seq<string>, buses: seq<string>, persons: seq<string>)
    returns (report: Report)
    requires |cars| == 5 && AllLabelled(cars, "car")
    requires |buses| == 3 && AllLabelled(buses, "bus")
    requires |persons| == 2 && AllLabelled(persons, "person")
    ensures report.vehicleTypes
         == [Entry("car", 5), Entry("truck", 0), Entry("bus", 3), Entry("motorcycle", 0), Entry("bicycle", 0)]
    ensures report.vehicleCount == 8
    ensures report.decision == Decision(Low, 15, "🟢 Smooth Traffic")
    ensures report.chart == [Entry("car", 5), Entry("bus", 3)]
  {
    var labels := cars + buses + persons;
    assert Flatten([labels]) == labels by {
      assert [labels][..0] == [];
    }
    ScenarioWithPersons(cars, buses, persons);
    report := AnalyzeFrame([labels]);
    ChartOfFirstAndThird(report.vehicleTypes);
  }
}
