/**
 * The density/signal decision `traffic_logic`: a vehicle count is mapped to a
 * density tier, a recommended green-signal time in seconds and a status line.
 */
module Signal {

  datatype Density = Low | Medium | High

  /** The triple `traffic_logic` returns: tier, green time in seconds, status line. */
  datatype Decision = Decision(density: Density, signalTime: int, status: string)

  /** The fixed lookup from tier to green time and status line, one row per tier. */
  function Decide(density: Density): (d: Decision)
    ensures d.density == density
  {
    match density
    case Low => Decision(Low, 15, "🟢 Smooth Traffic")
    case Medium => Decision(Medium, 30, "🟡 Moderate Traffic")
    case High => Decision(High, 45, "🔴 Heavy Congestion")
  }

  /**
   * The cascade of `traffic_logic`, first match wins: at most 10 vehicles is LOW,
   * at most 25 is MEDIUM, anything more is HIGH. The three triples repeat the rows
   * of `Decide` on purpose: the body follows the source's cascade, and the last
   * `ensures` proves the two agree.
   */
  function TrafficLogic(vehicleCount: int): (d: Decision)
    ensures d.density == Low <==> vehicleCount <= 10
    ensures d.density == Medium <==> 11 <= vehicleCount <= 25
    ensures d.density == High <==> 26 <= vehicleCount
    ensures d == Decide(d.density)
  {
    if vehicleCount <= 10 then Decision(Low, 15, "🟢 Smooth Traffic")
    else if vehicleCount <= 25 then Decision(Medium, 30, "🟡 Moderate Traffic")
    else Decision(High, 45, "🔴 Heavy Congestion")
  }

  /** The boundaries: 10 is still LOW, 11 and 25 are MEDIUM, 26 is HIGH. */
  lemma Boundaries()
    ensures TrafficLogic(10) == Decision(Low, 15, "🟢 Smooth Traffic")
    ensures TrafficLogic(11) == Decision(Medium, 30, "🟡 Moderate Traffic")
    ensures TrafficLogic(25) == Decision(Medium, 30, "🟡 Moderate Traffic")
    ensures TrafficLogic(26) == Decision(High, 45, "🔴 Heavy Congestion")
  {
  }

  /** A busier junction never gets a shorter green time, and the time stays within 15..45 seconds. */
  lemma GreenTimeMonotone(a: int, b: int)
    requires a <= b
    ensures 15 <= TrafficLogic(a).signalTime <= TrafficLogic(b).signalTime <= 45
  {
  }

  /** Two counts share a status line exactly when they share a tier. */
  lemma StatusDeterminesTier(a: int, b: int)
    ensures TrafficLogic(a).status == TrafficLogic(b).status <==> TrafficLogic(a).density == TrafficLogic(b).density
  {
  }
}
