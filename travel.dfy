/** Travel estimates: the cab fare rule, the fixed fallback estimate, and
    the reading of a Distance Matrix response. */
module Travel {
  import opened Common
  import opened Raw

  /** A travel estimate. The distance is kept in whole metres: the source
      reports kilometres rounded to one decimal, which is not modelled. */
  datatype TravelInfo = TravelInfo(
    distanceMeters: int,
    durationMins: int,
    cabFareInr: int,
    mode: string)

  /** Python's `int(n / d)`: division truncated toward zero. */
  function TruncDiv(n: int, d: int): (q: int)
    requires d > 0
  {
    if n >= 0 then n / d else -((-n) / d)
  }

  /** The quotient of a non-negative number brackets it between two
      consecutive multiples of the divisor. */
  lemma DivBounds(n: int, d: int)
    requires n >= 0 && d > 0
    ensures (n / d) * d <= n < (n / d + 1) * d
  {
    assert n == (n / d) * d + n % d;
  }

  /** Division by a positive number is monotone. */
  lemma DivMonotone(a: int, b: int, d: int)
    requires 0 <= a <= b && d > 0
    ensures a / d <= b / d
  {
    DivBounds(a, d);
    DivBounds(b, d);
    if a / d > b / d {
      MulMonotone(b / d + 1, a / d, d);
    }
  }

  lemma MulMonotone(x: int, y: int, d: int)
    requires x <= y && d > 0
    ensures x * d <= y * d
  {
  }

  /** The truncated fare brackets the exact one and is at least the base
      fare for a non-negative distance. */
  lemma FareBounds(kmNum: int, kmDen: int)
    requires kmDen > 0
    ensures var n := 50 * kmDen + 12 * kmNum;
      (kmNum >= 0 ==> TruncDiv(n, kmDen) >= 50) &&
      (n >= 0 ==> TruncDiv(n, kmDen) * kmDen <= n < (TruncDiv(n, kmDen) + 1) * kmDen)
  {
    var n := 50 * kmDen + 12 * kmNum;
    if n >= 0 {
      DivBounds(n, kmDen);
    }
    if kmNum >= 0 {
      DivMonotone(50 * kmDen, n, kmDen);
      DivBounds(50 * kmDen, kmDen);
      if (50 * kmDen) / kmDen < 50 {
        MulMonotone((50 * kmDen) / kmDen + 1, 50, kmDen);
      }
    }
  }

  /** `int(50 + km * 12)` for a distance of `kmNum / kmDen` kilometres. */
  function EstimateCabFare(kmNum: int, kmDen: int): (fare: int)
    requires kmDen > 0
    ensures kmNum >= 0 ==> fare >= 50
    ensures 50 * kmDen + 12 * kmNum >= 0 ==>
      fare * kmDen <= 50 * kmDen + 12 * kmNum < (fare + 1) * kmDen
  {
    FareBounds(kmNum, kmDen);
    TruncDiv(50 * kmDen + 12 * kmNum, kmDen)
  }

  /** A whole number of kilometres costs exactly 50 plus 12 per kilometre. */
  lemma CabFareWholeKm(km: int)
    ensures EstimateCabFare(km, 1) == 50 + 12 * km
  {
  }

  /** A longer non-negative distance never costs less. */
  lemma CabFareMonotone(a: int, b: int, kmDen: int)
    requires 0 <= a <= b && kmDen > 0
    ensures EstimateCabFare(a, kmDen) <= EstimateCabFare(b, kmDen)
  {
    DivMonotone(50 * kmDen + 12 * a, 50 * kmDen + 12 * b, kmDen);
  }

  /** The fixed estimate used without a Google key or on a malformed
      response: 8 km, 20 minutes, 130 rupees. */
  function MockTravel(origin: Value, destination: Value): (t: TravelInfo)
    ensures t.distanceMeters == 8000 && t.durationMins == 20 && t.cabFareInr == 130
  {
    TravelInfo(8000, 20, 130, "Uber/Ola")
  }

  /** The fallback estimate does not depend on the route asked for. */
  lemma MockTravelConstant(o1: Value, d1: Value, o2: Value, d2: Value)
    ensures MockTravel(o1, d1) == MockTravel(o2, d2)
  {
  }

  /** The fallback's fare is below what the fare rule gives for its own
      8 km (146 rupees); the model keeps 130 as the source does. */
  lemma MockFareBelowRule(origin: Value, destination: Value)
    ensures MockTravel(origin, destination).cabFareInr < EstimateCabFare(8000, 1000)
    ensures EstimateCabFare(8000, 1000) == 146
  {
  }

  /** `data["rows"][0]["elements"][0]` with its distance and duration, or
      `None` where Python raises `KeyError` or `IndexError`. */
  function FirstElement(m: RawMatrix): (r: Option<(int, int)>)
    ensures r.Some? <==>
      (m.rows.Some? && |m.rows.value| > 0 && m.rows.value[0].elements.Some? &&
       |m.rows.value[0].elements.value| > 0 &&
       m.rows.value[0].elements.value[0].distanceMeters.Some? &&
       m.rows.value[0].elements.value[0].durationSeconds.Some?)
    ensures r.Some? ==>
      r.value == (m.rows.value[0].elements.value[0].distanceMeters.value,
                  m.rows.value[0].elements.value[0].durationSeconds.value)
  {
    if m.rows.None? || m.rows.value == [] then None
    else
      var row := m.rows.value[0];
      if row.elements.None? || row.elements.value == [] then None
      else
        var e := row.elements.value[0];
        if e.distanceMeters.None? || e.durationSeconds.None? then None
        else Some((e.distanceMeters.value, e.durationSeconds.value))
  }

  /** What `get_travel_info` returns for a fetched Distance Matrix response. */
  function TravelFromMatrix(m: RawMatrix, origin: Value, destination: Value): (t: TravelInfo)
    ensures t.mode == "Uber/Ola"
    ensures FirstElement(m).Some? && FirstElement(m).value.0 >= 0 ==> t.cabFareInr >= 50
  {
    match FirstElement(m)
    case None => MockTravel(origin, destination)
    case Some((meters, seconds)) =>
      TravelInfo(meters, seconds / 60, EstimateCabFare(meters, 1000), "Uber/Ola")
  }

  /** A readable response gives its own distance, whole minutes rounded down
      and the fare from the rule, at least 50 for a non-negative distance;
      an unreadable one gives the fixed estimate. */
  lemma TravelFromMatrixSpec(m: RawMatrix, origin: Value, destination: Value)
    ensures var t := TravelFromMatrix(m, origin, destination);
      match FirstElement(m)
      case None => t == MockTravel(origin, destination)
      case Some((meters, seconds)) =>
        t.distanceMeters == meters &&
        t.durationMins * 60 <= seconds < t.durationMins * 60 + 60 &&
        t.cabFareInr == EstimateCabFare(meters, 1000) &&
        (meters >= 0 ==> t.cabFareInr >= 50) &&
        t.mode == "Uber/Ola"
  {
  }
}
