/** The route planner of the ELD back end: from the geodesic distance between
    the pickup and the dropoff it derives the driving time, the number of
    rest periods and fuel stops, and an ordered list of waypoints. */
module RouteService {
  import opened Basics

  /** The kinds of route point a trip records. `Waypoint` exists in the
      schema but the planner never produces one. */
  datatype LocationType = Pickup | Dropoff | Rest | Fuel | Waypoint

  /** One entry of `route_points`. */
  datatype RoutePoint = RoutePoint(
    sequence: int,
    location: string,
    locationType: LocationType,
    distanceFromPrevious: real,
    durationHours: real)

  /** The dictionary `calculate_route` returns. */
  datatype RouteData = RouteData(
    totalDistance: real,
    estimatedDrivingHours: real,
    restPeriodsNeeded: int,
    fuelStopsNeeded: int,
    routePoints: seq<RoutePoint>)

  const AverageSpeedMph: real := 60.0
  const MaxDrivingHours: nat := 11
  const RequiredRestHours: nat := 10
  const FuelIntervalMiles: real := 1000.0
  const PickupHours: real := 1.0
  const FuelingHours: real := 0.5
  const DropoffHours: real := 1.0

  /** Driving time at the assumed average speed. */
  function EstimatedDrivingHours(distance: real): (hours: real)
    ensures hours * AverageSpeedMph == distance
    ensures distance > 0.0 ==> hours > 0.0
  {
    distance / AverageSpeedMph
  }

  /** One rest period per started block of `MaxDrivingHours` driving hours. */
  function RestPeriodsNeeded(distance: real): (n: int)
    ensures distance > 0.0 ==> n >= 1
    ensures (n - 1) as real * MaxDrivingHours as real < EstimatedDrivingHours(distance)
    ensures EstimatedDrivingHours(distance) <= n as real * MaxDrivingHours as real
  {
    Ceil(EstimatedDrivingHours(distance) / MaxDrivingHours as real)
  }

  /** One fuel stop per started block of `FuelIntervalMiles` miles. */
  function FuelStopsNeeded(distance: real): (n: int)
    ensures distance > 0.0 ==> n >= 1
    ensures (n - 1) as real * FuelIntervalMiles < distance <= n as real * FuelIntervalMiles
  {
    Ceil(distance / FuelIntervalMiles)
  }

  /** The `i`-th of `count` evenly placed stops (counting from 0) lies this far
      from the previous point: the trip distance scaled by the stop's progress
      `(i+1)/(count+1)` and divided once more by `count+1`. */
  function StopDistance(distance: real, count: nat, i: nat): (d: real)
    requires distance >= 0.0
    ensures d >= 0.0
  {
    var progress := (i + 1) as real / (count + 1) as real;
    assert progress >= 0.0;
    distance * progress / (count + 1) as real
  }

  /** The `i`-th (from 0) of `count` evenly placed stops labelled with `prefix`,
      at position `sequence` of the route. */
  function Stop(prefix: string, kind: LocationType, durationHours: real,
                distance: real, count: nat, i: nat, sequence: int): RoutePoint
    requires distance >= 0.0
  {
    RoutePoint(sequence, prefix + NatToString(i + 1), kind, StopDistance(distance, count, i), durationHours)
  }

  /** The point at position `k` of a route with `rests` rest stops and `fuels`
      fuel stops: pickup, the rest stops, the fuel stops, then the dropoff. */
  function PointAt(pickup: string, dropoff: string, distance: real, rests: nat, fuels: nat, k: nat): RoutePoint
    requires distance >= 0.0
    requires k < rests + fuels + 2
  {
    if k == 0 then
      RoutePoint(1, pickup, Pickup, 0.0, PickupHours)
    else if k <= rests then
      Stop("Rest Stop ", Rest, RequiredRestHours as real, distance, rests, k - 1, k + 1)
    else if k <= rests + fuels then
      Stop("Fuel Stop ", Fuel, FuelingHours, distance, fuels, k - rests - 1, k + 1)
    else
      RoutePoint(k + 1, dropoff, Dropoff, distance / (k + 1) as real, DropoffHours)
  }

  /** The route planned for a resolved, positive distance. */
  function PlannedRoute(pickup: string, dropoff: string, distance: real): (r: RouteData)
    requires distance > 0.0
    ensures r.totalDistance == distance
    ensures r.estimatedDrivingHours * AverageSpeedMph == distance
    ensures r.restPeriodsNeeded == RestPeriodsNeeded(distance) >= 1
    ensures r.fuelStopsNeeded == FuelStopsNeeded(distance) >= 1
    ensures |r.routePoints| == 2 + r.restPeriodsNeeded + r.fuelStopsNeeded
    ensures forall k :: 0 <= k < |r.routePoints| ==>
              r.routePoints[k].sequence == k + 1 && r.routePoints[k].distanceFromPrevious >= 0.0
    ensures r.routePoints[0] == RoutePoint(1, pickup, Pickup, 0.0, 1.0)
    ensures forall k :: 1 <= k <= r.restPeriodsNeeded ==>
              r.routePoints[k].locationType == Rest && r.routePoints[k].durationHours == 10.0
    ensures forall k :: r.restPeriodsNeeded < k <= r.restPeriodsNeeded + r.fuelStopsNeeded ==>
              r.routePoints[k].locationType == Fuel && r.routePoints[k].durationHours == 0.5
    ensures var last := r.routePoints[|r.routePoints| - 1];
            last.locationType == Dropoff && last.location == dropoff && last.durationHours == 1.0
  {
    var rests: nat := RestPeriodsNeeded(distance);
    var fuels: nat := FuelStopsNeeded(distance);
    RouteData(distance, EstimatedDrivingHours(distance), rests, fuels,
              seq(rests + fuels + 2, k requires 0 <= k < rests + fuels + 2 =>
                PointAt(pickup, dropoff, distance, rests, fuels, k)))
  }

  /** The planned stops are labelled "Rest Stop 1", "Rest Stop 2", … and
      "Fuel Stop 1", "Fuel Stop 2", …, each numbered within its own kind. */
  lemma PlannedRouteLabels(pickup: string, dropoff: string, distance: real)
    requires distance > 0.0
    ensures var r := PlannedRoute(pickup, dropoff, distance);
            forall k :: 1 <= k <= r.restPeriodsNeeded ==>
              r.routePoints[k].location == "Rest Stop " + NatToString(k)
    ensures var r := PlannedRoute(pickup, dropoff, distance);
            forall k :: r.restPeriodsNeeded < k <= r.restPeriodsNeeded + r.fuelStopsNeeded ==>
              r.routePoints[k].location == "Fuel Stop " + NatToString(k - r.restPeriodsNeeded)
  {
    var r := PlannedRoute(pickup, dropoff, distance);
    var rests: nat, fuels: nat := r.restPeriodsNeeded, r.fuelStopsNeeded;
    forall k | 1 <= k <= rests + fuels
      ensures r.routePoints[k] == PointAt(pickup, dropoff, distance, rests, fuels, k)
    {
    }
  }

  /** One `for i in range(count)` loop of `calculate_route`: appends `count`
      evenly placed stops, each numbered after the current length of the list. */
  method AppendStops(points: seq<RoutePoint>, prefix: string, kind: LocationType, durationHours: real,
                     distance: real, count: nat)
    returns (extended: seq<RoutePoint>)
    requires distance >= 0.0
    ensures |extended| == |points| + count
    ensures extended[..|points|] == points
    ensures forall k :: |points| <= k < |extended| ==>
              extended[k] == Stop(prefix, kind, durationHours, distance, count, k - |points|, k + 1)
  {
    extended := points;
    for i := 0 to count
      invariant |extended| == |points| + i
      invariant extended[..|points|] == points
      invariant forall k :: |points| <= k < |extended| ==>
                  extended[k] == Stop(prefix, kind, durationHours, distance, count, k - |points|, k + 1)
    {
      extended := extended + [RoutePoint(|extended| + 1, prefix + NatToString(i + 1), kind,
                                         StopDistance(distance, count, i), durationHours)];
    }
  }

  /** A list that holds the planned point at every position is the planned list. */
  lemma PlannedRoutePoints(pickup: string, dropoff: string, distance: real, points: seq<RoutePoint>)
    requires distance > 0.0
    requires |points| == RestPeriodsNeeded(distance) + FuelStopsNeeded(distance) + 2
    requires forall k :: 0 <= k < |points| ==>
               points[k] == PointAt(pickup, dropoff, distance, RestPeriodsNeeded(distance), FuelStopsNeeded(distance), k)
    ensures points == PlannedRoute(pickup, dropoff, distance).routePoints
  {
  }

  /** `calculate_route`, with the geocoded distance passed in: `None` when the
      locations could not be resolved. The driver's current cycle hours are
      accepted and never read. */
  method CalculateRoute(pickup: string, dropoff: string, distance: Option<real>, currentCycleHours: real)
    returns (r: Option<RouteData>)
    requires distance.Some? ==> distance.value >= 0.0
    ensures r.None? <==> distance.None? || distance.value == 0.0
    ensures r.Some? ==> r.value == PlannedRoute(pickup, dropoff, distance.value)
  {
    if distance.None? || distance.value == 0.0 {
      return None;
    }
    var totalDistance := distance.value;
    var estimatedDrivingHours := totalDistance / AverageSpeedMph;
    var restPeriods: nat := Ceil(estimatedDrivingHours / MaxDrivingHours as real);
    var fuelStops: nat := Ceil(totalDistance / FuelIntervalMiles);

    var withPickup := [RoutePoint(1, pickup, Pickup, 0.0, PickupHours)];
    var withRests := AppendStops(withPickup, "Rest Stop ", Rest, RequiredRestHours as real, totalDistance, restPeriods);
    var withFuel := AppendStops(withRests, "Fuel Stop ", Fuel, FuelingHours, totalDistance, fuelStops);
    var points := withFuel + [RoutePoint(|withFuel| + 1, dropoff, Dropoff,
                                         totalDistance / (|withFuel| + 1) as real, DropoffHours)];

    forall k | 0 <= k < |points|
      ensures points[k] == PointAt(pickup, dropoff, totalDistance, restPeriods, fuelStops, k)
    {
      if k <= restPeriods {
        assert points[k] == withRests[k];
      } else if k <= restPeriods + fuelStops {
        assert points[k] == withFuel[k];
      }
    }
    PlannedRoutePoints(pickup, dropoff, totalDistance, points);
    r := Some(RouteData(totalDistance, estimatedDrivingHours, restPeriods, fuelStops, points));
  }
}
