/** The ELD log generator: cuts a planned route's driving time into one daily
    log sheet per `MaxDrivingHours` driving hours and gives every sheet its
    hour totals, cycle hours, share of the distance, stop counters and two
    log entries. */
module EldService {
  import opened Basics
  import RouteService

  /** A log entry's duty status. */
  datatype DutyStatus = Driving | OnDuty | OffDuty | Sleeper

  /** One log entry; `time` is the minute of the day (0 is midnight). */
  datatype LogEntry = LogEntry(time: int, status: DutyStatus, location: string, remarks: string)

  /** One daily log sheet; `date` counts days from an arbitrary origin. */
  datatype LogSheet = LogSheet(
    date: int,
    driverName: string,
    vehicleId: string,
    drivingHours: real,
    onDutyHours: real,
    offDutyHours: real,
    sleeperHours: real,
    cycleHoursUsed: real,
    cycleHoursRemaining: real,
    totalDistance: real,
    fuelStops: int,
    restStops: int,
    entries: seq<LogEntry>)

  const MaxCycleHours: nat := 70
  const MaxDrivingHours: nat := 11
  const RequiredRestHours: nat := 10
  const MinutesPerDay: nat := 24 * 60
  /** Entries are timed from 06:00 of the day. */
  const BaseMinute: nat := 6 * 60
  const DefaultDriverName: string := "John Driver"
  const DefaultVehicleId: string := "Truck-001"

  /** The number of sheets: one per started block of `MaxDrivingHours` driving
      hours; a non-positive count gives an empty `range`, hence no sheet. */
  function DaysNeeded(estimatedHours: real): (n: nat)
    ensures n == 0 <==> estimatedHours <= 0.0
    ensures n > 0 ==> (n - 1) as real * MaxDrivingHours as real < estimatedHours
    ensures estimatedHours <= n as real * MaxDrivingHours as real || n == 0
  {
    var c := Ceil(estimatedHours / MaxDrivingHours as real);
    if c > 0 then c else 0
  }

  /** The clock time, as a minute of the day, `hours` hours after the base time. */
  function ClockAfter(hours: nat): (t: int)
    ensures 0 <= t < MinutesPerDay
    ensures BaseMinute + hours * 60 < MinutesPerDay ==> t - BaseMinute == hours * 60
  {
    (BaseMinute + hours * 60) % MinutesPerDay
  }

  /** The remark prefix `Day <n> - ` of the sheet for day `day` (0-based). */
  function DayLabel(day: nat): string
  {
    "Day " + NatToString(day + 1) + " - "
  }

  /** The two entries of every sheet: driving from the route's first point at
      07:00, then the required rest at 18:00, one full driving shift later. */
  function DayEntries(day: nat, firstLocation: string): (r: seq<LogEntry>)
    ensures |r| == 2
    ensures r[0].status == Driving && r[0].time == 7 * 60 && r[0].location == firstLocation
    ensures r[1].status == OffDuty && r[1].time == 18 * 60 && r[1].location == "Rest Stop"
    ensures r[1].time - r[0].time == MaxDrivingHours * 60
    ensures forall i :: 0 <= i < 2 ==> DayLabel(day) <= r[i].remarks
  {
    [LogEntry(ClockAfter(1), Driving, firstLocation, DayLabel(day) + "Start driving"),
     LogEntry(ClockAfter(MaxDrivingHours + 1), OffDuty, "Rest Stop", DayLabel(day) + "Required rest period")]
  }

  /** `generate_log_entries`: builds the day's entries by appending. */
  method GenerateLogEntries(day: nat, route: RouteService.RouteData) returns (entries: seq<LogEntry>)
    requires |route.routePoints| > 0
    ensures entries == DayEntries(day, route.routePoints[0].location)
  {
    entries := [];
    entries := entries + [LogEntry(ClockAfter(1), Driving, route.routePoints[0].location,
                                   DayLabel(day) + "Start driving")];
    entries := entries + [LogEntry(ClockAfter(MaxDrivingHours + 1), OffDuty, "Rest Stop",
                                   DayLabel(day) + "Required rest period")];
  }

  /** Driving hours on day `day`: a full shift, or what is left of the estimate. */
  function DrivingHoursOn(estimatedHours: real, day: nat): (h: real)
    ensures ((day + 1) * MaxDrivingHours) as real <= estimatedHours ==> h == MaxDrivingHours as real
    ensures (day * MaxDrivingHours) as real < estimatedHours ==> 0.0 < h <= MaxDrivingHours as real
    ensures estimatedHours <= ((day + 1) * MaxDrivingHours) as real ==>
              h == estimatedHours - (day * MaxDrivingHours) as real
  {
    Min(MaxDrivingHours as real, estimatedHours - (day * MaxDrivingHours) as real)
  }

  /** On-duty hours on day `day`: the same formula with two extra hours. */
  function OnDutyHoursOn(estimatedHours: real, day: nat): (h: real)
    ensures h == DrivingHoursOn(estimatedHours, day) + 2.0
  {
    Min((MaxDrivingHours + 2) as real, estimatedHours - (day * MaxDrivingHours) as real + 2.0)
  }

  /** Cycle hours used by day `day`: the starting hours plus a full shift per earlier day. */
  function CycleHoursUsedOn(currentCycleHours: real, day: nat): real
  {
    currentCycleHours + (day * MaxDrivingHours) as real
  }

  /** Day `day`'s share of the distance: an equal share, the last day taking the rest. */
  function DistanceOn(totalDistance: real, day: nat, days: nat): real
    requires day < days
  {
    if day < days - 1 then totalDistance / days as real
    else totalDistance - (totalDistance / days as real * (days - 1) as real)
  }

  /** Fuel every other day, starting with the first. */
  function FuelStopsOn(day: nat): int
  {
    if day % 2 == 0 then 1 else 0
  }

  /** The sheet for day `day` of a trip that takes `days` days. */
  function SheetFor(startDate: int, currentCycleHours: real, route: RouteService.RouteData, day: nat, days: nat): (s: LogSheet)
    requires days == DaysNeeded(route.estimatedDrivingHours)
    requires day < days
    requires |route.routePoints| > 0
    ensures s.date == startDate + day
    ensures 0.0 < s.drivingHours <= MaxDrivingHours as real
    ensures day < days - 1 ==> s.drivingHours == MaxDrivingHours as real
    ensures day == days - 1 ==> s.drivingHours == route.estimatedDrivingHours - (day * MaxDrivingHours) as real
    ensures s.onDutyHours == s.drivingHours + 2.0
    ensures s.offDutyHours == RequiredRestHours as real && s.sleeperHours == 0.0
    ensures s.cycleHoursUsed == currentCycleHours + (day * MaxDrivingHours) as real
    ensures s.cycleHoursUsed + s.cycleHoursRemaining == MaxCycleHours as real
    ensures s.totalDistance == DistanceOn(route.totalDistance, day, days)
    ensures s.fuelStops == (if day % 2 == 0 then 1 else 0) && s.restStops == 1
    ensures s.entries == DayEntries(day, route.routePoints[0].location)
  {
    var used := CycleHoursUsedOn(currentCycleHours, day);
    LogSheet(
      startDate + day, DefaultDriverName, DefaultVehicleId,
      DrivingHoursOn(route.estimatedDrivingHours, day),
      OnDutyHoursOn(route.estimatedDrivingHours, day),
      RequiredRestHours as real, 0.0,
      used, MaxCycleHours as real - used,
      DistanceOn(route.totalDistance, day, days),
      FuelStopsOn(day), 1,
      DayEntries(day, route.routePoints[0].location))
  }

  /** The log sheets generated for a route, for a trip whose driver starts
      with `currentCycleHours` hours used, dated from `startDate`. */
  function LogSheets(startDate: int, currentCycleHours: real, route: RouteService.RouteData): (r: seq<LogSheet>)
    requires DaysNeeded(route.estimatedDrivingHours) > 0 ==> |route.routePoints| > 0
    ensures |r| == DaysNeeded(route.estimatedDrivingHours)
    ensures forall k :: 0 <= k < |r| ==> r[k].date == startDate + k
    ensures forall k :: 0 <= k < |r| ==> 0.0 < r[k].drivingHours <= MaxDrivingHours as real
    ensures forall k :: 0 <= k < |r| - 1 ==> r[k].drivingHours == MaxDrivingHours as real
    ensures |r| > 0 ==> r[|r| - 1].drivingHours
                        == route.estimatedDrivingHours - ((|r| - 1) * MaxDrivingHours) as real
    ensures forall k :: 0 <= k < |r| ==>
              r[k].onDutyHours == r[k].drivingHours + 2.0 &&
              r[k].offDutyHours == RequiredRestHours as real && r[k].sleeperHours == 0.0
    ensures forall k :: 0 <= k < |r| ==>
              r[k].cycleHoursUsed == currentCycleHours + (k * MaxDrivingHours) as real &&
              r[k].cycleHoursUsed + r[k].cycleHoursRemaining == MaxCycleHours as real
    ensures forall k :: 0 <= k < |r| ==> r[k].totalDistance == DistanceOn(route.totalDistance, k, |r|)
    ensures forall k :: 0 <= k < |r| ==>
              r[k].fuelStops == (if k % 2 == 0 then 1 else 0) && r[k].restStops == 1
    ensures forall k :: 0 <= k < |r| ==> r[k].entries == DayEntries(k, route.routePoints[0].location)
  {
    var days := DaysNeeded(route.estimatedDrivingHours);
    seq(days, k requires 0 <= k < days => SheetFor(startDate, currentCycleHours, route, k, days))
  }

  /** `generate_log_sheets`: appends one sheet per day. */
  method GenerateLogSheets(startDate: int, currentCycleHours: real, route: RouteService.RouteData)
    returns (sheets: seq<LogSheet>)
    requires DaysNeeded(route.estimatedDrivingHours) > 0 ==> |route.routePoints| > 0
    ensures sheets == LogSheets(startDate, currentCycleHours, route)
  {
    var totalDistance := route.totalDistance;
    var estimatedHours := route.estimatedDrivingHours;
    var daysNeeded := DaysNeeded(estimatedHours);
    sheets := [];
    for day := 0 to daysNeeded
      invariant |sheets| == day
      invariant forall k :: 0 <= k < day ==>
                  sheets[k] == SheetFor(startDate, currentCycleHours, route, k, daysNeeded)
    {
      var used := CycleHoursUsedOn(currentCycleHours, day);
      var entries := GenerateLogEntries(day, route);
      var sheet := LogSheet(
        startDate + day, DefaultDriverName, DefaultVehicleId,
        DrivingHoursOn(estimatedHours, day),
        OnDutyHoursOn(estimatedHours, day),
        RequiredRestHours as real, 0.0,
        used, MaxCycleHours as real - used,
        DistanceOn(totalDistance, day, daysNeeded),
        FuelStopsOn(day), 1,
        entries);
      sheets := sheets + [sheet];
    }
  }

  /** Sums over the sheets, taken from the last sheet backwards. */
  function DrivingTotal(sheets: seq<LogSheet>): real
  {
    if sheets == [] then 0.0 else DrivingTotal(sheets[..|sheets| - 1]) + sheets[|sheets| - 1].drivingHours
  }

  function DistanceTotal(sheets: seq<LogSheet>): real
  {
    if sheets == [] then 0.0 else DistanceTotal(sheets[..|sheets| - 1]) + sheets[|sheets| - 1].totalDistance
  }

  function FuelStopTotal(sheets: seq<LogSheet>): int
  {
    if sheets == [] then 0 else FuelStopTotal(sheets[..|sheets| - 1]) + sheets[|sheets| - 1].fuelStops
  }

  function RestStopTotal(sheets: seq<LogSheet>): int
  {
    if sheets == [] then 0 else RestStopTotal(sheets[..|sheets| - 1]) + sheets[|sheets| - 1].restStops
  }

  /** Sheets that each log a full shift log one shift per sheet in total. */
  lemma {:induction false} FullShiftsTotal(sheets: seq<LogSheet>)
    requires forall j :: 0 <= j < |sheets| ==> sheets[j].drivingHours == MaxDrivingHours as real
    ensures DrivingTotal(sheets) == (|sheets| * MaxDrivingHours) as real
  {
    if sheets != [] {
      FullShiftsTotal(sheets[..|sheets| - 1]);
    }
  }

  /** Sheets that each log the same share of the distance log that share once per sheet. */
  lemma {:induction false} EqualSharesTotal(sheets: seq<LogSheet>, share: real, count: nat)
    requires |sheets| == count
    requires forall j :: 0 <= j < |sheets| ==> sheets[j].totalDistance == share
    ensures DistanceTotal(sheets) == share * count as real
  {
    if sheets != [] {
      EqualSharesTotal(sheets[..|sheets| - 1], share, count - 1);
    }
  }

  /** Sheets with one rest stop each and fuel on every other day, from the first. */
  lemma {:induction false} AlternatingStopsTotal(sheets: seq<LogSheet>)
    requires forall j :: 0 <= j < |sheets| ==> sheets[j].fuelStops == FuelStopsOn(j) && sheets[j].restStops == 1
    ensures FuelStopTotal(sheets) == (|sheets| + 1) / 2
    ensures RestStopTotal(sheets) == |sheets|
  {
    if sheets != [] {
      AlternatingStopsTotal(sheets[..|sheets| - 1]);
    }
  }

  /** The driving hours of all sheets add up to the estimated driving time. */
  lemma LogSheetsDrivingTotal(startDate: int, currentCycleHours: real, route: RouteService.RouteData)
    requires DaysNeeded(route.estimatedDrivingHours) > 0 ==> |route.routePoints| > 0
    requires route.estimatedDrivingHours >= 0.0
    ensures DrivingTotal(LogSheets(startDate, currentCycleHours, route)) == route.estimatedDrivingHours
  {
    var sheets := LogSheets(startDate, currentCycleHours, route);
    var n := |sheets|;
    if n > 0 {
      FullShiftsTotal(sheets[..n - 1]);
      assert sheets[n - 1].drivingHours == route.estimatedDrivingHours - ((n - 1) * MaxDrivingHours) as real;
    }
  }

  /** Equal shares on every sheet but the last, which takes the rest, add up to the total. */
  lemma SharedDistanceTotal(sheets: seq<LogSheet>, total: real)
    requires |sheets| > 0
    requires forall j :: 0 <= j < |sheets| ==> sheets[j].totalDistance == DistanceOn(total, j, |sheets|)
    ensures DistanceTotal(sheets) == total
  {
    var n := |sheets|;
    var share := total / n as real;
    assert forall j :: 0 <= j < n - 1 ==> sheets[j].totalDistance == share;
    ShareAndRemainderTotal(sheets, total, share);
  }

  /** Sheets that carry one equal share each, except the last, which carries
      what the others leave of the total, add up to the total. */
  lemma ShareAndRemainderTotal(sheets: seq<LogSheet>, total: real, share: real)
    requires |sheets| > 0
    requires forall j :: 0 <= j < |sheets| - 1 ==> sheets[j].totalDistance == share
    requires sheets[|sheets| - 1].totalDistance == total - share * (|sheets| - 1) as real
    ensures DistanceTotal(sheets) == total
  {
    var n := |sheets|;
    var earlier := sheets[..n - 1];
    EqualSharesTotal(earlier, share, n - 1);
    assert DistanceTotal(sheets) == DistanceTotal(earlier) + sheets[n - 1].totalDistance;
  }

  /** The per-sheet distances add up exactly to the trip distance. */
  lemma LogSheetsDistanceTotal(startDate: int, currentCycleHours: real, route: RouteService.RouteData)
    requires |route.routePoints| > 0
    requires route.estimatedDrivingHours > 0.0
    ensures DistanceTotal(LogSheets(startDate, currentCycleHours, route)) == route.totalDistance
  {
    SharedDistanceTotal(LogSheets(startDate, currentCycleHours, route), route.totalDistance);
  }

  /** Over a whole trip: one rest stop per sheet, fuel on half the sheets, rounded up. */
  lemma LogSheetsStopTotals(startDate: int, currentCycleHours: real, route: RouteService.RouteData)
    requires DaysNeeded(route.estimatedDrivingHours) > 0 ==> |route.routePoints| > 0
    ensures var n := |LogSheets(startDate, currentCycleHours, route)|;
            FuelStopTotal(LogSheets(startDate, currentCycleHours, route)) == (n + 1) / 2 &&
            RestStopTotal(LogSheets(startDate, currentCycleHours, route)) == n
  {
    AlternatingStopsTotal(LogSheets(startDate, currentCycleHours, route));
  }

  /** For a planned route, there is one sheet per rest period the planner
      counted, and the sheets carry the route's whole driving time and distance. */
  lemma PlannedRouteSheets(pickup: string, dropoff: string, distance: real, startDate: int, currentCycleHours: real)
    requires distance > 0.0
    ensures var route := RouteService.PlannedRoute(pickup, dropoff, distance);
            var sheets := LogSheets(startDate, currentCycleHours, route);
            |sheets| == route.restPeriodsNeeded &&
            DrivingTotal(sheets) == route.estimatedDrivingHours &&
            DistanceTotal(sheets) == distance &&
            (forall k :: 0 <= k < |sheets| ==> sheets[k].entries[0].location == pickup)
  {
    var route := RouteService.PlannedRoute(pickup, dropoff, distance);
    LogSheetsDrivingTotal(startDate, currentCycleHours, route);
    LogSheetsDistanceTotal(startDate, currentCycleHours, route);
  }
}
