# Trip planning and ELD log sheets

This project models the core of a trucking back end. Given a pickup and a dropoff, it plans a route and produces the driver's electronic logging device (ELD) daily log sheets for that route.

- `RouteService` (`route_service.dfy`) models `RouteService.calculate_route`.
  - It takes the distance between the two locations.
  - From it the method derives:
    - the driving time at 60 mph;
    - one rest period per started 11 hours of driving;
    - one fuel stop per started 1000 miles;
    - the list of route points: pickup, then the rest stops, then the fuel stops, then the dropoff.
  - The method `CalculateRoute` builds the list with loops (`AppendStops`). It is proved equal to the function `PlannedRoute`, which states the layout of the route.
- `EldService` (`eld_service.dfy`) models `ELDService.generate_log_sheets` and `ELDService.generate_log_entries`.
  - There is one sheet per started 11 hours of driving.
  - Each sheet carries:
    - driving, on-duty, off-duty and sleeper hours;
    - the 70-hour cycle hours used and remaining;
    - its share of the trip distance;
    - its fuel and rest stops;
    - two log entries: driving at 07:00 from the first route point, and off duty at 18:00 at "Rest Stop".
  - The methods `GenerateLogSheets` and `GenerateLogEntries` are proved equal to the functions `LogSheets` and `DayEntries`.
  - Lemmas add up the sheets:
    - the driving hours sum to the estimated driving time;
    - the per-sheet distances sum to the trip distance;
    - fuel stops fall on every other day;
    - there is one rest stop per day.
  - For a planned route, there are exactly as many sheets as rest periods.
- `Basics` (`basics.dfy`) holds `Option` for Python's `None`, `math.ceil`, `min`, and the decimal digits that f-strings print.

Modelling choices:
- Distances and hours are exact reals.
- A date is a day number counted from the start date.
- A clock time is minutes after midnight.

## Model

| member | source | states |
|---|---|---|
| Basics.Ceil | backend/eld_api/services.py:50 | the result is the least integer not below its argument (`math.ceil`) |
| Basics.Min | backend/eld_api/services.py:132-133 | the result is one of the two arguments and not above either |
| Basics.NatToString | backend/eld_api/services.py:73 | the decimal rendering of `i+1` is non-empty, all digits, and has no leading zero |
| Basics.NatToStringValue | backend/eld_api/services.py:73 | the digits printed for n spell n back (`DigitsValue(NatToString(n)) == n`), so the labels "Rest Stop i+1", "Fuel Stop i+1" and "Day d+1 - " show the right number |
| RouteService.EstimatedDrivingHours | backend/eld_api/services.py:41-42 | driving hours times 60 mph gives back the distance; a positive distance takes positive time |
| RouteService.RestPeriodsNeeded | backend/eld_api/services.py:44-50 | the number of rest periods is the least n with n·11 hours covering the driving time, and at least 1 for a positive distance |
| RouteService.FuelStopsNeeded | backend/eld_api/services.py:52-53 | the number of fuel stops is the least n with n·1000 miles covering the distance, and at least 1 for a positive distance |
| RouteService.StopDistance | backend/eld_api/services.py:70-75 | a stop's distance from the previous point is never negative |
| RouteService.PlannedRoute | backend/eld_api/services.py:55-105 | the route keeps the distance, the driving time, the rest and fuel counts; it has 2+rests+fuels points numbered 1..n in order, all with non-negative distances; pickup first (distance 0, 1 hour), then rest points (10 hours), then fuel points (0.5 hours), then the dropoff last (1 hour) |
| RouteService.PlannedRouteLabels | backend/eld_api/services.py:68-84 | rest point k is labelled "Rest Stop k" and fuel point k "Fuel Stop j" with j counted within the fuel stops, the number rendered by `NatToString` |
| RouteService.AppendStops | backend/eld_api/services.py:67-88 | the stop loop keeps the existing points and appends `count` stops, each numbered after the list length with label `prefix i+1` and its evenly placed distance |
| RouteService.CalculateRoute | backend/eld_api/services.py:35-105 | `None` exactly when the distance is missing or zero; otherwise the planned route for that distance, which does not depend on the current cycle hours |
| EldService.DaysNeeded | backend/eld_api/services.py:121-122 | the number of days is zero exactly when there is no driving time; otherwise it is the least n whose n·11 hours cover the driving time |
| EldService.ClockAfter | backend/eld_api/services.py:150-161 | a clock time is a minute of the day, lying the given whole hours after 06:00 while that stays within the day |
| EldService.DayEntries | backend/eld_api/services.py:147-169 | two entries: driving at 07:00 at the first route point, then off duty at 18:00 at "Rest Stop", 11 hours apart; both remarks start with "Day d+1 - " |
| EldService.GenerateLogEntries | backend/eld_api/services.py:147-169 | the entries the loop builds are the day's entries from the route's first point |
| EldService.DrivingHoursOn | backend/eld_api/services.py:132 | a day drives 11 hours when the trip outlasts it, otherwise what is left; that is positive and at most 11 on every day the trip reaches |
| EldService.OnDutyHoursOn | backend/eld_api/services.py:133 | on-duty hours are the day's driving hours plus 2 |
| EldService.SheetFor | backend/eld_api/services.py:128-142 | a sheet has the start date plus the day; driving in (0, 11] with exactly 11 before the last day and the remainder on the last; on-duty = driving + 2; off-duty 10; sleeper 0; cycle used = start + 11·day and used + remaining = 70; the day's distance share; fuel 1 on even days and 0 on odd; one rest stop; the day's entries |
| EldService.LogSheets | backend/eld_api/services.py:116-145 | there are ceil(est/11) sheets (none when est ≤ 0), every one laid out as above, on consecutive dates |
| EldService.GenerateLogSheets | backend/eld_api/services.py:116-145 | the loop builds exactly the sheets `LogSheets` describes |
| EldService.FullShiftsTotal | backend/eld_api/services.py:132 | sheets that all drive 11 hours drive 11 hours per sheet in total |
| EldService.EqualSharesTotal | backend/eld_api/services.py:138 | sheets carrying equal distance shares add up to the share times their count |
| EldService.AlternatingStopsTotal | backend/eld_api/services.py:139-140 | with fuel every other day from day one and one rest a day, n sheets hold ceil(n/2) fuel stops and n rest stops |
| EldService.LogSheetsDrivingTotal | backend/eld_api/services.py:122-133 | the driving hours of all sheets add up to the estimated driving time |
| EldService.ShareAndRemainderTotal | backend/eld_api/services.py:138 | equal shares with the remainder on the last sheet add up to the total |
| EldService.SharedDistanceTotal | backend/eld_api/services.py:138 | the per-sheet distances computed by the split formula add up to the total distance |
| EldService.LogSheetsDistanceTotal | backend/eld_api/services.py:118-138 | the distances of all sheets add up exactly to the trip distance |
| EldService.LogSheetsStopTotals | backend/eld_api/services.py:139-140 | a trip of n sheets records ceil(n/2) fuel stops and n rest stops |
| EldService.PlannedRouteSheets | backend/eld_api/services.py:50-53 | for a planned route, the number of sheets equals the route's rest periods, the sheets carry its whole driving time and distance, and every sheet's first entry is at the pickup |

## Left out

- Geocoding (`get_coordinates`, Nominatim) and `calculate_distance` (geodesic miles) call external services. The distance is a parameter of `CalculateRoute`: `None` when a location could not be resolved, and otherwise a number required to be non-negative, since a geodesic length never is negative.
- The `__init__` constructors only set the geocoder and the constants. The constants are module-level `const`s.
- `datetime.now()`: the start date is a parameter, and a date is a day number. The entry times do not depend on the current time, because `replace(hour=6, …)` pins them to 07:00 and 18:00, so they are constant minutes of the day.
- Floating-point rounding of Python floats (and any `Decimal` conversion downstream) is not modelled. All arithmetic is on exact reals, so sums such as the per-sheet distances come out exact.
- The trip record is reduced to its current cycle hours. Driver name and vehicle id are the fixed strings the code writes.
- RouteService.StopDistance: no claim is made that the waypoint distances add up to the trip distance. The formula `distance·progress/(count+1)` does not produce such a sum, and the code does not promise one.
- The cycle hours remaining are not clamped at zero, and nothing beyond what the code computes is claimed about hours-of-service rules: no 14-hour window, no 30-minute break, no 70-hour limit enforcement.
- EldService.GenerateLogSheets requires a non-empty route-point list whenever a sheet is generated. The code indexes `route_points[0]`, which raises on an empty list; `CalculateRoute` never produces one.
- The `Waypoint` location type exists in the data model but the planner never produces it.
- Views, serializers, URLs, PDF rendering, the front end and the keep-alive task are not part of this model.
