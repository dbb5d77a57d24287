/** The route catalog and its manager (src/shared/RouteDefinitions.ts).
    `RouteDefinitions` is a module-level table that `updateRouteWaypoints`
    changes in place, so the catalog is an object here: `RouteCatalog`
    holds the table and the order its ids are visited in. */
module RouteDefinitions {
  import opened Wrappers
  import opened Vectors
  import opened Collections

  datatype StationStop = StationStop(name: string, waypointIndex: int, dwellTime: real, isTerminus: bool)

  /** Whole-journey time in minutes, per direction. */
  datatype DirectionalTiming = DirectionalTiming(forward: real, reverse: real)

  /** Seconds per segment, keyed by the 0-based waypoint index the segment
      starts at, per direction. */
  datatype SegmentTimeTables = SegmentTimeTables(forward: map<int, real>, reverse: map<int, real>)

  datatype OperatingHours = OperatingHours(start: int, end: int)

  /** `RouteDefinition`. `operator` is one of "Connect", "Metro",
      "Waterline", "AirLink", "Express", "Training"; `serviceType` one of
      "Local", "Express", "Non-Stop", "Circular". Optional fields are
      `Option`s; an absent `isTerminus` reads as false. */
  datatype RouteDefinition = RouteDefinition(
    routeNumber: string,
    displayName: string,
    operator: string,
    lineId: string,
    lineColor: Option<Color3>,
    worldWaypoints: seq<Vec3>,
    uiWaypoints: seq<Vec2>,
    depotPath: seq<Vec3>,
    depotSpawn: Vec3,
    mergePoint: int,
    stations: seq<StationStop>,
    serviceType: string,
    allowReverse: bool,
    journeyTime: DirectionalTiming,
    segmentTimes: Option<SegmentTimeTables>,
    maxSpeed: real,
    pointsPerMinute: real,
    allowedTrainClasses: Option<seq<string>>,
    baseFrequency: real,
    peakFrequency: Option<real>,
    operatingHours: OperatingHours)

  function R001(): RouteDefinition {
    RouteDefinition(
      "R001", "Stepford Central <> Airport Central", "Connect", "T1", Some(Color3(0.0, 0.5, 1.0)),
      [Vec3(0.0, 0.5, 0.0), Vec3(100.0, 0.5, 0.0), Vec3(200.0, 0.5, 0.0)],
      [Vec2(0.3, 0.5), Vec2(0.5, 0.5), Vec2(0.7, 0.5)],
      [Vec3(-50.0, 0.5, -20.0), Vec3(-25.0, 0.5, -10.0), Vec3(0.0, 0.5, 0.0)],
      Vec3(-50.0, 0.5, -25.0), 0,
      [StationStop("Stepford Central", 0, 1.0, false), StationStop("Airport Central", 2, 1.0, true)],
      "Express", true, DirectionalTiming(18.0, 18.0),
      Some(SegmentTimeTables(map[0 := 10.0, 1 := 8.0], map[0 := 8.0, 1 := 10.0])),
      40.0, 12.0, None, 10.0, Some(5.0), OperatingHours(5, 24))
  }

  function R029(): RouteDefinition {
    RouteDefinition(
      "R029", "Stepford Victoria <> Beechley", "Metro", "Metro1", Some(Color3(1.0, 0.0, 0.0)),
      [Vec3(-100.0, 0.5, 100.0), Vec3(-50.0, 0.5, 150.0)],
      [Vec2(0.2, 0.7), Vec2(0.4, 0.8)],
      [Vec3(-120.0, 0.5, 80.0), Vec3(-100.0, 0.5, 100.0)],
      Vec3(-125.0, 0.5, 75.0), 0,
      [StationStop("Stepford Victoria", 0, 20.0, false), StationStop("Beechley", 1, 20.0, true)],
      "Local", true, DirectionalTiming(4.0, 4.0),
      Some(SegmentTimeTables(map[0 := 4.0], map[0 := 4.0])),
      25.0, 18.0, None, 3.0, None, OperatingHours(6, 23))
  }

  function R026(): RouteDefinition {
    RouteDefinition(
      "R026", "Stepford Victoria <> Llyn-by-the-Sea", "Connect", "ConnectWest", Some(Color3(0.0, 0.8, 0.0)),
      [Vec3(-100.0, 0.5, 100.0), Vec3(-150.0, 0.5, 200.0), Vec3(-200.0, 0.5, 300.0), Vec3(-300.0, 0.5, 500.0)],
      [Vec2(0.25, 0.6), Vec2(0.15, 0.7), Vec2(0.1, 0.8), Vec2(0.05, 0.9)],
      [Vec3(-120.0, 0.5, 80.0), Vec3(-100.0, 0.5, 100.0)],
      Vec3(-125.0, 0.5, 75.0), 0,
      [StationStop("Stepford Victoria", 0, 30.0, false), StationStop("Llyn-by-the-Sea", 3, 30.0, true)],
      "Express", true, DirectionalTiming(34.0, 42.0),
      Some(SegmentTimeTables(map[0 := 10.0, 1 := 12.0, 2 := 12.0], map[0 := 14.0, 1 := 14.0, 2 := 14.0])),
      50.0, 15.0, Some(["Class68", "Class444"]), 20.0, None, OperatingHours(6, 22))
  }

  function R001X(): RouteDefinition {
    RouteDefinition(
      "R001X", "Stepford Central <> Airport Central (Express)", "Connect", "T1", Some(Color3(0.0, 0.5, 1.0)),
      [Vec3(0.0, 0.5, 0.0), Vec3(100.0, 0.5, 0.0), Vec3(200.0, 0.5, 0.0)],
      [Vec2(0.3, 0.5), Vec2(0.5, 0.5), Vec2(0.7, 0.5)],
      [Vec3(-50.0, 0.5, -20.0), Vec3(-25.0, 0.5, -10.0), Vec3(0.0, 0.5, 0.0)],
      Vec3(-50.0, 0.5, -25.0), 0,
      [StationStop("Stepford Central", 0, 20.0, false), StationStop("Airport Central", 2, 20.0, true)],
      "Express", true, DirectionalTiming(12.0, 12.0),
      Some(SegmentTimeTables(map[0 := 8.0, 1 := 6.0], map[0 := 6.0, 1 := 8.0])),
      50.0, 15.0, None, 15.0, None, OperatingHours(7, 22))
  }

  /** The shipped `RouteDefinitions` table. */
  function Catalog(): (m: map<string, RouteDefinition>)
    ensures m.Keys == {"R001", "R029", "R026", "R001X"}
    ensures forall id :: id in m ==> m[id].routeNumber == id
  {
    map["R001" := R001(), "R029" := R029(), "R026" := R026(), "R001X" := R001X()]
  }

  /** The order the table's ids are visited in. Luau's `pairs` leaves it
      unspecified; the model fixes declaration order. */
  function CatalogOrder(): seq<string> {
    ["R001", "R029", "R026", "R001X"]
  }

  /** What `validateRoute` checks: as many UI as world waypoints, and no
      station index at or past the world waypoint count. (A negative index
      is not rejected.) */
  predicate Consistent(r: RouteDefinition) {
    |r.worldWaypoints| == |r.uiWaypoints| &&
    forall i :: 0 <= i < |r.stations| ==> r.stations[i].waypointIndex < |r.worldWaypoints|
  }

  /** `getFrequency` on a known route: the peak frequency when it is peak
      time and that frequency is set and non-zero (a truthy number under roblox-ts),
      else the base frequency. */
  function RouteFrequency(r: RouteDefinition, isPeakHour: bool): (f: real)
    ensures isPeakHour && r.peakFrequency.Some? && r.peakFrequency.value != 0.0 ==> f == r.peakFrequency.value
    ensures !(isPeakHour && r.peakFrequency.Some? && r.peakFrequency.value != 0.0) ==> f == r.baseFrequency
  {
    if isPeakHour && r.peakFrequency.Some? && r.peakFrequency.value != 0.0 then r.peakFrequency.value
    else r.baseFrequency
  }

  /** Whether `getAvailableRoutes` keeps a route: a missing or empty
      operator (falsy under roblox-ts) keeps every route. */
  predicate Matches(op: Option<string>, r: RouteDefinition) {
    op.None? || op.value == "" || r.operator == op.value
  }

  /** The routes of `ids`, in that order, that `op` keeps. */
  function Selected(ids: seq<string>, routes: map<string, RouteDefinition>, op: Option<string>): seq<RouteDefinition>
    requires forall i :: 0 <= i < |ids| ==> ids[i] in routes
  {
    if ids == [] then []
    else
      var rest := Selected(ids[..|ids| - 1], routes, op);
      var r := routes[ids[|ids| - 1]];
      if Matches(op, r) then rest + [r] else rest
  }

  /** One more id of the enumeration: its route is appended when the
      filter keeps it. */
  lemma SelectedPrefixStep(ids: seq<string>, n: nat, routes: map<string, RouteDefinition>, op: Option<string>)
    requires n < |ids|
    requires forall i :: 0 <= i < |ids| ==> ids[i] in routes
    ensures Selected(ids[..n + 1], routes, op) ==
      if Matches(op, routes[ids[n]]) then Selected(ids[..n], routes, op) + [routes[ids[n]]]
      else Selected(ids[..n], routes, op)
  {
    assert ids[..n + 1][..n] == ids[..n];
  }

  /** Over an enumeration of the whole catalog, a route is selected iff it
      is in the catalog and the operator filter keeps it. */
  lemma SelectedFromCatalog(order: seq<string>, routes: map<string, RouteDefinition>, op: Option<string>)
    requires OrderedKeys(order, routes)
    ensures forall i :: 0 <= i < |order| ==> order[i] in routes
    ensures forall r :: r in Selected(order, routes, op) <==> r in routes.Values && Matches(op, r)
  {
    forall r
      ensures r in Selected(order, routes, op) <==> r in routes.Values && Matches(op, r)
    {
      SelectedMembers(order, routes, op, r);
      if r in routes.Values {
        var id :| id in routes && routes[id] == r;
        assert id in order;
        var i :| 0 <= i < |order| && order[i] == id;
        assert routes[order[i]] == r;
      }
    }
  }

  /** A route is selected iff it is the route of one of the ids and the
      operator filter keeps it. */
  lemma {:induction false} SelectedMembers(ids: seq<string>, routes: map<string, RouteDefinition>, op: Option<string>, r: RouteDefinition)
    requires forall i :: 0 <= i < |ids| ==> ids[i] in routes
    ensures r in Selected(ids, routes, op) <==>
      Matches(op, r) && exists i :: 0 <= i < |ids| && routes[ids[i]] == r
  {
    if ids != [] {
      var init := ids[..|ids| - 1];
      SelectedMembers(init, routes, op, r);
      if exists i :: 0 <= i < |init| && routes[init[i]] == r {
        var i :| 0 <= i < |init| && routes[init[i]] == r;
        assert routes[ids[i]] == r;
      }
      if exists i :: 0 <= i < |ids| && routes[ids[i]] == r {
        var i :| 0 <= i < |ids| && routes[ids[i]] == r;
        if i < |init| {
          assert routes[init[i]] == r;
        }
      }
    }
  }

  class RouteCatalog {
    var routes: map<string, RouteDefinition>
    /** Iteration order of `routes`' ids. */
    var order: seq<string>

    ghost predicate Valid()
      reads this
    {
      OrderedKeys(order, routes)
    }

    /** The catalog as shipped. */
    constructor()
      ensures Valid()
      ensures routes == Catalog() && order == CatalogOrder()
    {
      routes := Catalog();
      order := CatalogOrder();
    }

    /** `getRoute`. */
    function GetRoute(routeId: string): (r: Option<RouteDefinition>)
      reads this
      ensures r.Some? <==> routeId in routes
      ensures r.Some? ==> r.value == routes[routeId]
    {
      if routeId in routes then Some(routes[routeId]) else None
    }

    /** `isOperational`: false for an unknown route, otherwise whether the
        hour lies within the operating hours, both ends included. */
    function IsOperational(routeId: string, currentHour: int): (b: bool)
      reads this
      ensures b <==> (routeId in routes &&
        routes[routeId].operatingHours.start <= currentHour <= routes[routeId].operatingHours.end)
    {
      match GetRoute(routeId)
      case None => false
      case Some(route) => currentHour >= route.operatingHours.start && currentHour <= route.operatingHours.end
    }

    /** `getFrequency`: 10 minutes for an unknown route. */
    function GetFrequency(routeId: string, isPeakHour: bool): (f: real)
      reads this
      ensures routeId !in routes ==> f == 10.0
      ensures routeId in routes ==> f == RouteFrequency(routes[routeId], isPeakHour)
    {
      match GetRoute(routeId)
      case None => 10.0
      case Some(route) => RouteFrequency(route, isPeakHour)
    }

    /** The first loop of `getAvailableRoutes`: every route, in the
        enumeration order. */
    method RoutesInOrder() returns (all: seq<RouteDefinition>)
      requires Valid()
      ensures |all| == |order|
      ensures forall i :: 0 <= i < |order| ==> all[i] == routes[order[i]]
    {
      all := [];
      var n := 0;
      while n < |order|
        invariant 0 <= n <= |order|
        invariant |all| == n
        invariant forall i :: 0 <= i < n ==> all[i] == routes[order[i]]
      {
        all := all + [routes[order[n]]];
        n := n + 1;
      }
    }

    /** `getAvailableRoutes`: every route in iteration order, filtered by
        operator when one is given. */
    method GetAvailableRoutes(operator: Option<string>) returns (result: seq<RouteDefinition>)
      requires Valid()
      ensures result == Selected(order, routes, operator)
      ensures forall r :: r in result <==> r in routes.Values && Matches(operator, r)
    {
      var all := RoutesInOrder();
      if operator.Some? && operator.value != "" {
        result := [];
        var n := 0;
        while n < |all|
          invariant 0 <= n <= |all|
          invariant result == Selected(order[..n], routes, operator)
        {
          SelectedPrefixStep(order, n, routes, operator);
          if all[n].operator == operator.value {
            result := result + [all[n]];
          }
          n := n + 1;
        }
        assert order[..n] == order;
      } else {
        result := all;
        SelectAll(order, routes, operator);
      }
      SelectedFromCatalog(order, routes, operator);
    }

    /** `updateRouteWaypoints`: false and no change for an unknown id;
        otherwise both waypoint lists of that route are replaced. */
    method UpdateRouteWaypoints(routeId: string, worldWaypoints: seq<Vec3>, uiWaypoints: seq<Vec2>) returns (updated: bool)
      requires Valid()
      modifies this
      ensures Valid() && order == old(order)
      ensures updated <==> routeId in old(routes)
      ensures !updated ==> routes == old(routes)
      ensures updated ==> routes == old(routes)[routeId := old(routes)[routeId].(worldWaypoints := worldWaypoints, uiWaypoints := uiWaypoints)]
    {
      if routeId !in routes {
        return false;
      }
      var route := routes[routeId];
      routes := routes[routeId := route.(worldWaypoints := worldWaypoints, uiWaypoints := uiWaypoints)];
      return true;
    }

    /** `validateRoute`: false for an unknown route, otherwise whether it is
        consistent. */
    method ValidateRoute(routeId: string) returns (ok: bool)
      ensures ok <==> routeId in routes && Consistent(routes[routeId])
    {
      if routeId !in routes {
        return false;
      }
      var route := routes[routeId];
      if |route.worldWaypoints| != |route.uiWaypoints| {
        return false;
      }
      var n := 0;
      while n < |route.stations|
        invariant 0 <= n <= |route.stations|
        invariant forall i :: 0 <= i < n ==> route.stations[i].waypointIndex < |route.worldWaypoints|
      {
        if route.stations[n].waypointIndex >= |route.worldWaypoints| {
          return false;
        }
        n := n + 1;
      }
      return true;
    }
  }

  /** With no effective operator filter every id's route is selected, in
      order. */
  lemma {:induction false} SelectAll(ids: seq<string>, routes: map<string, RouteDefinition>, op: Option<string>)
    requires forall i :: 0 <= i < |ids| ==> ids[i] in routes
    requires op.None? || op.value == ""
    ensures |Selected(ids, routes, op)| == |ids|
    ensures forall i :: 0 <= i < |ids| ==> Selected(ids, routes, op)[i] == routes[ids[i]]
  {
    if ids != [] {
      SelectAll(ids[..|ids| - 1], routes, op);
    }
  }

  /** The catalog's entries, route by route. */
  lemma CatalogIs()
    ensures forall id :: id in Catalog() ==>
      (id == "R001" && Catalog()[id] == R001()) || (id == "R029" && Catalog()[id] == R029()) ||
      (id == "R026" && Catalog()[id] == R026()) || (id == "R001X" && Catalog()[id] == R001X())
  {
  }

  /** The world paths of the shipped routes. */
  lemma WorldPaths()
    ensures R001().worldWaypoints == [Vec3(0.0, 0.5, 0.0), Vec3(100.0, 0.5, 0.0), Vec3(200.0, 0.5, 0.0)]
    ensures R001X().worldWaypoints == R001().worldWaypoints
    ensures R029().worldWaypoints == [Vec3(-100.0, 0.5, 100.0), Vec3(-50.0, 0.5, 150.0)]
    ensures R026().worldWaypoints ==
      [Vec3(-100.0, 0.5, 100.0), Vec3(-150.0, 0.5, 200.0), Vec3(-200.0, 0.5, 300.0), Vec3(-300.0, 0.5, 500.0)]
  {
  }

  /** Every shipped route passes `validateRoute`'s checks, and the shipped
      iteration order lists each id once. */
  lemma CatalogConsistent()
    ensures forall id :: id in Catalog() ==> Consistent(Catalog()[id])
    ensures OrderedKeys(CatalogOrder(), Catalog())
  {
    assert Consistent(R001()) && Consistent(R029()) && Consistent(R026()) && Consistent(R001X());
  }
}
