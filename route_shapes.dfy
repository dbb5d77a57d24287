/** Route shapes as the broadcaster and the mini-map use them
    (src/shared/RouteShapes.ts): the legacy `Main` shape merged with one
    shape per catalog route. */
module RouteShapes {
  import opened Vectors
  import opened Collections
  import opened RouteDefinitions

  /** One entry of `RouteShapesType`. */
  datatype RouteShape = RouteShape(
    worldWaypoints: seq<Vec3>,
    uiWaypoints: seq<Vec2>,
    allowReverse: bool,
    stationIndices: map<string, int>)

  /** The legacy `Main` line. */
  function LegacyMain(): (s: RouteShape)
    ensures |s.worldWaypoints| == 4 && |s.uiWaypoints| == 4
    ensures !s.allowReverse
    ensures s.stationIndices == map["StationA" := 2]
  {
    RouteShape(
      [Vec3(196.7, 0.5, 270.8), Vec3(-18.192, 0.5, -86.013), Vec3(-293.0, 0.5, -86.909), Vec3(-565.855, 0.5, -86.909)],
      [Vec2(0.161, 0.8), Vec2(0.161, 0.6), Vec2(0.161, 0.4), Vec2(0.161, 0.2)],
      false,
      map["StationA" := 2])
  }

  /** `legacyRoutes`: the `Main` shape only. */
  function LegacyRoutes(): (m: map<string, RouteShape>)
    ensures m.Keys == {"Main"} && m["Main"] == LegacyMain()
  {
    map["Main" := LegacyMain()]
  }

  /** The characters Luau's `%s` class matches: space, tab, newline,
      vertical tab, form feed and carriage return. */
  predicate IsSpace(c: char) {
    c == ' ' || c == '\t' || c == '\n' || c == '\U{B}' || c == '\U{C}' || c == '\r'
  }

  /** `string.gsub(name, "%s+", "")`: the name with every whitespace run
      removed. */
  function StripWhitespace(s: string): (r: string)
    ensures |r| <= |s|
    ensures forall i :: 0 <= i < |r| ==> !IsSpace(r[i])
  {
    if s == [] then []
    else if IsSpace(s[0]) then StripWhitespace(s[1..])
    else [s[0]] + StripWhitespace(s[1..])
  }

  /** Stripping works character by character: the non-whitespace
      characters of `a + b` are those of `a` followed by those of `b`, so
      with the body's one-character cases (a space goes, any other
      character stays) every non-whitespace character is kept, in order. */
  lemma {:induction false} StripWhitespaceAppend(a: string, b: string)
    ensures StripWhitespace(a + b) == StripWhitespace(a) + StripWhitespace(b)
  {
    if a != [] {
      assert (a + b)[1..] == a[1..] + b;
      StripWhitespaceAppend(a[1..], b);
    } else {
      assert a + b == b;
    }
  }

  /** The one-character cases: whitespace is dropped, anything else kept. */
  lemma StripWhitespaceChar(c: char)
    ensures StripWhitespace([c]) == if IsSpace(c) then [] else [c]
  {
    assert [c][1..] == [];
  }

  /** Stripping removes exactly the whitespace: a name without whitespace
      is unchanged, so stripping twice is stripping once. */
  lemma {:induction false} StripWhitespaceKeepsClean(s: string)
    requires forall i :: 0 <= i < |s| ==> !IsSpace(s[i])
    ensures StripWhitespace(s) == s
  {
    if s != [] {
      StripWhitespaceKeepsClean(s[1..]);
    }
  }

  lemma StripWhitespaceIdempotent(s: string)
    ensures StripWhitespace(StripWhitespace(s)) == StripWhitespace(s)
  {
    StripWhitespaceKeepsClean(StripWhitespace(s));
  }

  /** The station-index table built from the stations, in order: each
      cleaned name maps to the waypoint of the last station with that
      name. */
  function IndexTable(stations: seq<StationStop>): map<string, int>
  {
    if stations == [] then map[]
    else
      var last := stations[|stations| - 1];
      IndexTable(stations[..|stations| - 1])[StripWhitespace(last.name) := last.waypointIndex]
  }

  /** The table's keys are exactly the cleaned station names. */
  lemma {:induction false} IndexTableKeys(stations: seq<StationStop>, key: string)
    ensures key in IndexTable(stations) <==>
      exists i :: 0 <= i < |stations| && StripWhitespace(stations[i].name) == key
  {
    if stations != [] {
      var init := stations[..|stations| - 1];
      IndexTableKeys(init, key);
      if exists i :: 0 <= i < |init| && StripWhitespace(init[i].name) == key {
        var i :| 0 <= i < |init| && StripWhitespace(init[i].name) == key;
        assert stations[i] == init[i];
      }
      if exists i :: 0 <= i < |stations| && StripWhitespace(stations[i].name) == key {
        var i :| 0 <= i < |stations| && StripWhitespace(stations[i].name) == key;
        if i < |init| {
          assert init[i] == stations[i];
        }
      }
    }
  }

  /** Last one wins: a station that no later station shares its cleaned
      name with gives that name its waypoint. */
  lemma {:induction false} IndexTableLastWins(stations: seq<StationStop>, i: int)
    requires 0 <= i < |stations|
    requires forall j :: i < j < |stations| ==> StripWhitespace(stations[j].name) != StripWhitespace(stations[i].name)
    ensures StripWhitespace(stations[i].name) in IndexTable(stations)
    ensures IndexTable(stations)[StripWhitespace(stations[i].name)] == stations[i].waypointIndex
  {
    var n := |stations| - 1;
    if i < n {
      var init := stations[..n];
      assert init[i] == stations[i];
      assert forall j :: i < j < |init| ==> init[j] == stations[j];
      IndexTableLastWins(init, i);
    }
  }

  /** The station loop of `generateSCRRouteShapes`. */
  method BuildStationIndices(stations: seq<StationStop>) returns (stationIndices: map<string, int>)
    ensures stationIndices == IndexTable(stations)
  {
    stationIndices := map[];
    var i := 0;
    while i < |stations|
      invariant 0 <= i <= |stations|
      invariant stationIndices == IndexTable(stations[..i])
    {
      var station := stations[i];
      var cleanName := StripWhitespace(station.name);
      assert stations[..i + 1][..i] == stations[..i];
      stationIndices := stationIndices[cleanName := station.waypointIndex];
      i := i + 1;
    }
    assert stations[..i] == stations;
  }

  /** The shape generated for one catalog route. */
  function ShapeOf(route: RouteDefinition): (s: RouteShape)
    ensures s.worldWaypoints == route.worldWaypoints && s.uiWaypoints == route.uiWaypoints
    ensures s.allowReverse == route.allowReverse
    ensures s.stationIndices == IndexTable(route.stations)
  {
    RouteShape(route.worldWaypoints, route.uiWaypoints, route.allowReverse, IndexTable(route.stations))
  }

  /** The generated shapes: one per catalog route, under the route's id. */
  function ScrShapes(routes: map<string, RouteDefinition>): (m: map<string, RouteShape>)
    ensures m.Keys == routes.Keys
  {
    map id | id in routes :: ShapeOf(routes[id])
  }

  /** `generateSCRRouteShapes`. */
  method GenerateSCRRouteShapes(catalog: RouteCatalog) returns (shapes: map<string, RouteShape>)
    requires catalog.Valid()
    ensures shapes == ScrShapes(catalog.routes)
  {
    shapes := map[];
    var n := 0;
    while n < |catalog.order|
      invariant 0 <= n <= |catalog.order|
      invariant shapes.Keys == set i | 0 <= i < n :: catalog.order[i]
      invariant forall id :: id in shapes ==> id in catalog.routes && shapes[id] == ShapeOf(catalog.routes[id])
    {
      var routeId := catalog.order[n];
      var route := catalog.routes[routeId];
      var stationIndices := BuildStationIndices(route.stations);
      shapes := shapes[routeId := RouteShape(route.worldWaypoints, route.uiWaypoints, route.allowReverse, stationIndices)];
      n := n + 1;
    }
    assert forall id :: id in catalog.routes ==> id in catalog.order;
  }

  /** `createIntegratedRouteShapes`: the legacy shapes, overridden key by
      key by the generated ones; `Main` is restored from the legacy table if
      it went missing (it cannot, since the legacy table has it). */
  method CreateIntegratedRouteShapes(catalog: RouteCatalog) returns (integrated: map<string, RouteShape>)
    requires catalog.Valid()
    ensures integrated.Keys == catalog.routes.Keys + {"Main"}
    ensures forall id :: id in integrated ==>
      integrated[id] == if id in catalog.routes then ShapeOf(catalog.routes[id]) else LegacyMain()
  {
    var scrRoutes := GenerateSCRRouteShapes(catalog);
    var order := catalog.order;
    integrated := map[];
    integrated := integrated["Main" := LegacyMain()];
    ghost var added: set<string> := {};
    var n := 0;
    while n < |order|
      invariant 0 <= n <= |order|
      invariant added == set i | 0 <= i < n :: order[i]
      invariant added <= scrRoutes.Keys
      invariant integrated.Keys == {"Main"} + added
      invariant forall id :: id in integrated ==>
        integrated[id] == if id in added then scrRoutes[id] else LegacyMain()
    {
      var routeKey := order[n];
      integrated := integrated[routeKey := scrRoutes[routeKey]];
      added := added + {routeKey};
      n := n + 1;
    }
    assert added == scrRoutes.Keys by {
      assert forall id :: id in scrRoutes ==> id in order;
    }
    if "Main" !in integrated {
      integrated := integrated["Main" := LegacyMain()];
    }
  }
}
