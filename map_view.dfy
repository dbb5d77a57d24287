/** The client mini-map (src/client/MapView.client.ts): the route lines
    drawn once at start-up, and for every broadcast the train icon's
    position on its route's UI polyline and the station ETA list beside it.
    GUI instances, tweens and the icon's rotation are not modelled; what is
    kept is the geometry and the text the callback computes. */
module MapView {
  import opened Wrappers
  import opened Vectors
  import opened Collections
  import opened RouteDefinitions
  import opened RouteShapes

  // ---------------------------------------------------------------------
  // Route lines

  /** `operatorColors`: one colour per operator, plus the legacy `Main`. */
  function OperatorColors(): (m: map<string, Color3>)
    ensures m.Keys == {"Connect", "Metro", "Waterline", "AirLink", "Express", "Training", "Main"}
  {
    map[
      "Connect" := Color3(0.0, 0.5, 1.0),
      "Metro" := Color3(1.0, 0.0, 0.0),
      "Waterline" := Color3(0.0, 0.8, 0.8),
      "AirLink" := Color3(1.0, 1.0, 0.0),
      "Express" := Color3(0.0, 0.5, 0.0),
      "Training" := Color3(0.7, 0.7, 0.7),
      "Main" := Color3(1.0, 1.0, 1.0)]
  }

  /** `operatorColors.Main`, the default colour. */
  function White(): Color3 {
    Color3(1.0, 1.0, 1.0)
  }

  /** The colour a route key is drawn in: a catalog route's own line colour,
      else its operator's colour, else white; a key that is not a catalog
      route takes the operator colour of the same name if there is one,
      else white. */
  function RouteColor(routeKey: string, routes: map<string, RouteDefinition>): (c: Color3)
    ensures routeKey in routes && routes[routeKey].lineColor.Some? ==>
      c == routes[routeKey].lineColor.value
    ensures routeKey in routes && routes[routeKey].lineColor.None? && routes[routeKey].operator in OperatorColors() ==>
      c == OperatorColors()[routes[routeKey].operator]
    ensures routeKey in routes && routes[routeKey].lineColor.None? && routes[routeKey].operator !in OperatorColors() ==>
      c == White()
    ensures routeKey !in routes && routeKey in OperatorColors() ==> c == OperatorColors()[routeKey]
    ensures routeKey !in routes && routeKey !in OperatorColors() ==> c == White()
    ensures c == White() || c in OperatorColors().Values ||
      (routeKey in routes && routes[routeKey].lineColor == Some(c))
  {
    if routeKey in routes then
      var def := routes[routeKey];
      if def.lineColor.Some? then def.lineColor.value
      else if def.operator in OperatorColors() then OperatorColors()[def.operator]
      else White()
    else if routeKey in OperatorColors() then OperatorColors()[routeKey]
    else White()
  }

  /** The catalog routes all carry their own colour, and the legacy `Main`
      shape, which is no catalog route, is drawn white. */
  lemma CatalogColors()
    ensures RouteColor("R001", Catalog()) == Color3(0.0, 0.5, 1.0)
    ensures RouteColor("R029", Catalog()) == Color3(1.0, 0.0, 0.0)
    ensures RouteColor("R026", Catalog()) == Color3(0.0, 0.8, 0.0)
    ensures RouteColor("R001X", Catalog()) == Color3(0.0, 0.5, 1.0)
    ensures RouteColor("Main", Catalog()) == White()
  {
    assert "Main" !in Catalog();
  }

  /** A `Path2D`: its name, thickness, colour and control points (the UI
      waypoints as scale offsets). */
  datatype RouteLine = RouteLine(name: string, thickness: int, color: Color3, controlPoints: seq<Vec2>)

  /** `createRouteLine`: no line for fewer than two points. */
  function CreateRouteLine(routeKey: string, uiWaypoints: seq<Vec2>, color: Color3): (r: Option<RouteLine>)
    ensures r.None? <==> |uiWaypoints| < 2
    ensures r.Some? ==> r.value.name == "RouteLine_" + routeKey && r.value.thickness == 3
    ensures r.Some? ==> r.value.color == color && r.value.controlPoints == uiWaypoints
  {
    if |uiWaypoints| < 2 then None
    else Some(RouteLine("RouteLine_" + routeKey, 3, color, uiWaypoints))
  }

  /** The start-up loop over the route shapes, in enumeration order
      `order`: every shape with at least two UI waypoints gets a line in its
      route's colour, and no other key does. */
  method DrawRouteLines(shapes: map<string, RouteShape>, order: seq<string>, routes: map<string, RouteDefinition>)
    returns (routePaths: map<string, RouteLine>)
    requires OrderedKeys(order, shapes)
    ensures forall k :: k in routePaths <==> k in shapes && |shapes[k].uiWaypoints| >= 2
    ensures forall k :: k in routePaths ==>
      Some(routePaths[k]) == CreateRouteLine(k, shapes[k].uiWaypoints, RouteColor(k, routes))
  {
    routePaths := map[];
    var n := 0;
    while n < |order|
      invariant 0 <= n <= |order|
      invariant forall k :: k in routePaths <==>
        (k in order[..n] && |shapes[k].uiWaypoints| >= 2)
      invariant forall k :: k in routePaths ==>
        Some(routePaths[k]) == CreateRouteLine(k, shapes[k].uiWaypoints, RouteColor(k, routes))
    {
      var routeKey := order[n];
      var color := RouteColor(routeKey, routes);
      var line := CreateRouteLine(routeKey, shapes[routeKey].uiWaypoints, color);
      if line.Some? {
        routePaths := routePaths[routeKey := line.value];
      }
      assert order[..n + 1] == order[..n] + [routeKey];
      n := n + 1;
    }
    assert order[..n] == order;
  }

  // ---------------------------------------------------------------------
  // Icon position

  /** Luau's `math.clamp(x, lo, hi)`, which raises an error when `hi < lo`. */
  function Clamp(x: int, lo: int, hi: int): (r: Option<int>)
    ensures r.None? <==> hi < lo
    ensures r.Some? ==> lo <= r.value <= hi
    ensures r.Some? ==> forall y :: lo <= y <= hi ==> Dist(r.value, x) <= Dist(y, x)
  {
    if hi < lo then None
    else if x < lo then Some(lo)
    else if x > hi then Some(hi)
    else Some(x)
  }

  function Dist(a: int, b: int): nat {
    if a < b then b - a else a - b
  }

  /** `uiToPixel`: UI scale coordinates to pixels of a map of `size`. */
  function UiToPixel(v: Vec2, size: Vec2): Vec2 {
    Vec2(v.x * size.x, v.y * size.y)
  }

  /** `A + (B - A) * t`. */
  function Interpolate(a: Vec2, b: Vec2, t: real): Vec2 {
    Add2(a, Scale2(Sub2(b, a), t))
  }

  /** The interpolation is the affine combination of its ends: `A` at
      `t = 0`, `B` at `t = 1`. */
  lemma InterpolateIsAffine(a: Vec2, b: Vec2, t: real)
    ensures Interpolate(a, b, t) == Vec2(a.x * (1.0 - t) + b.x * t, a.y * (1.0 - t) + b.y * t)
    ensures t == 0.0 ==> Interpolate(a, b, t) == a
    ensures t == 1.0 ==> Interpolate(a, b, t) == b
  {
    MulSub(a.x, b.x, t);
    MulSub(a.y, b.y, t);
  }

  lemma MulSub(p: real, q: real, t: real)
    ensures p + (q - p) * t == p * (1.0 - t) + q * t
  {
  }

  /** Where the callback puts the icon: nothing when the shape has no UI
      waypoints, a clamp error when it has exactly one, and otherwise the
      point at fraction `t` of the clamped segment. */
  datatype Placement = NoWaypoints | ClampError | Placed(clamped: int, pos: Vec2)

  function PlaceIcon(ui: seq<Vec2>, segIdx: int, t: real, size: Vec2): (p: Placement)
    ensures p == NoWaypoints <==> |ui| == 0
    ensures p == ClampError <==> |ui| == 1
    ensures p.Placed? ==> 1 <= p.clamped < |ui|
    ensures p.Placed? && 1 <= segIdx < |ui| ==> p.clamped == segIdx
    ensures p.Placed? && segIdx < 1 ==> p.clamped == 1
    ensures p.Placed? && segIdx >= |ui| ==> p.clamped == |ui| - 1
  {
    if |ui| == 0 then NoWaypoints
    else
      match Clamp(segIdx, 1, |ui| - 1)
      case None => ClampError
      case Some(c) =>
        Placed(c, Interpolate(UiToPixel(ui[c - 1], size), UiToPixel(ui[c], size), t))
  }

  /** A placed icon sits at the start of its clamped segment at `t = 0`, at
      its end at `t = 1`, and in between on the segment. */
  lemma PlacedOnSegment(ui: seq<Vec2>, segIdx: int, t: real, size: Vec2)
    requires PlaceIcon(ui, segIdx, t, size).Placed?
    ensures var p := PlaceIcon(ui, segIdx, t, size);
      var a := UiToPixel(ui[p.clamped - 1], size);
      var b := UiToPixel(ui[p.clamped], size);
      p.pos == Vec2(a.x * (1.0 - t) + b.x * t, a.y * (1.0 - t) + b.y * t) &&
      (t == 0.0 ==> p.pos == a) && (t == 1.0 ==> p.pos == b)
  {
    var p := PlaceIcon(ui, segIdx, t, size);
    InterpolateIsAffine(UiToPixel(ui[p.clamped - 1], size), UiToPixel(ui[p.clamped], size), t);
  }

  // ---------------------------------------------------------------------
  // ETA text

  /** The decimal digit for `d`. */
  function Digit(d: int): (c: char)
    requires 0 <= d < 10
    ensures c as int == '0' as int + d
  {
    "0123456789"[d]
  }

  /** Luau's `tostring` of a whole number that is not negative. */
  function NatToString(n: nat): (s: string)
    ensures |s| >= 1
    ensures forall i :: 0 <= i < |s| ==> '0' <= s[i] <= '9'
    ensures |s| == 1 <==> n < 10
    ensures n >= 10 ==> s[0] != '0'
    decreases n
  {
    if n < 10 then [Digit(n)] else NatToString(n / 10) + [Digit(n % 10)]
  }

  /** The number a string of decimal digits denotes. */
  function DecimalValue(s: string): int {
    if s == [] then 0 else DecimalValue(s[..|s| - 1]) * 10 + (s[|s| - 1] as int - '0' as int)
  }

  /** Reading the digits back gives the number. */
  lemma {:induction false} NatToStringValue(n: nat)
    ensures DecimalValue(NatToString(n)) == n
    decreases n
  {
    if n >= 10 {
      var s := NatToString(n);
      assert s[..|s| - 1] == NatToString(n / 10);
      NatToStringValue(n / 10);
    }
  }

  /** `eta % 60` with Luau's floored modulo. */
  function LuaMod60(eta: real): (r: real)
    ensures 0.0 <= r < 60.0
    ensures eta - r == 60.0 * ((eta / 60.0).Floor as real)
  {
    eta - 60.0 * ((eta / 60.0).Floor as real)
  }

  /** `math.floor(eta % 60)`. */
  function Seconds(eta: real): (s: nat)
    ensures s < 60
    ensures s as real <= LuaMod60(eta) < s as real + 1.0
  {
    LuaMod60(eta).Floor
  }

  /** The seconds field: two digits, zero-padded below ten. */
  function SecondsField(secs: nat): string {
    if secs < 10 then "0" + NatToString(secs) else NatToString(secs)
  }

  lemma SecondsFieldValue(secs: nat)
    requires secs < 60
    ensures |SecondsField(secs)| == 2
    ensures DecimalValue(SecondsField(secs)) == secs
  {
    NatToStringValue(secs);
    var f := SecondsField(secs);
    if secs < 10 {
      assert f[..1] == "0";
      assert f[..1][..0] == [];
    } else {
      assert secs < 100;
      assert secs / 10 < 10;
    }
  }

  /** The minutes shown for an ETA of a minute or more: the whole minutes,
      plus one from 40 seconds on. */
  function ShownMinutes(eta: real): (m: int)
    ensures 60.0 * (m as real) - 20.0 <= eta < 60.0 * (m as real) + 40.0
  {
    var mins := (eta / 60.0).Floor;
    assert eta - LuaMod60(eta) == 60.0 * (mins as real);
    if Seconds(eta) >= 40 then mins + 1 else mins
  }

  /** The label text for one station. */
  function FormatEta(name: string, eta: real): string {
    if eta < 60.0 then name + ": 0:" + SecondsField(Seconds(eta))
    else
      name + ": " + NatToString(ShownMinutes(eta)) + " min"
  }

  /** Under a minute the label reads `name: 0:ss` with the whole seconds
      in two digits. */
  lemma ShortEtaText(name: string, eta: real)
    requires 0.0 <= eta < 60.0
    ensures exists ss ::
      (FormatEta(name, eta) == name + ": 0:" + ss && |ss| == 2 && DecimalValue(ss) == eta.Floor)
  {
    assert (eta / 60.0).Floor == 0;
    SecondsFieldValue(Seconds(eta));
    var ss := SecondsField(Seconds(eta));
    assert FormatEta(name, eta) == name + ": 0:" + ss;
  }

  /** From a minute on the label reads `name: m min` with `m` at least 1
      and the ETA within 20 seconds below and 40 seconds above `m`
      minutes. */
  lemma LongEtaText(name: string, eta: real)
    requires eta >= 60.0
    ensures exists m: nat ::
      (FormatEta(name, eta) == name + ": " + NatToString(m) + " min" &&
       m >= 1 && DecimalValue(NatToString(m)) == m &&
       60.0 * (m as real) - 20.0 <= eta < 60.0 * (m as real) + 40.0)
  {
    var m := ShownMinutes(eta);
    assert m >= 1;
    NatToStringValue(m);
  }

  // ---------------------------------------------------------------------
  // ETA list

  datatype EtaEntry = EtaEntry(name: string, eta: real)

  /** The entries `pairs(stationETAs)` yields, in enumeration order
      `order`. */
  function EtaEntries(order: seq<string>, etas: map<string, real>): (r: seq<EtaEntry>)
    requires forall k :: k in order ==> k in etas
    ensures |r| == |order|
    ensures forall i :: 0 <= i < |r| ==> r[i] == EtaEntry(order[i], etas[order[i]])
  {
    if order == [] then [] else [EtaEntry(order[0], etas[order[0]])] + EtaEntries(order[1..], etas)
  }

  /** Listing the map in an enumeration order of its keys gives exactly
      its entries. */
  lemma EtaEntriesAreMap(order: seq<string>, etas: map<string, real>, e: EtaEntry)
    requires OrderedKeys(order, etas)
    ensures e in EtaEntries(order, etas) <==> e.name in etas && etas[e.name] == e.eta
  {
    var r := EtaEntries(order, etas);
    if e.name in etas && etas[e.name] == e.eta {
      var i :| 0 <= i < |order| && order[i] == e.name;
      assert r[i] == e;
    }
  }

  predicate SortedByEta(list: seq<EtaEntry>) {
    forall i, j :: 0 <= i < j < |list| ==> list[i].eta <= list[j].eta
  }

  /** Inserts `e` before the first entry with a larger ETA. */
  function InsertByEta(e: EtaEntry, list: seq<EtaEntry>): (r: seq<EtaEntry>)
    ensures multiset(r) == multiset(list) + multiset{e}
    ensures forall x :: x in r ==> x == e || x in list
  {
    if list == [] || e.eta < list[0].eta then [e] + list
    else
      assert list == [list[0]] + list[1..];
      [list[0]] + InsertByEta(e, list[1..])
  }

  lemma {:induction false} InsertByEtaSorted(e: EtaEntry, list: seq<EtaEntry>)
    requires SortedByEta(list)
    ensures SortedByEta(InsertByEta(e, list))
  {
    if list != [] && e.eta >= list[0].eta {
      InsertByEtaSorted(e, list[1..]);
      var rest := InsertByEta(e, list[1..]);
      assert forall x :: x in list[1..] ==> list[0].eta <= x.eta;
      var r := [list[0]] + rest;
      assert forall j :: 1 <= j < |r| ==> r[j] == rest[j - 1] && r[j] in rest;
    }
  }

  /** `list.sort((a, b) => a.eta < b.eta)`: ascending by ETA, a
      rearrangement of the list. */
  method SortByEta(list: seq<EtaEntry>) returns (sorted: seq<EtaEntry>)
    ensures SortedByEta(sorted)
    ensures multiset(sorted) == multiset(list)
  {
    sorted := [];
    var i := 0;
    while i < |list|
      invariant 0 <= i <= |list|
      invariant SortedByEta(sorted)
      invariant multiset(sorted) == multiset(list[..i])
    {
      assert list[..i + 1] == list[..i] + [list[i]];
      InsertByEtaSorted(list[i], sorted);
      sorted := InsertByEta(list[i], sorted);
      i := i + 1;
    }
    assert list[..i] == list;
  }

  /** One `TextLabel`: its text and its vertical offset in the frame. */
  datatype Label = Label(text: string, y: int)

  /** The station-list frame: its height and its labels. */
  datatype EtaFrame = EtaFrame(height: int, labels: seq<Label>)

  /** The label for entry `e` in row `i`. */
  function LabelFor(e: EtaEntry, i: int): Label {
    Label(FormatEta(e.name, e.eta), 20 * i)
  }

  /** The laid-out list: 20 pixels per station. */
  function Layout(list: seq<EtaEntry>): (f: EtaFrame)
    ensures f.height == 20 * |list| && |f.labels| == |list|
    ensures forall i :: 0 <= i < |list| ==> f.labels[i].text == FormatEta(list[i].name, list[i].eta)
    ensures forall i :: 0 <= i < |list| ==> 0 <= f.labels[i].y && f.labels[i].y + 20 <= f.height
    ensures forall i, j :: 0 <= i < j < |list| ==> f.labels[i].y + 20 <= f.labels[j].y
  {
    EtaFrame(20 * |list|, seq(|list|, i requires 0 <= i < |list| => LabelFor(list[i], i)))
  }

  /** The label loop. */
  method RenderEtaList(list: seq<EtaEntry>) returns (frame: EtaFrame)
    ensures frame == Layout(list)
  {
    var labels: seq<Label> := [];
    var i := 0;
    while i < |list|
      invariant 0 <= i <= |list|
      invariant |labels| == i
      invariant forall k :: 0 <= k < i ==> labels[k] == LabelFor(list[k], k)
    {
      var e := list[i];
      labels := labels + [Label(FormatEta(e.name, e.eta), i * 20)];
      assert labels[i] == LabelFor(list[i], i);
      i := i + 1;
    }
    frame := EtaFrame(|list| * 20, labels);
    assert labels == Layout(list).labels;
  }

  // ---------------------------------------------------------------------
  // The map

  /** `TrainIconData`: the icon's last position and its station list. */
  datatype TrainIcon = TrainIcon(last: Vec2, frame: EtaFrame)

  class MiniMap {
    const shapes: map<string, RouteShape>
    var routePaths: map<string, RouteLine>
    var icons: map<string, TrainIcon>

    ghost predicate Valid()
      reads this
    {
      "Main" in shapes
    }

    /** The shape a broadcast's key names, or `Main` when there is none. */
    function ShapeFor(shapeKey: string): (s: RouteShape)
      requires "Main" in shapes
      ensures shapeKey in shapes ==> s == shapes[shapeKey]
      ensures shapeKey !in shapes ==> s == shapes["Main"]
    {
      if shapeKey in shapes then shapes[shapeKey] else shapes["Main"]
    }

    /** Builds the map and draws the route lines. */
    constructor (shapes: map<string, RouteShape>, order: seq<string>, routes: map<string, RouteDefinition>)
      requires "Main" in shapes && OrderedKeys(order, shapes)
      ensures Valid() && this.shapes == shapes && icons == map[]
      ensures forall k :: k in routePaths <==> k in shapes && |shapes[k].uiWaypoints| >= 2
      ensures forall k :: k in routePaths ==>
        Some(routePaths[k]) == CreateRouteLine(k, shapes[k].uiWaypoints, RouteColor(k, routes))
    {
      this.shapes := shapes;
      icons := map[];
      new;
      routePaths := DrawRouteLines(shapes, order, routes);
    }

    /** The `MapUpdateEvent` callback. Nothing changes while the map has
        no width, when the shape has no UI waypoints, or when it has one
        (the clamp raises). Otherwise the train's icon, created on first
        sight, moves to the placed position and its list is redrawn from
        the ETAs sorted ascending; `shown` is that order. */
    method OnMapUpdate(trainName: string, segIdx: int, t: real, stationETAs: map<string, real>,
                       etaOrder: seq<string>, shapeKey: string, absoluteSize: Vec2)
      returns (shown: seq<EtaEntry>)
      requires Valid() && OrderedKeys(etaOrder, stationETAs)
      modifies this
      ensures Valid() && routePaths == old(routePaths)
      ensures absoluteSize.x == 0.0 || |ShapeFor(shapeKey).uiWaypoints| < 2 ==> icons == old(icons)
      ensures absoluteSize.x != 0.0 && |ShapeFor(shapeKey).uiWaypoints| >= 2 ==>
        icons == old(icons)[trainName := TrainIcon(PlaceIcon(ShapeFor(shapeKey).uiWaypoints, segIdx, t, absoluteSize).pos, Layout(shown))]
      ensures SortedByEta(shown) && multiset(shown) == multiset(EtaEntries(etaOrder, stationETAs))
    {
      var list := EtaEntries(etaOrder, stationETAs);
      shown := SortByEta(list);
      if absoluteSize.x == 0.0 {
        return;
      }
      var uiWaypoints := ShapeFor(shapeKey).uiWaypoints;
      var p := PlaceIcon(uiWaypoints, segIdx, t, absoluteSize);
      if !p.Placed? {
        return;
      }
      var frame := RenderEtaList(shown);
      icons := icons[trainName := TrainIcon(p.pos, frame)];
    }
  }
}
