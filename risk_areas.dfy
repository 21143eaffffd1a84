/**
 * The in-memory risk-area table of the alerts backend and the three views
 * that use it: the risk query, the crime report (which appends an area) and
 * the map view (which lists the areas inside a bounding box, or clears the
 * table).  HTTP responses are modelled by the `Response` datatype.
 */
module RiskAreas {
  import opened Wrappers
  import opened RiskScoring

  datatype Coordinate = Coordinate(latitude: real, longitude: real)

  /** One entry of `risk_areas`; `crimeType` is None when the entry has no such key. */
  datatype RiskArea = RiskArea(center: Coordinate, radius: real, riskLevel: Level, crimeType: Option<string>)

  /**
   * A query parameter or a request field after `float(...)`: absent, a
   * number, or a value that `float` rejects.
   */
  datatype Param = Missing | Given(value: real) | Malformed

  /** The `severity` field of a report: absent, an integer, or a non-number `>=` rejects. */
  datatype SeverityField = SeverityAbsent | SeverityNumber(n: int) | SeverityText

  /**
   * The raw `description` field: absent, a text, or a number (which the
   * serializer accepts and `":" in description` then rejects).
   */
  datatype DescriptionField = DescriptionAbsent | DescriptionText(text: string) | DescriptionNumber

  datatype CrimeReport = CrimeReport(
    latitude: Param,
    longitude: Param,
    description: DescriptionField,
    severity: SeverityField)

  datatype Response<T> = Ok(payload: T) | BadRequest(message: string) | ServerError(message: string)

  /** The `risk_area` part of a successful report response. */
  datatype ReportReceipt = ReportReceipt(riskCategory: Level, riskLevel: Level, crimeType: string)

  /** A point of the rendered circle, identified by its angle in degrees. */
  datatype PolygonPoint = PolygonPoint(angleDegrees: int)

  /** One entry of the map response. */
  datatype MapArea = MapArea(
    coordinates: seq<PolygonPoint>,
    riskLevel: Level,
    center: Coordinate,
    radius: real,
    crimeType: string)

  datatype Bounds = Bounds(neLat: real, neLng: real, swLat: real, swLng: real)

  /** Radius of an area created from a report, in km. */
  const ReportRadiusKm: real := 0.2

  // ---------------------------------------------------------------------
  // Pure parts of the crime report
  // ---------------------------------------------------------------------

  /** Risk level of a report: A for severity >= 4, B for 3, C for 2, D otherwise. */
  function LevelOfSeverity(severity: int): (l: Level)
    ensures Rank(l) == MinInt(3, MaxInt(0, severity - 1))
  {
    if severity >= 4 then A else if severity >= 3 then B else if severity >= 2 then C else D
  }

  /** A more severe report never gets a less dangerous level. */
  lemma LevelOfSeverityMonotone(s1: int, s2: int)
    requires s1 <= s2
    ensures Rank(LevelOfSeverity(s1)) <= Rank(LevelOfSeverity(s2))
  {
  }

  /** The text before the first `c`, or all of `s` when it has none. */
  function TakeUntil(s: string, c: char): (t: string)
    ensures |t| <= |s| && t == s[..|t|]
    ensures c !in t
    ensures |t| < |s| <==> c in s
    ensures |t| < |s| ==> s[|t|] == c
    decreases |s|
  {
    if s == [] then []
    else if s[0] == c then []
    else [s[0]] + TakeUntil(s[1..], c)
  }

  /** `description.split(":")[0]` when the description has a colon, otherwise "unknown". */
  function CrimeType(description: string): (t: string)
    ensures ':' !in t
    ensures ':' in description ==> |t| < |description| && t == description[..|t|] && description[|t|] == ':'
    ensures ':' !in description ==> t == "unknown"
  {
    if ':' in description then TakeUntil(description, ':') else "unknown"
  }

  /** The seeded table. */
  function InitialAreas(): (s: seq<RiskArea>)
    ensures |s| == 4 && WellFormed(s)
  {
    [
      RiskArea(Coordinate(32.505, -92.1239), 0.2, A, Some("unknown")),
      RiskArea(Coordinate(32.505224, -92.1239), 0.025, A, Some("test_area")),
      RiskArea(Coordinate(32.5293, -92.0745), 0.2, A, Some("unknown")),
      RiskArea(Coordinate(32.5285, -92.0739), 0.2, C, Some("unknown"))
    ]
  }

  /** The table's invariant: every area has a positive radius and a crime type. */
  predicate WellFormed(areas: seq<RiskArea>) {
    forall k :: 0 <= k < |areas| ==> areas[k].radius > 0.0 && areas[k].crimeType.Some?
  }

  /** The area a valid report adds to the table. */
  function ReportedArea(latitude: real, longitude: real, description: string, severity: int): (a: RiskArea)
    ensures a.center == Coordinate(latitude, longitude) && a.radius == ReportRadiusKm
    ensures a.riskLevel == LevelOfSeverity(severity) && a.crimeType == Some(CrimeType(description))
  {
    RiskArea(Coordinate(latitude, longitude), ReportRadiusKm, LevelOfSeverity(severity), Some(CrimeType(description)))
  }

  // ---------------------------------------------------------------------
  // Map view
  // ---------------------------------------------------------------------

  /** `float(query_params.get(name, 0))`: None when float rejects it. */
  function BoundOr0(p: Param): Option<real> {
    match p
    case Missing => Some(0.0)
    case Given(v) => Some(v)
    case Malformed => None
  }

  /** `v` is what bound `p` reads as: 0 when it is absent, its value when given, nothing when malformed. */
  predicate ReadsAs(p: Param, v: real) {
    BoundOr0(p) == Some(v)
  }

  predicate InBounds(c: Coordinate, b: Bounds) {
    b.swLat <= c.latitude <= b.neLat && b.swLng <= c.longitude <= b.neLng
  }

  /** The areas whose centre lies in the box, in table order. */
  function Visible(areas: seq<RiskArea>, b: Bounds): seq<RiskArea>
    decreases |areas|
  {
    if areas == [] then []
    else
      var init := Visible(areas[..|areas| - 1], b);
      var last := areas[|areas| - 1];
      if InBounds(last.center, b) then init + [last] else init
  }

  lemma {:induction false} VisibleAppend(xs: seq<RiskArea>, ys: seq<RiskArea>, b: Bounds)
    ensures Visible(xs + ys, b) == Visible(xs, b) + Visible(ys, b)
    decreases |ys|
  {
    if ys == [] {
      assert xs + ys == xs;
    } else {
      var ys' := ys[..|ys| - 1];
      VisibleAppend(xs, ys', b);
      assert (xs + ys)[..|xs + ys| - 1] == xs + ys';
      assert (xs + ys)[|xs + ys| - 1] == ys[|ys| - 1];
    }
  }

  /** Visible keeps exactly the areas inside the box. */
  lemma {:induction false} VisibleMembers(areas: seq<RiskArea>, b: Bounds)
    ensures forall a :: a in Visible(areas, b) <==> a in areas && InBounds(a.center, b)
    ensures |Visible(areas, b)| <= |areas|
    decreases |areas|
  {
    if areas != [] {
      var init := areas[..|areas| - 1];
      VisibleMembers(init, b);
      assert areas == init + [areas[|areas| - 1]];
    }
  }

  /** When every area is inside the box, Visible is the whole table. */
  lemma {:induction false} VisibleAll(areas: seq<RiskArea>, b: Bounds)
    requires forall k :: 0 <= k < |areas| ==> InBounds(areas[k].center, b)
    ensures Visible(areas, b) == areas
    decreases |areas|
  {
    if areas != [] {
      VisibleAll(areas[..|areas| - 1], b);
    }
  }

  /** A report made inside the box shows up last on the map; one outside changes nothing. */
  lemma ReportShowsOnMap(areas: seq<RiskArea>, a: RiskArea, b: Bounds)
    ensures Visible(areas + [a], b) ==
            Visible(areas, b) + (if InBounds(a.center, b) then [a] else [])
  {
  }

  /** The 36 points of a circle, one per 10 degrees. */
  predicate IsCirclePolygon(points: seq<PolygonPoint>) {
    |points| == 36 && forall k :: 0 <= k < |points| ==> points[k].angleDegrees == 10 * k
  }

  /** `m` is how the map view renders area `a`. */
  predicate Renders(m: MapArea, a: RiskArea) {
    && IsCirclePolygon(m.coordinates)
    && m.riskLevel == a.riskLevel
    && m.center == a.center
    && m.radius == a.radius
    && m.crimeType == a.crimeType.GetOr("unknown")
  }

  /** `for i in range(0, 360, 10)`: the circle's points. */
  method CirclePolygon() returns (points: seq<PolygonPoint>)
    ensures IsCirclePolygon(points)
  {
    points := [];
    var i := 0;
    while i < 360
      invariant 0 <= i <= 360 && i % 10 == 0
      invariant |points| == i / 10
      invariant forall k :: 0 <= k < |points| ==> points[k].angleDegrees == 10 * k
    {
      points := points + [PolygonPoint(i)];
      i := i + 10;
    }
  }

  // ---------------------------------------------------------------------
  // The table
  // ---------------------------------------------------------------------

  /** The module-level `risk_areas` list shared by the views. */
  class RiskAreaTable {
    var areas: seq<RiskArea>

    ghost predicate Valid()
      reads this
    {
      WellFormed(areas)
    }

    /** The table as seeded at import time. */
    constructor ()
      ensures Valid()
      ensures areas == InitialAreas()
    {
      areas := InitialAreas();
    }

    /**
     * RiskAreaAPIView.get: `lat` and `lon` are required and all three
     * parameters must be numbers (`radius` defaults to 1.0); the answer is the
     * whole table, whatever the parameters.
     */
    function QueryRiskAreas(lat: Param, lon: Param, radius: Param): (r: Response<seq<RiskArea>>)
      reads this
      ensures !r.ServerError?
      ensures r.BadRequest? <==> (lat.Missing? || lon.Missing? || lat.Malformed? || lon.Malformed? || radius.Malformed?)
      ensures r.BadRequest? && (lat.Missing? || lon.Missing?) ==>
                r.message == "Please provide 'lat' and 'lon' query parameters."
      ensures r.BadRequest? && !(lat.Missing? || lon.Missing?) ==>
                r.message == "'lat', 'lon', and 'radius' must be numeric."
      ensures r.Ok? ==> r.payload == areas
    {
      if lat.Missing? || lon.Missing? then
        BadRequest("Please provide 'lat' and 'lon' query parameters.")
      else if lat.Malformed? || lon.Malformed? || radius.Malformed? then
        BadRequest("'lat', 'lon', and 'radius' must be numeric.")
      else
        Ok(areas)
    }

    /**
     * ReportCrimeAPIView.post.  `serializerAccepts` is the outcome of the
     * incident serializer's validation.  A valid report appends one area of
     * radius 0.2 km at the report's position, with the level of its severity
     * (default 1) and the crime type of its description (default "").
     * A description that is a number fails like a bad coordinate.
     */
    method ReportCrime(report: CrimeReport, serializerAccepts: bool) returns (resp: Response<ReportReceipt>)
      requires Valid()
      modifies this
      ensures Valid()
      ensures !resp.ServerError?
      ensures resp.Ok? <==>
                serializerAccepts && report.latitude.Given? && report.longitude.Given? &&
                !report.description.DescriptionNumber? && !report.severity.SeverityText?
      ensures !serializerAccepts ==> resp == BadRequest("invalid crime report")
      ensures serializerAccepts && !resp.Ok? ==> resp == BadRequest("Invalid latitude or longitude")
      ensures !resp.Ok? ==> areas == old(areas)
      ensures resp.Ok? ==>
                var severity := if report.severity.SeverityNumber? then report.severity.n else 1;
                var description := if report.description.DescriptionText? then report.description.text else "";
                var level := LevelOfSeverity(severity);
                && areas == old(areas) + [ReportedArea(report.latitude.value, report.longitude.value, description, severity)]
                && resp.payload == ReportReceipt(level, level, CrimeType(description))
    {
      if !serializerAccepts {
        return BadRequest("invalid crime report");
      }
      if !report.latitude.Given? || !report.longitude.Given? ||
         report.description.DescriptionNumber? || report.severity.SeverityText? {
        return BadRequest("Invalid latitude or longitude");
      }
      var userLat := report.latitude.value;
      var userLon := report.longitude.value;
      var description := if report.description.DescriptionText? then report.description.text else "";
      var severity := if report.severity.SeverityNumber? then report.severity.n else 1;
      var area := ReportedArea(userLat, userLon, description, severity);
      areas := areas + [area];
      resp := Ok(ReportReceipt(area.riskLevel, area.riskLevel, area.crimeType.value));
    }

    /**
     * MapRiskAreasAPIView.get: the areas whose centre lies in the box, in
     * table order, each with its 36-point circle; a bound that is not a
     * number is a server error.  The table is not changed.
     */
    method MapRiskAreas(neLat: Param, neLng: Param, swLat: Param, swLng: Param)
      returns (resp: Response<seq<MapArea>>)
      requires Valid()
      ensures !resp.BadRequest?
      ensures resp.ServerError? <==> (neLat.Malformed? || neLng.Malformed? || swLat.Malformed? || swLng.Malformed?)
      ensures resp.ServerError? ==> resp.message == "An error occurred while fetching risk areas"
      ensures resp.Ok? ==>
                forall box: Bounds | ReadsAs(neLat, box.neLat) && ReadsAs(neLng, box.neLng) &&
                                     ReadsAs(swLat, box.swLat) && ReadsAs(swLng, box.swLng) ::
                  var visible := Visible(areas, box);
                  && |resp.payload| == |visible|
                  && forall k :: 0 <= k < |visible| ==>
                       Renders(resp.payload[k], visible[k]) &&
                       visible[k].crimeType == Some(resp.payload[k].crimeType) &&
                       resp.payload[k].radius > 0.0
    {
      if neLat.Malformed? || neLng.Malformed? || swLat.Malformed? || swLng.Malformed? {
        return ServerError("An error occurred while fetching risk areas");
      }
      var b := Bounds(BoundOr0(neLat).value, BoundOr0(neLng).value, BoundOr0(swLat).value, BoundOr0(swLng).value);
      var result: seq<MapArea> := [];
      var i := 0;
      while i < |areas|
        invariant 0 <= i <= |areas|
        invariant |result| == |Visible(areas[..i], b)|
        invariant forall k :: 0 <= k < |result| ==> Renders(result[k], Visible(areas[..i], b)[k])
      {
        var area := areas[i];
        ReportShowsOnMap(areas[..i], area, b);
        assert areas[..i + 1] == areas[..i] + [area];
        if InBounds(area.center, b) {
          var points := CirclePolygon();
          result := result + [MapArea(points, area.riskLevel, area.center, area.radius, area.crimeType.GetOr("unknown"))];
        } else {
          assert Visible(areas[..i], b) + [] == Visible(areas[..i], b);
        }
        i := i + 1;
      }
      assert areas[..i] == areas;
      VisibleMembers(areas, b);
      forall k | 0 <= k < |result|
        ensures Visible(areas, b)[k].crimeType == Some(result[k].crimeType) && result[k].radius > 0.0
      {
        var v := Visible(areas, b);
        assert v[k] in v;
      }
      resp := Ok(result);
    }

    /** MapRiskAreasAPIView.delete: empty the table. */
    method DeleteRiskAreas() returns (resp: Response<string>)
      requires Valid()
      modifies this
      ensures Valid()
      ensures areas == []
      ensures resp == Ok("Successfully cleared all risk areas")
    {
      areas := [];
      resp := Ok("Successfully cleared all risk areas");
    }
  }
}
