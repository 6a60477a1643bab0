/**
 * Geographic elements of syndication feeds (`GeoFeedMixin`): GeoRSS Simple
 * (georss.org 1.0, "simple" profile) and the W3C Basic Geo (WGS84 lat/long)
 * vocabulary. Coordinates are numbers whose `%f` rendering is passed in;
 * the XML handler is a `Handler` that records the quick elements added to it.
 */
module GeoFeeds {
  import opened Wrappers
  import opened Text

  /** An `(x, y)` coordinate: longitude first, as geometries store it. */
  datatype Coord = Coord(x: real, y: real)

  /** `handler.addQuickElement(name, contents)`. */
  datatype Element = Element(name: string, contents: string)

  datatype FeedError = ValueError(message: string) | IndexError

  /** The XML handler: the quick elements written so far. */
  class Handler {
    var elements: seq<Element>

    constructor ()
      ensures elements == []
    {
      elements := [];
    }

    method AddQuickElement(name: string, contents: string)
      modifies this
      ensures elements == old(elements) + [Element(name, contents)]
    {
      elements := elements + [Element(name, contents)];
    }
  }

  /** `'%f %f' % (coord[1], coord[0])`: latitude, then longitude. */
  function LatLon(c: Coord, fmt: real -> string): string {
    fmt(c.y) + " " + fmt(c.x)
  }

  function LatLonStrings(coords: seq<Coord>, fmt: real -> string): (r: seq<string>)
    ensures |r| == |coords|
    ensures forall i :: 0 <= i < |coords| ==> r[i] == LatLon(coords[i], fmt)
  {
    if coords == [] then [] else [LatLon(coords[0], fmt)] + LatLonStrings(coords[1..], fmt)
  }

  /** `georss_coords`: the coordinate pairs in lat/lon order, joined by single spaces. */
  function GeorssCoords(coords: seq<Coord>, fmt: real -> string): string {
    JoinSpace(LatLonStrings(coords, fmt))
  }

  /** The numbers of the coordinates in output order: `y0 x0 y1 x1 ...`. */
  function LatLonWords(coords: seq<Coord>, fmt: real -> string): (ws: seq<string>)
    ensures |ws| == 2 * |coords|
  {
    if coords == [] then [] else [fmt(coords[0].y), fmt(coords[0].x)] + LatLonWords(coords[1..], fmt)
  }

  lemma {:induction false} GeorssCoordsWords(coords: seq<Coord>, fmt: real -> string)
    ensures GeorssCoords(coords, fmt) == JoinSpace(LatLonWords(coords, fmt))
    decreases |coords|
  {
    if |coords| == 1 {
      assert LatLonStrings(coords, fmt) == [LatLon(coords[0], fmt)];
      assert LatLonWords(coords, fmt) == [fmt(coords[0].y), fmt(coords[0].x)];
    } else if |coords| > 1 {
      var c := coords[0];
      var rest := coords[1..];
      GeorssCoordsWords(rest, fmt);
      assert LatLonStrings(coords, fmt) == [LatLon(c, fmt)] + LatLonStrings(rest, fmt);
      JoinSpaceAppend([LatLon(c, fmt)], LatLonStrings(rest, fmt));
      JoinSpaceAppend([fmt(c.y), fmt(c.x)], LatLonWords(rest, fmt));
    }
  }

  /** `%f` renders every number as one non-empty run of non-space characters. */
  ghost predicate WordFormat(fmt: real -> string) {
    forall v: real :: fmt(v) != "" && HasNoSpace(fmt(v))
  }

  /**
   * Read back word by word, the GeoRSS coordinate text is each pair's
   * latitude then longitude, pairs in input order, nothing else.
   */
  lemma GeorssCoordsSplit(coords: seq<Coord>, fmt: real -> string)
    requires WordFormat(fmt)
    ensures Split(GeorssCoords(coords, fmt)) == LatLonWords(coords, fmt)
    ensures forall i :: 0 <= i < |coords| ==>
              LatLonWords(coords, fmt)[2 * i] == fmt(coords[i].y)
              && LatLonWords(coords, fmt)[2 * i + 1] == fmt(coords[i].x)
  {
    GeorssCoordsWords(coords, fmt);
    LatLonWordsAreWords(coords, fmt);
    SplitJoinSpace(LatLonWords(coords, fmt));
  }

  lemma {:induction false} LatLonWordsAreWords(coords: seq<Coord>, fmt: real -> string)
    requires WordFormat(fmt)
    ensures var ws := LatLonWords(coords, fmt);
            forall i :: 0 <= i < |ws| ==> |ws[i]| > 0 && HasNoSpace(ws[i])
    ensures forall i :: 0 <= i < |coords| ==>
              LatLonWords(coords, fmt)[2 * i] == fmt(coords[i].y)
              && LatLonWords(coords, fmt)[2 * i + 1] == fmt(coords[i].x)
    decreases |coords|
  {
    if coords != [] {
      LatLonWordsAreWords(coords[1..], fmt);
      var ws := LatLonWords(coords, fmt);
      assert ws == [fmt(coords[0].y), fmt(coords[0].x)] + LatLonWords(coords[1..], fmt);
      forall i | 1 <= i < |coords|
        ensures ws[2 * i] == fmt(coords[i].y) && ws[2 * i + 1] == fmt(coords[i].x)
      {
        assert coords[1..][i - 1] == coords[i];
      }
    }
  }

  /** `add_georss_point`: the elements for a point at `(lon, lat)`. */
  function PointElements(c: Coord, w3cGeo: bool, fmt: real -> string): (es: seq<Element>)
    ensures w3cGeo ==> es == [Element("geo:lat", fmt(c.y)), Element("geo:lon", fmt(c.x))]
    ensures !w3cGeo ==> es == [Element("georss:point", fmt(c.y) + " " + fmt(c.x))]
  {
    if w3cGeo then [Element("geo:lat", fmt(c.y)), Element("geo:lon", fmt(c.x))]
    else [Element("georss:point", GeorssCoords([c], fmt))]
  }

  /**
   * `item.get('geometry')`: absent (or `None`), a plain list or tuple of
   * numbers, a list or tuple of coordinate tuples, or a geometry object with
   * its type name, its coordinates (one for a point), and its rings (the
   * exterior ring first, for a polygon).
   */
  datatype Geometry =
    | NoGeometry
    | FlatTuple(values: seq<real>)
    | NestedTuple(tuples: seq<seq<real>>)
    | GeometryObject(geomType: string, coords: seq<Coord>, rings: seq<seq<Coord>>)

  const TwoSetsOnly := "Only should be two sets of coordinates."
  const TwoOrFourOnly := "Only should be 2 or 4 numeric elements."
  const NoBoxInW3C := "Cannot use simple GeoRSS box in W3C Geo feeds."
  const W3CPointsOnly := "W3C Geo only supports Point geometries."
  /** `lon, lat = coords[:2]` on a point without coordinates. */
  const NotEnoughToUnpack := "not enough values to unpack (expected 2, got 0)"

  function Unsupported(geomType: string): string {
    "Geometry type \"" + geomType + "\" not supported."
  }

  /** A box given as coordinate tuples: each needs an x and a y (`coord[1]`, `coord[0]`). */
  function BoxElements(box: seq<seq<real>>, w3cGeo: bool, fmt: real -> string): (r: Result<seq<Element>, FeedError>)
    requires |box| == 2
    ensures w3cGeo ==> r == Err(ValueError(NoBoxInW3C))
    ensures !w3cGeo && |box[0]| >= 2 && |box[1]| >= 2 ==>
              r == Ok([Element("georss:box", GeorssCoords([Coord(box[0][0], box[0][1]), Coord(box[1][0], box[1][1])], fmt))])
    ensures !w3cGeo && (|box[0]| < 2 || |box[1]| < 2) ==> r == Err(IndexError)
  {
    if w3cGeo then Err(ValueError(NoBoxInW3C))
    else if |box[0]| < 2 || |box[1]| < 2 then Err(IndexError)
    else Ok([Element("georss:box", GeorssCoords([Coord(box[0][0], box[0][1]), Coord(box[1][0], box[1][1])], fmt))])
  }

  /**
   * `add_georss_element`: the elements added for an item's geometry, or the
   * exception raised before any is added. At most two elements are added,
   * two only for a W3C point; W3C feeds accept points only; the GeoRSS
   * element is chosen by the geometry's shape.
   */
  function GeoElements(geom: Geometry, w3cGeo: bool, fmt: real -> string): (r: Result<seq<Element>, FeedError>)
    ensures geom == NoGeometry ==> r == Ok([])
    ensures r.Ok? ==> |r.value| <= 2
    ensures r.Ok? && |r.value| == 2 ==> w3cGeo && r.value[0].name == "geo:lat" && r.value[1].name == "geo:lon"
    ensures geom.FlatTuple? && |geom.values| !in {0, 2, 4} ==> r == Err(ValueError(TwoOrFourOnly))
    ensures geom.NestedTuple? && |geom.tuples| !in {0, 2} ==> r == Err(ValueError(TwoSetsOnly))
    ensures w3cGeo && geom.FlatTuple? && |geom.values| == 4 ==> r == Err(ValueError(NoBoxInW3C))
    ensures w3cGeo && geom.NestedTuple? && |geom.tuples| == 2 ==> r == Err(ValueError(NoBoxInW3C))
    ensures w3cGeo && geom.GeometryObject? && Lower(geom.geomType) != "point" ==> r == Err(ValueError(W3CPointsOnly))
    ensures !w3cGeo && geom.GeometryObject? && Lower(geom.geomType) in {"linestring", "linearring"} ==>
              r == Ok([Element("georss:line", GeorssCoords(geom.coords, fmt))])
    ensures !w3cGeo && geom.GeometryObject? && Lower(geom.geomType) == "polygon" && geom.rings != [] ==>
              r == Ok([Element("georss:polygon", GeorssCoords(geom.rings[0], fmt))])
    ensures geom.FlatTuple? && |geom.values| == 2 ==>
              r == Ok(PointElements(Coord(geom.values[0], geom.values[1]), w3cGeo, fmt))
    ensures geom.FlatTuple? && |geom.values| == 4 ==>
              r == BoxElements([geom.values[..2], geom.values[2..]], w3cGeo, fmt)
    ensures geom.NestedTuple? && |geom.tuples| == 2 ==> r == BoxElements(geom.tuples, w3cGeo, fmt)
    ensures geom.GeometryObject? && Lower(geom.geomType) == "point" && geom.coords != [] ==>
              r == Ok(PointElements(geom.coords[0], w3cGeo, fmt))
    ensures !w3cGeo && geom.GeometryObject? && Lower(geom.geomType) !in {"point", "linestring", "linearring", "polygon"} ==>
              r == Err(ValueError(Unsupported(geom.geomType)))
    ensures geom.GeometryObject? && Lower(geom.geomType) !in {"point", "linestring", "linearring", "polygon"} ==>
              r.Err? && r.error.ValueError?
    ensures geom.FlatTuple? && geom.values == [] ==> r == Err(IndexError)
    ensures geom.NestedTuple? && geom.tuples == [] ==> r == Err(IndexError)
    ensures w3cGeo && geom.GeometryObject? && Lower(geom.geomType) == "point" && geom.coords == [] ==>
              r == Err(ValueError(NotEnoughToUnpack))
    ensures !w3cGeo && geom.GeometryObject? && Lower(geom.geomType) == "point" && geom.coords == [] ==>
              r == Err(IndexError)
    ensures !w3cGeo && geom.GeometryObject? && Lower(geom.geomType) == "polygon" && geom.rings == [] ==>
              r == Err(IndexError)
  {
    match geom
    case NoGeometry => Ok([])
    case FlatTuple(vs) =>
      if |vs| == 0 then Err(IndexError)
      else if |vs| == 2 then Ok(PointElements(Coord(vs[0], vs[1]), w3cGeo, fmt))
      else if |vs| == 4 then BoxElements([vs[..2], vs[2..]], w3cGeo, fmt)
      else Err(ValueError(TwoOrFourOnly))
    case NestedTuple(ts) =>
      if |ts| == 0 then Err(IndexError)
      else if |ts| == 2 then BoxElements(ts, w3cGeo, fmt)
      else Err(ValueError(TwoSetsOnly))
    case GeometryObject(geomType, coords, rings) =>
      var gtype := Lower(geomType);
      if gtype == "point" then
        if |coords| == 0 then (if w3cGeo then Err(ValueError(NotEnoughToUnpack)) else Err(IndexError))
        else Ok(PointElements(coords[0], w3cGeo, fmt))
      else if w3cGeo then Err(ValueError(W3CPointsOnly))
      else if gtype in {"linestring", "linearring"} then Ok([Element("georss:line", GeorssCoords(coords, fmt))])
      else if gtype == "polygon" then
        if |rings| == 0 then Err(IndexError) else Ok([Element("georss:polygon", GeorssCoords(rings[0], fmt))])
      else Err(ValueError(Unsupported(geomType)))
  }

  /**
   * The two spellings of a box, four numbers or two coordinate tuples, give
   * the same GeoRSS box; and a point given as a tuple is the same as a Point
   * geometry at those coordinates.
   */
  lemma TupleSpellingsAgree(x0: real, y0: real, x1: real, y1: real, w3cGeo: bool, fmt: real -> string)
    ensures GeoElements(FlatTuple([x0, y0, x1, y1]), w3cGeo, fmt)
            == GeoElements(NestedTuple([[x0, y0], [x1, y1]]), w3cGeo, fmt)
    ensures GeoElements(FlatTuple([x0, y0]), w3cGeo, fmt)
            == GeoElements(GeometryObject("Point", [Coord(x0, y0)], []), w3cGeo, fmt)
  {
    assert [x0, y0, x1, y1][..2] == [x0, y0] && [x0, y0, x1, y1][2..] == [x1, y1];
    assert Lower("Point") == "point";
  }

  /** `add_georss_point(handler, coords, w3c_geo)`. */
  method AddGeorssPoint(handler: Handler, c: Coord, w3cGeo: bool, fmt: real -> string)
    modifies handler
    ensures handler.elements == old(handler.elements) + PointElements(c, w3cGeo, fmt)
  {
    if w3cGeo {
      handler.AddQuickElement("geo:lat", fmt(c.y));
      handler.AddQuickElement("geo:lon", fmt(c.x));
    } else {
      handler.AddQuickElement("georss:point", GeorssCoords([c], fmt));
    }
  }

  /** Adds the box element of `add_georss_element`, or reports why it cannot. */
  method AddBox(handler: Handler, box: seq<seq<real>>, w3cGeo: bool, fmt: real -> string)
    returns (err: Option<FeedError>)
    requires |box| == 2
    modifies handler
    ensures BoxElements(box, w3cGeo, fmt).Ok? ==>
              err == None && handler.elements == old(handler.elements) + BoxElements(box, w3cGeo, fmt).value
    ensures BoxElements(box, w3cGeo, fmt).Err? ==>
              err == Some(BoxElements(box, w3cGeo, fmt).error) && handler.elements == old(handler.elements)
  {
    if w3cGeo {
      return Some(ValueError(NoBoxInW3C));
    }
    if |box[0]| < 2 || |box[1]| < 2 {
      return Some(IndexError);
    }
    handler.AddQuickElement("georss:box",
      GeorssCoords([Coord(box[0][0], box[0][1]), Coord(box[1][0], box[1][1])], fmt));
    err := None;
  }

  /**
   * `add_georss_element(handler, item, w3c_geo)`: appends the elements of
   * `GeoElements`, or raises (here: returns the error) with the handler
   * untouched.
   */
  method AddGeorssElement(handler: Handler, geom: Geometry, w3cGeo: bool, fmt: real -> string)
    returns (err: Option<FeedError>)
    modifies handler
    ensures GeoElements(geom, w3cGeo, fmt).Ok? ==>
              err == None && handler.elements == old(handler.elements) + GeoElements(geom, w3cGeo, fmt).value
    ensures GeoElements(geom, w3cGeo, fmt).Err? ==>
              err == Some(GeoElements(geom, w3cGeo, fmt).error) && handler.elements == old(handler.elements)
  {
    err := None;
    match geom {
      case NoGeometry =>
      case FlatTuple(vs) =>
        if |vs| == 0 {
          err := Some(IndexError);
        } else if |vs| == 2 {
          AddGeorssPoint(handler, Coord(vs[0], vs[1]), w3cGeo, fmt);
        } else if |vs| == 4 {
          err := AddBox(handler, [vs[..2], vs[2..]], w3cGeo, fmt);
        } else {
          err := Some(ValueError(TwoOrFourOnly));
        }
      case NestedTuple(ts) =>
        if |ts| == 0 {
          err := Some(IndexError);
        } else if |ts| == 2 {
          err := AddBox(handler, ts, w3cGeo, fmt);
        } else {
          err := Some(ValueError(TwoSetsOnly));
        }
      case GeometryObject(geomType, coords, rings) =>
        var gtype := Lower(geomType);
        if gtype == "point" {
          if |coords| == 0 && w3cGeo {
            err := Some(ValueError(NotEnoughToUnpack));
          } else if |coords| == 0 {
            err := Some(IndexError);
          } else {
            AddGeorssPoint(handler, coords[0], w3cGeo, fmt);
          }
        } else if w3cGeo {
          err := Some(ValueError(W3CPointsOnly));
        } else if gtype in {"linestring", "linearring"} {
          handler.AddQuickElement("georss:line", GeorssCoords(coords, fmt));
        } else if gtype == "polygon" {
          if |rings| == 0 {
            err := Some(IndexError);
          } else {
            handler.AddQuickElement("georss:polygon", GeorssCoords(rings[0], fmt));
          }
        } else {
          err := Some(ValueError(Unsupported(geomType)));
        }
    }
  }
}
