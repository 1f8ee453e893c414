/** The drawing the CAD routines write into: ezdxf's modelspace seen as an
    append-only list of the entities added to it (polylines, linear
    dimensions and hatches). */
module Sink {
  datatype Point = Point(x: real, y: real)

  datatype Entity =
    | Polyline(layer: string, points: seq<Point>, closed: bool)
    /** A linear dimension measuring from p1 to p2, its line placed through base. */
    | Dimension(layer: string, base: Point, p1: Point, p2: Point, angle: real)
    /** A hatch filling between the given closed boundary paths. */
    | Hatch(layer: string, paths: seq<seq<Point>>)

  predicate IsDimension(e: Entity) { e.Dimension? }
  predicate IsPolyline(e: Entity) { e.Polyline? }

  /** The modelspace `msp`; entities are only ever added at the end. */
  class Drawing {
    var entities: seq<Entity>

    constructor ()
      ensures entities == []
    {
      entities := [];
    }

    method Add(e: Entity)
      modifies this
      ensures entities == old(entities) + [e]
    {
      entities := entities + [e];
    }

    /** Adds several entities in order. */
    method AddAll(es: seq<Entity>)
      modifies this
      ensures entities == old(entities) + es
    {
      entities := entities + es;
    }
  }
}
