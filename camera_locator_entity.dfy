/**
 * The fixed wireframe a camera-locator entity draws
 * (src/CameraLocatorEntity.cpp): 22 vertices drawn as 11 line segments,
 * namely three coloured axes, four frustum edges from the camera centre and
 * the rectangle of the image plane at z = -0.3.
 */
module CameraLocatorEntity {

  import opened Archive
  import opened Geometry

  /** The `points` vector: 22 vertices, 3 floats each. */
  const LocatorPoints: seq<real> :=
    [0.0,  0.0,  0.0,  0.5,  0.0,  0.0,  0.0,  0.0,  0.0,  0.0,  0.5] +
    [0.0,  0.0,  0.0,  0.0,  0.0,  0.0,  0.5,  0.0,  0.0,  0.0,  -0.3] +
    [0.2,  -0.3, 0.0,  0.0,  0.0,  -0.3, -0.2, -0.3, 0.0,  0.0,  0.0] +
    [0.3,  -0.2, -0.3, 0.0,  0.0,  0.0,  0.3,  0.2,  -0.3, -0.3, 0.2] +
    [-0.3, -0.3, -0.2, -0.3, -0.3, -0.2, -0.3, 0.3,  -0.2, -0.3, 0.3] +
    [-0.2, -0.3, 0.3,  0.2,  -0.3, 0.3,  0.2,  -0.3, -0.3, 0.2,  -0.3]

  /** The `colors` vector: one rgb triple per vertex. */
  const LocatorColours: seq<real> :=
    [1.0, 0.0, 0.0, 1.0, 0.0, 0.0, 0.0, 1.0, 0.0, 0.0, 1.0, 0.0, 0.0, 0.0] +
    [1.0, 0.0, 0.0, 1.0, 1.0, 1.0, 1.0, 1.0, 1.0, 1.0, 1.0, 1.0, 1.0, 1.0] +
    [1.0, 1.0, 1.0, 1.0, 1.0, 1.0, 1.0, 1.0, 1.0, 1.0, 1.0, 1.0, 1.0, 1.0] +
    [1.0, 1.0, 1.0, 1.0, 1.0, 1.0, 1.0, 1.0, 1.0, 1.0, 1.0, 1.0, 1.0, 1.0] +
    [1.0, 1.0, 1.0, 1.0, 1.0, 1.0, 1.0, 1.0, 1.0, 1.0]

  const Origin: Vec3 := Vec3(0.0, 0.0, 0.0)
  const Red: Vec3 := Vec3(1.0, 0.0, 0.0)
  const Green: Vec3 := Vec3(0.0, 1.0, 0.0)
  const Blue: Vec3 := Vec3(0.0, 0.0, 1.0)
  const White: Vec3 := Vec3(1.0, 1.0, 1.0)

  /**
   * The geometry renderer the constructor attaches: both attribute counts
   * and the vertex count are the vector sizes divided by three, drawn as lines.
   */
  function LocatorGeometry(): (g: GeometryRenderer)
    ensures |g.position.buffer| == |g.colour.buffer| == 66
    ensures g.position.count == g.colour.count == g.vertexCount == 22
    ensures g.vertexCount % 2 == 0 && g.primitive == LinesPrimitive
    ensures g.position.byteOffset == g.colour.byteOffset == 0
    ensures g.position.byteStride == g.colour.byteStride == 3 * FloatSize
  {
    GeometryRenderer(
      LinesPrimitive,
      Attribute(PositionAttribute, LocatorPoints, 3, 0, 3 * FloatSize, |LocatorPoints| / 3),
      Attribute(ColourAttribute, LocatorColours, 3, 0, 3 * FloatSize, |LocatorColours| / 3),
      |LocatorPoints| / 3, 1, 0, 0)
  }

  /** Vertex i of the wireframe. */
  function Point(i: nat): Vec3
    requires i < 22
  {
    VertexOf(LocatorPoints, i)
  }

  /** Colour of vertex i. */
  function Colour(i: nat): Vec3
    requires i < 22
  {
    VertexOf(LocatorColours, i)
  }

  /** Segment s runs from vertex 2s to vertex 2s + 1. */
  function SegmentStart(s: nat): Vec3 requires s < 11 { Point(2 * s) }
  function SegmentEnd(s: nat): Vec3 requires s < 11 { Point(2 * s + 1) }

  /** Segments 0, 1, 2 are the x, y and z axes, 0.5 long, red, green and blue. */
  lemma LocatorAxes()
    ensures SegmentStart(0) == SegmentStart(1) == SegmentStart(2) == Origin
    ensures SegmentEnd(0) == Vec3(0.5, 0.0, 0.0)
    ensures SegmentEnd(1) == Vec3(0.0, 0.5, 0.0)
    ensures SegmentEnd(2) == Vec3(0.0, 0.0, 0.5)
    ensures Colour(0) == Colour(1) == Red
    ensures Colour(2) == Colour(3) == Green
    ensures Colour(4) == Colour(5) == Blue
  {
  }

  /** Every vertex from 6 on is white. */
  lemma LocatorWhiteFromSix()
    ensures forall i :: 6 <= i < 22 ==> Colour(i) == White
  {
    forall i | 6 <= i < 22
      ensures Colour(i) == White
    {
      assert LocatorColours[3 * i] == LocatorColours[3 * i + 1] == LocatorColours[3 * i + 2] == 1.0;
    }
  }

  /** The four corners of the image plane. */
  function Corners(): set<Vec3>
  {
    {Vec3(-0.3, 0.2, -0.3), Vec3(-0.3, -0.2, -0.3), Vec3(0.3, -0.2, -0.3), Vec3(0.3, 0.2, -0.3)}
  }

  /** Segments 3 to 6 run from the camera centre to the four distinct corners, one each. */
  lemma LocatorFrustum()
    ensures forall s :: 3 <= s < 7 ==> SegmentStart(s) == Origin && SegmentEnd(s) in Corners()
    ensures {SegmentEnd(3), SegmentEnd(4), SegmentEnd(5), SegmentEnd(6)} == Corners()
    ensures |Corners()| == 4
  {
    assert SegmentEnd(3) == Vec3(-0.3, 0.2, -0.3);
    assert SegmentEnd(4) == Vec3(-0.3, -0.2, -0.3);
    assert SegmentEnd(5) == Vec3(0.3, -0.2, -0.3);
    assert SegmentEnd(6) == Vec3(0.3, 0.2, -0.3);
    forall s | 3 <= s < 7
      ensures SegmentStart(s) == Origin && SegmentEnd(s) in Corners()
    {
      assert s == 3 || s == 4 || s == 5 || s == 6;
    }
  }

  /**
   * Segments 7 to 10 form a closed rectangle in the plane z = -0.3: each
   * ends where the next begins, and the last ends where the first begins.
   */
  lemma LocatorImagePlane()
    ensures forall s :: 7 <= s < 10 ==> SegmentEnd(s) == SegmentStart(s + 1)
    ensures SegmentEnd(10) == SegmentStart(7)
    ensures forall s :: 7 <= s < 11 ==> SegmentStart(s) in Corners() && SegmentStart(s).z == -0.3
    ensures {SegmentStart(7), SegmentStart(8), SegmentStart(9), SegmentStart(10)} == Corners()
  {
    assert SegmentStart(7) == Vec3(-0.3, 0.2, -0.3);
    assert SegmentStart(8) == Vec3(-0.3, -0.2, -0.3);
    assert SegmentStart(9) == Vec3(0.3, -0.2, -0.3);
    assert SegmentStart(10) == Vec3(0.3, 0.2, -0.3);
    forall s | 7 <= s < 11
      ensures SegmentStart(s) in Corners() && SegmentEnd(s) == SegmentStart(if s == 10 then 7 else s + 1)
    {
      assert s == 7 || s == 8 || s == 9 || s == 10;
    }
  }
}
