/**
 * The renderer-side records the entities build: a vertex attribute over a
 * buffer of floats, and a geometry renderer holding a position and a
 * colour attribute. Only the settings the conversion code chooses are kept.
 */
module Geometry {

  import opened Archive

  /** sizeof(float) */
  const FloatSize: nat := 4

  datatype Primitive = PointsPrimitive | LinesPrimitive

  /** QAttribute::defaultPositionAttributeName() and defaultColorAttributeName(). */
  datatype AttributeName = PositionAttribute | ColourAttribute

  /** A float vertex attribute: its buffer's contents and its layout settings. */
  datatype Attribute = Attribute(
    name: AttributeName,
    buffer: seq<real>,
    vertexSize: nat,   // floats per vertex
    byteOffset: nat,
    byteStride: nat,
    count: nat         // number of vertices the attribute describes
  )

  datatype GeometryRenderer = GeometryRenderer(
    primitive: Primitive,
    position: Attribute,
    colour: Attribute,
    vertexCount: nat,
    instanceCount: nat,
    firstVertex: nat,
    firstInstance: nat
  )

  /** Vertex i of a buffer of packed float triples. */
  function VertexOf(buffer: seq<real>, i: nat): Vec3
    requires 3 * i + 2 < |buffer|
  {
    Vec3(buffer[3 * i], buffer[3 * i + 1], buffer[3 * i + 2])
  }

  /** The floats of a sequence of triples, as their memory holds them: x, y, z, x, y, z, ... */
  function Floats(vs: seq<Vec3>): (r: seq<real>)
    ensures |r| == 3 * |vs|
    ensures forall i :: 0 <= i < |vs| ==> VertexOf(r, i) == vs[i]
  {
    if vs == [] then [] else [vs[0].x, vs[0].y, vs[0].z] + Floats(vs[1..])
  }
}
