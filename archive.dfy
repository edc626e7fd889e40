/**
 * The archive as the conversion code sees it. The Alembic reader API is
 * not modelled: an archive object, its property compounds and its schema
 * samples are plain values here, and each library query the code makes
 * (`IPoints::matches`, `isConstant`, the "interpretation" metadata, ...)
 * is a field of those values.
 */
module Archive {

  /** The primitive kind a property header declares (`Alembic::Util::PlainOldDataType`). */
  datatype PodKind =
    | BooleanPod
    | Uint8Pod | Uint16Pod | Uint32Pod | Uint64Pod
    | Int8Pod | Int16Pod | Int32Pod | Int64Pod
    | Float16Pod | Float32Pod | Float64Pod
    | StringPod
    | UnknownPod

  /**
   * The storage shape of a property and, for the two value-carrying
   * shapes, its sample at index 0. An array sample is its `size()`
   * elements, each the `extent` PODs of one element, so a property of
   * extent e has e PODs in every element. A scalar sample is represented by
   * its first POD, the only one the code has room for. PODs are of an
   * abstract type E: the model moves them and never looks inside.
   */
  datatype Shape<E> =
    | ArrayShape(elements: seq<seq<E>>)
    | ScalarShape(value: E)
    | CompoundShape

  /** Every element of an array sample holds `extent` PODs. */
  predicate HasExtent<E>(elements: seq<seq<E>>, extent: nat)
  {
    forall k :: 0 <= k < |elements| ==> |elements[k]| == extent
  }

  /** The buffer `getData()` points to: the PODs of the elements, one element after the other. */
  function Flatten<E>(elements: seq<seq<E>>): seq<E>
  {
    if elements == [] then [] else elements[0] + Flatten(elements[1..])
  }

  /**
   * The first `count` PODs of an array sample's buffer: what a read of
   * `count` PODs from `getData()` sees. A buffer that holds fewer gives
   * all it has; the code does not guard against that case, and a reader
   * never produces it.
   */
  function LeadingPods<E>(elements: seq<seq<E>>, count: nat): (r: seq<E>)
    ensures |r| <= count
    ensures forall k :: 0 <= k < |r| ==> k < |Flatten(elements)| && r[k] == Flatten(elements)[k]
  {
    var buffer := Flatten(elements);
    if count <= |buffer| then buffer[..count] else buffer
  }

  /** The buffer of a sample of extent e holds e PODs per element. */
  lemma {:induction false} FlattenLength<E>(elements: seq<seq<E>>, extent: nat)
    requires HasExtent(elements, extent)
    ensures |Flatten(elements)| == extent * |elements|
  {
    if elements != [] {
      FlattenLength(elements[1..], extent);
      assert extent * |elements| == extent * (|elements| - 1) + extent;
    }
  }

  /** In the buffer of a sample of extent e, POD j of element k sits at position e * k + j. */
  lemma {:induction false} FlattenAt<E>(elements: seq<seq<E>>, extent: nat, k: nat, j: nat)
    requires HasExtent(elements, extent)
    requires k < |elements| && j < extent
    ensures extent * k + j < |Flatten(elements)|
    ensures Flatten(elements)[extent * k + j] == elements[k][j]
  {
    var rest := elements[1..];
    if k == 0 {
      assert Flatten(elements) == elements[0] + Flatten(rest);
    } else {
      FlattenAt(rest, extent, k - 1, j);
      assert extent * k + j == |elements[0]| + (extent * (k - 1) + j);
      assert rest[k - 1] == elements[k];
    }
  }

  /**
   * Reading `count` PODs from a sample of extent e that holds at least that
   * many: the read has `count` PODs, and POD e * k + j of the read, when it
   * is one of them, is POD j of element k.
   */
  lemma LeadingPodsLayout<E>(elements: seq<seq<E>>, extent: nat, count: nat)
    requires HasExtent(elements, extent)
    requires count <= extent * |elements|
    ensures |LeadingPods(elements, count)| == count
    ensures forall k, j :: 0 <= k < |elements| && 0 <= j < extent && extent * k + j < count ==>
              LeadingPods(elements, count)[extent * k + j] == elements[k][j]
  {
    FlattenLength(elements, extent);
    forall k, j | 0 <= k < |elements| && 0 <= j < extent && extent * k + j < count
      ensures LeadingPods(elements, count)[extent * k + j] == elements[k][j]
    {
      FlattenAt(elements, extent, k, j);
    }
  }

  /** One entry of a compound property, with what the reader reports about it. */
  datatype PropertyHeader<E> = PropertyHeader(
    name: string,
    pod: PodKind,
    shape: Shape<E>,
    isConstant: bool,       // the property has a single sample value over time
    interpretation: string  // the "interpretation" metadata entry, "" when absent
  )

  /** A compound property: invalid (the reader could not open it) or its headers in index order. */
  datatype Compound<E> = Invalid | Compound(headers: seq<PropertyHeader<E>>)

  /** Three floats: a point position or an rgb colour. */
  datatype Vec3 = Vec3(x: real, y: real, z: real)

  /**
   * A 4x4 matrix as 16 entries; entry 4 * i + j is the archive's `mat[i][j]`,
   * and for the renderer's matrix it is row i, column j.
   */
  type Matrix4 = m: seq<real> | |m| == 16
    witness [1.0, 0.0, 0.0, 0.0,
             0.0, 1.0, 0.0, 0.0,
             0.0, 0.0, 1.0, 0.0,
             0.0, 0.0, 0.0, 1.0]

  function At(m: Matrix4, i: nat, j: nat): real
    requires i < 4 && j < 4
  {
    m[4 * i + j]
  }

  const Identity: Matrix4 :=
    [1.0, 0.0, 0.0, 0.0,
     0.0, 1.0, 0.0, 0.0,
     0.0, 0.0, 1.0, 0.0,
     0.0, 0.0, 0.0, 1.0]

  /**
   * An archive object. The three `matches` flags are the schema tests of
   * its metadata; `xformMatrix` is the matrix of its Xform sample 0; the
   * two compounds are its schema's arbitrary-geometry and user properties.
   */
  datatype Object<E> = Object(
    name: string,
    matchesPoints: bool,
    matchesXform: bool,
    matchesCamera: bool,
    xformMatrix: Matrix4,
    arbGeomParams: Compound<E>,
    userProperties: Compound<E>,
    children: seq<Object<E>>
  )
}
