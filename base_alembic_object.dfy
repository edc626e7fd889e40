/**
 * The part of every scene entity that the conversion fills in: its
 * transform, taken from an archive matrix, and its two property maps,
 * extracted from archive compounds (src/BaseAlembicObject.cpp).
 */
module BaseAlembicObject {

  import opened Options
  import opened Archive

  /**
   * The C++ type `fillPropertyMap` instantiates `addProperty` with for a
   * primitive kind: the type of the variable the sample is read into.
   */
  datatype ValueType =
    | BoolValue
    | UInt8Value | UInt16Value | UInt32Value | UInt64Value
    | Int8Value | Int16Value | Int32Value | Int64Value
    | FloatValue | DoubleValue
    | StringValue

  /** The type a QVariant records for the value it holds. */
  datatype VariantType =
    | BoolVariant
    | IntVariant | UIntVariant | LongLongVariant | ULongLongVariant
    | FloatVariant | DoubleVariant
    | StringVariant

  /**
   * The QVariant constructor a value of the given type selects. There is
   * none for the 8- and 16-bit integers: they are promoted to int, so they
   * land in `QVariant(int)` together with qint32. A std::string is stored
   * as a QString.
   */
  function VariantTypeOf(t: ValueType): VariantType
  {
    match t
    case BoolValue => BoolVariant
    case UInt8Value => IntVariant
    case UInt16Value => IntVariant
    case Int8Value => IntVariant
    case Int16Value => IntVariant
    case Int32Value => IntVariant
    case UInt32Value => UIntVariant
    case Int64Value => LongLongVariant
    case UInt64Value => ULongLongVariant
    case FloatValue => FloatVariant
    case DoubleValue => DoubleVariant
    case StringValue => StringVariant
  }

  /** A QVariant as extraction produces it: one typed value, or a QVariantList of them. */
  datatype Variant<E> = Value(variantType: VariantType, datum: E) | List(items: seq<Variant<E>>)

  /** A QVariantMap: property name to value. */
  type PropertyMap<E> = map<string, Variant<E>>

  // ---------------------------------------------------------------------------
  // Specification of the extraction

  /**
   * The 13-way switch of `fillPropertyMap`: the value type a primitive kind
   * is stored as, or None for a kind that is dropped.
   */
  function PodValueType(pod: PodKind): (t: Option<ValueType>)
    ensures t.None? <==> pod == UnknownPod
    ensures t == Some(FloatValue) <==> pod == Float16Pod || pod == Float32Pod
    ensures t == Some(DoubleValue) <==> pod == Float64Pod
    ensures t == Some(StringValue) <==> pod == StringPod
  {
    match pod
    case BooleanPod => Some(BoolValue)
    case Uint8Pod => Some(UInt8Value)
    case Uint16Pod => Some(UInt16Value)
    case Uint32Pod => Some(UInt32Value)
    case Uint64Pod => Some(UInt64Value)
    case Int8Pod => Some(Int8Value)
    case Int16Pod => Some(Int16Value)
    case Int32Pod => Some(Int32Value)
    case Int64Pod => Some(Int64Value)
    case Float16Pod => Some(FloatValue)
    case Float32Pod => Some(FloatValue)
    case Float64Pod => Some(DoubleValue)
    case StringPod => Some(StringValue)
    case UnknownPod => None
  }

  /** Two different kinds share a value type only when they are the two single-precision float kinds. */
  lemma PodValueTypeMergesOnlyFloats(p: PodKind, q: PodKind)
    requires p != q && PodValueType(p).Some? && PodValueType(p) == PodValueType(q)
    ensures {p, q} == {Float16Pod, Float32Pod}
  {
  }

  /** The kinds whose values end up in a QVariant of type int. */
  predicate StoredAsInt(pod: PodKind)
  {
    pod in {Uint8Pod, Uint16Pod, Int8Pod, Int16Pod, Int32Pod}
  }

  /**
   * The QVariant type a kind's values are stored with, when the kind is
   * stored at all.
   */
  function PodVariantType(pod: PodKind): (v: Option<VariantType>)
    ensures v.Some? <==> PodValueType(pod).Some?
    ensures v == Some(IntVariant) <==> StoredAsInt(pod)
  {
    match PodValueType(pod)
    case None => None
    case Some(t) => Some(VariantTypeOf(t))
  }

  /**
   * Two different stored kinds give values of the same QVariant type
   * exactly when both are among the five small integer kinds or they are
   * the two single-precision float kinds: a stored map does not tell these
   * kinds apart.
   */
  lemma StoredKindsCollide(p: PodKind, q: PodKind)
    requires p != q && PodValueType(p).Some? && PodValueType(q).Some?
    ensures PodVariantType(p) == PodVariantType(q) <==>
              (StoredAsInt(p) && StoredAsInt(q)) || {p, q} == {Float16Pod, Float32Pod}
  {
  }

  /**
   * The QVariantList built from an array sample: the loop runs over
   * `size()` positions of the sample buffer, so it holds the buffer's
   * first `size()` PODs, one value each.
   */
  function ArrayList<E>(t: ValueType, elements: seq<seq<E>>): seq<Variant<E>>
  {
    var pods := LeadingPods(elements, |elements|);
    seq(|pods|, k requires 0 <= k < |pods| => Value(VariantTypeOf(t), pods[k]))
  }

  /**
   * What `addProperty` stores for a header, or None when nothing is stored:
   * unknown kinds, time-varying properties and compound-shaped headers.
   */
  function StoredValue<E>(h: PropertyHeader<E>): (v: Option<Variant<E>>)
    ensures v.Some? <==> PodValueType(h.pod).Some? && h.isConstant && !h.shape.CompoundShape?
    ensures v.Some? && h.shape.ScalarShape? ==>
              v.value == Value(PodVariantType(h.pod).value, h.shape.value)
    ensures v.Some? && h.shape.ArrayShape? ==>
              && v.value.List?
              && |v.value.items| <= |h.shape.elements|
              && forall k :: 0 <= k < |v.value.items| ==>
                   k < |Flatten(h.shape.elements)| &&
                   v.value.items[k] == Value(PodVariantType(h.pod).value, Flatten(h.shape.elements)[k])
  {
    match PodValueType(h.pod)
    case None => None
    case Some(t) =>
      match h.shape
      case ArrayShape(elements) => if h.isConstant then Some(List(ArrayList(t, elements))) else None
      case ScalarShape(value) => if h.isConstant then Some(Value(VariantTypeOf(t), value)) else None
      case CompoundShape => None
  }

  /**
   * The list stored for a constant array property of extent e >= 1 has one
   * entry per element, and entry e * k + j is POD j of element k. So with
   * extent 1 entry k is element k, and with a larger extent the list holds
   * the PODs of the first size() / e elements and stops there.
   */
  lemma ArrayEntries<E>(h: PropertyHeader<E>, extent: nat)
    requires h.shape.ArrayShape? && StoredValue(h).Some?
    requires HasExtent(h.shape.elements, extent) && extent >= 1
    ensures var items, elements := StoredValue(h).value.items, h.shape.elements;
      && |items| == |elements|
      && (forall k, j :: 0 <= k < |elements| && 0 <= j < extent && extent * k + j < |elements| ==>
            items[extent * k + j] == Value(PodVariantType(h.pod).value, elements[k][j]))
      && (extent == 1 ==> forall k :: 0 <= k < |elements| ==>
            items[k] == Value(PodVariantType(h.pod).value, elements[k][0]))
  {
    var elements := h.shape.elements;
    assert |elements| <= extent * |elements|;
    LeadingPodsLayout(elements, extent, |elements|);
    if extent == 1 {
      forall k | 0 <= k < |elements|
        ensures StoredValue(h).value.items[k] == Value(PodVariantType(h.pod).value, elements[k][0])
      {
        assert extent * k + 0 == k;
      }
    }
  }

  /** Header h stores an entry under `name`. */
  predicate Writes<E>(h: PropertyHeader<E>, name: string)
  {
    h.name == name && StoredValue(h).Some?
  }

  /** The map after one header has been processed. */
  function Step<E>(m: PropertyMap<E>, h: PropertyHeader<E>): PropertyMap<E>
  {
    match StoredValue(h)
    case None => m
    case Some(v) => m[h.name := v]
  }

  /** The map after the headers have been processed one by one, in index order. */
  function Fill<E>(m: PropertyMap<E>, hs: seq<PropertyHeader<E>>): PropertyMap<E>
    decreases |hs|
  {
    if hs == [] then m else Step(Fill(m, hs[..|hs| - 1]), hs[|hs| - 1])
  }

  /** The map `fillPropertyMap` leaves behind, starting from m. */
  function Extracted<E>(m: PropertyMap<E>, c: Compound<E>): PropertyMap<E>
  {
    match c
    case Invalid => m
    case Compound(headers) => Fill(m, headers)
  }

  /** The index of the last header that stores an entry under `name`, if any. */
  function LastWriter<E>(hs: seq<PropertyHeader<E>>, name: string): (r: Option<nat>)
    ensures r.Some? ==> r.value < |hs| && Writes(hs[r.value], name)
    ensures r.Some? ==> forall j :: r.value < j < |hs| ==> !Writes(hs[j], name)
    ensures r.None? ==> forall j :: 0 <= j < |hs| ==> !Writes(hs[j], name)
    decreases |hs|
  {
    if hs == [] then None
    else if Writes(hs[|hs| - 1], name) then Some(|hs| - 1)
    else LastWriter(hs[..|hs| - 1], name)
  }

  // ---------------------------------------------------------------------------
  // Properties of the extraction

  /**
   * Entry by entry: a name is in the result iff it was already there or some
   * header stores it; the last such header decides the value, and an entry
   * no header stores keeps its old value. So extraction never removes an
   * entry, and skipped headers leave no trace.
   */
  lemma {:induction false} FillEntry<E>(m: PropertyMap<E>, hs: seq<PropertyHeader<E>>, name: string)
    ensures name in Fill(m, hs) <==> name in m || LastWriter(hs, name).Some?
    ensures LastWriter(hs, name).Some? ==>
              Fill(m, hs)[name] == StoredValue(hs[LastWriter(hs, name).value]).value
    ensures LastWriter(hs, name).None? && name in m ==> Fill(m, hs)[name] == m[name]
    decreases |hs|
  {
    if hs != [] {
      var init := hs[..|hs| - 1];
      FillEntry(m, init, name);
      if !Writes(hs[|hs| - 1], name) {
        assert LastWriter(hs, name) == LastWriter(init, name);
        if LastWriter(init, name).Some? {
          assert init[LastWriter(init, name).value] == hs[LastWriter(init, name).value];
        }
      }
    }
  }

  /** The names of the headers that store an entry. */
  function StoredNames<E>(hs: seq<PropertyHeader<E>>): set<string>
  {
    set i | 0 <= i < |hs| && StoredValue(hs[i]).Some? :: hs[i].name
  }

  /** The keys after extraction: the old keys plus the name of every header that stores something. */
  lemma FillKeys<E>(m: PropertyMap<E>, hs: seq<PropertyHeader<E>>)
    ensures Fill(m, hs).Keys == m.Keys + StoredNames(hs)
  {
    forall name
      ensures name in Fill(m, hs) <==> name in m.Keys + StoredNames(hs)
    {
      FillEntry(m, hs, name);
      var w := LastWriter(hs, name);
      if w.Some? {
        assert hs[w.value].name in StoredNames(hs);
      }
    }
  }

  /** Headers are processed strictly in index order: extracting a + b is extracting a, then b. */
  lemma {:induction false} FillConcat<E>(m: PropertyMap<E>, a: seq<PropertyHeader<E>>, b: seq<PropertyHeader<E>>)
    ensures Fill(m, a + b) == Fill(Fill(m, a), b)
    decreases |b|
  {
    if b == [] {
      assert a + b == a;
    } else {
      var ab := a + b;
      assert ab[..|ab| - 1] == a + b[..|b| - 1];
      assert ab[|ab| - 1] == b[|b| - 1];
      FillConcat(m, a, b[..|b| - 1]);
    }
  }

  // ---------------------------------------------------------------------------
  // The extraction code

  /**
   * `addArrayProperty`: stores, under `name`, the list of the first
   * `size()` PODs of the sample buffer.
   */
  method AddArrayProperty<E>(data: PropertyMap<E>, t: ValueType, name: string, elements: seq<seq<E>>)
    returns (data': PropertyMap<E>)
    ensures name in data' && data'[name].List?
    ensures |data'[name].items| == |LeadingPods(elements, |elements|)|
    ensures forall k :: 0 <= k < |data'[name].items| ==>
              data'[name].items[k] == Value(VariantTypeOf(t), LeadingPods(elements, |elements|)[k])
    ensures data' == data[name := data'[name]]
  {
    var pods := LeadingPods(elements, |elements|);
    var l: seq<Variant<E>> := [];
    for k := 0 to |pods|
      invariant |l| == k
      invariant forall j :: 0 <= j < k ==> l[j] == Value(VariantTypeOf(t), pods[j])
    {
      l := l + [Value(VariantTypeOf(t), pods[k])];
    }
    data' := data[name := List(l)];
  }

  /** `addProperty<T>`: stores a constant array or scalar property; does nothing otherwise. */
  method AddProperty<E>(data: PropertyMap<E>, t: ValueType, h: PropertyHeader<E>)
    returns (data': PropertyMap<E>)
    requires PodValueType(h.pod) == Some(t)
    ensures data' == Step(data, h)
  {
    data' := data;
    match h.shape {
      case ArrayShape(elements) =>
        if !h.isConstant {
          return;
        }
        data' := AddArrayProperty(data, t, h.name, elements);
        assert data'[h.name] == List(ArrayList(t, elements));
      case ScalarShape(value) =>
        if !h.isConstant {
          return;
        }
        data' := data[h.name := Value(VariantTypeOf(t), value)];
      case CompoundShape =>
    }
  }

  /**
   * `fillPropertyMap`: processes the compound's headers in index order,
   * updating the map passed by reference; an invalid compound leaves it as is.
   */
  method FillPropertyMap<E>(c: Compound<E>, data: PropertyMap<E>) returns (data': PropertyMap<E>)
    ensures data' == Extracted(data, c)
    ensures c.Invalid? ==> data' == data
  {
    data' := data;
    if c.Invalid? {
      return;
    }
    var numProps := |c.headers|;
    for i := 0 to numProps
      invariant data' == Fill(data, c.headers[..i])
    {
      var h := c.headers[i];
      assert c.headers[..i + 1][..i] == c.headers[..i];
      match PodValueType(h.pod) {
        case Some(t) => data' := AddProperty(data', t, h);
        case None =>
      }
    }
    assert c.headers[..numProps] == c.headers;
  }

  // ---------------------------------------------------------------------------
  // Transform

  /** The entity's transform component (Qt3DCore::QTransform). */
  class Transform {
    var matrix: Matrix4
    /** The uniform scale last given to `setScale`. */
    var scale: real

    constructor ()
      ensures matrix == Identity && scale == 1.0
    {
      matrix := Identity;
      scale := 1.0;
    }
  }

  /**
   * The QMatrix4x4 `setTransform` builds: its constructor takes the entries
   * row by row, and it is given the archive matrix column by column.
   */
  function QtMatrix(mat: Matrix4): Matrix4
  {
    [At(mat, 0, 0), At(mat, 1, 0), At(mat, 2, 0), At(mat, 3, 0),
     At(mat, 0, 1), At(mat, 1, 1), At(mat, 2, 1), At(mat, 3, 1),
     At(mat, 0, 2), At(mat, 1, 2), At(mat, 2, 2), At(mat, 3, 2),
     At(mat, 0, 3), At(mat, 1, 3), At(mat, 2, 3), At(mat, 3, 3)]
  }

  /** The renderer's matrix is the transpose of the archive's. */
  lemma QtMatrixTransposes(mat: Matrix4)
    ensures forall i, j :: 0 <= i < 4 && 0 <= j < 4 ==> At(QtMatrix(mat), i, j) == At(mat, j, i)
  {
    forall i, j | 0 <= i < 4 && 0 <= j < 4
      ensures At(QtMatrix(mat), i, j) == At(mat, j, i)
    {
      assert i == 0 || i == 1 || i == 2 || i == 3;
      assert j == 0 || j == 1 || j == 2 || j == 3;
    }
  }

  /** Converting twice gives the original matrix back. */
  lemma QtMatrixInvolution(mat: Matrix4)
    ensures QtMatrix(QtMatrix(mat)) == mat
  {
    var q := QtMatrix(QtMatrix(mat));
    QtMatrixTransposes(mat);
    QtMatrixTransposes(QtMatrix(mat));
    forall n | 0 <= n < 16
      ensures q[n] == mat[n]
    {
      var i, j := n / 4, n % 4;
      assert n == 4 * i + j;
      assert At(q, i, j) == At(QtMatrix(mat), j, i) == At(mat, i, j);
    }
  }

  /** `setTransform`: the transform takes the archive matrix, transposed; its scale is kept. */
  method SetTransform(transform: Transform, mat: Matrix4)
    modifies transform`matrix
    ensures transform.matrix == QtMatrix(mat)
    ensures forall i, j :: 0 <= i < 4 && 0 <= j < 4 ==> At(transform.matrix, i, j) == At(mat, j, i)
  {
    transform.matrix := QtMatrix(mat);
    QtMatrixTransposes(mat);
  }
}
