/**
 * The geometry a point-cloud entity builds from a Points object
 * (src/PointCloudEntity.cpp, `setData`): a position buffer copied from the
 * positions sample, a colour buffer taken from the first rgb-tagged array
 * property or filled with grey, and the attribute and vertex counts.
 *
 * The specification functions here are shared with the second copy of
 * `setData` (module QmlPointCloudEntity).
 */
module PointCloudEntity {

  import opened Options
  import opened Archive
  import opened Geometry

  /** The colour of every vertex when no usable rgb data is found. */
  const DefaultGrey: real := 0.8

  /** The largest value of a 32-bit C++ int. */
  const IntMax: int := 0x7fff_ffff

  /**
   * What `setData` reads from a Points object: the positions of sample 0 and
   * the arbitrary-geometry compound. The code reads the buffer of an array
   * sample of that compound through a float pointer, so its PODs are floats
   * here.
   */
  datatype PointsSchema = PointsSchema(positions: seq<Vec3>, arbGeomParams: Compound<real>)

  // ---------------------------------------------------------------------------
  // Specification

  /** A header the scan accepts as the colour source. */
  predicate IsRgbArray(h: PropertyHeader<real>)
  {
    h.shape.ArrayShape? && h.interpretation == "rgb"
  }

  /** The index of the first rgb-tagged array header, if any. */
  function FirstRgb(hs: seq<PropertyHeader<real>>): (r: Option<nat>)
    ensures r.Some? ==> r.value < |hs| && IsRgbArray(hs[r.value])
    ensures r.Some? ==> forall j :: 0 <= j < r.value ==> !IsRgbArray(hs[j])
    ensures r.None? ==> forall j :: 0 <= j < |hs| ==> !IsRgbArray(hs[j])
  {
    if hs == [] then None
    else if IsRgbArray(hs[0]) then Some(0)
    else match FirstRgb(hs[1..])
      case None => None
      case Some(i) => Some(i + 1)
  }

  /**
   * The floats copied from an rgb sample: `3 * size()` of them from the start
   * of its buffer, whatever the sample's extent.
   */
  function RgbFloats(elements: seq<seq<real>>): seq<real>
  {
    LeadingPods(elements, 3 * |elements|)
  }

  /** The colour buffer's contents after the scan: the first rgb sample's floats, or nothing. */
  function ScannedColours(arb: Compound<real>): seq<real>
  {
    match arb
    case Invalid => []
    case Compound(hs) =>
      match FirstRgb(hs)
      case None => []
      case Some(i) => RgbFloats(hs[i].shape.elements)
  }

  /** `count` copies of the default grey. */
  function Grey(count: nat): seq<real>
  {
    seq(count, _ => DefaultGrey)
  }

  /** The colour buffer's final contents: the scanned colours, or grey when they are empty. */
  function ColourData(p: PointsSchema): seq<real>
  {
    var scanned := ScannedColours(p.arbGeomParams);
    if |scanned| == 0 then Grey(3 * |p.positions|) else scanned
  }

  /** The geometry renderer `setData` attaches to the entity. */
  function PointCloudGeometry(p: PointsSchema): GeometryRenderer
  {
    var npoints := |p.positions|;
    GeometryRenderer(
      PointsPrimitive,
      Attribute(PositionAttribute, Floats(p.positions), 3, 0, 3 * FloatSize, npoints),
      Attribute(ColourAttribute, ColourData(p), 3, 0, 3 * FloatSize, npoints),
      npoints, 1, 0, 0)
  }

  // ---------------------------------------------------------------------------
  // Properties of the geometry

  /**
   * Positions are copied verbatim, 3 floats per point, and the position
   * count, colour count and vertex count are all the number of points; both
   * attributes start at offset 0 with a stride of three floats.
   */
  lemma PointCloudLayout(p: PointsSchema)
    ensures var g := PointCloudGeometry(p);
      && g.primitive == PointsPrimitive
      && |g.position.buffer| == 3 * |p.positions|
      && (forall i :: 0 <= i < |p.positions| ==> VertexOf(g.position.buffer, i) == p.positions[i])
      && g.position.count == g.colour.count == g.vertexCount == |p.positions|
      && g.position.byteOffset == g.colour.byteOffset == 0
      && g.position.byteStride == g.colour.byteStride == 3 * FloatSize
      && g.position.vertexSize == g.colour.vertexSize == 3
  {
  }

  /**
   * With an invalid compound, no rgb array, or an empty rgb sample, every
   * point gets the default grey: 3 * npoints copies of it.
   */
  lemma DefaultColourFill(p: PointsSchema)
    requires || p.arbGeomParams.Invalid?
             || FirstRgb(p.arbGeomParams.headers).None?
             || |p.arbGeomParams.headers[FirstRgb(p.arbGeomParams.headers).value].shape.elements| == 0
    ensures var c := PointCloudGeometry(p).colour.buffer;
      |c| == 3 * |p.positions| && forall k :: 0 <= k < |c| ==> c[k] == DefaultGrey
  {
  }

  /**
   * A non-empty sample of the first rgb array, of extent e >= 3, gives
   * 3 * size() colour floats taken from the start of its buffer: float
   * e * k + j, when it is one of them, is POD j of element k. For an rgb
   * sample of extent 3, vertex k's colour is element k, and when the sample
   * has one element per point the colour buffer is exactly as long as the
   * position buffer.
   */
  lemma RgbColoursCopied(p: PointsSchema, i: nat, extent: nat)
    requires p.arbGeomParams.Compound? && FirstRgb(p.arbGeomParams.headers) == Some(i)
    requires HasExtent(p.arbGeomParams.headers[i].shape.elements, extent) && extent >= 3
    requires |p.arbGeomParams.headers[i].shape.elements| > 0
    ensures var c := PointCloudGeometry(p).colour.buffer;
      var samp := p.arbGeomParams.headers[i].shape.elements;
      && |c| == 3 * |samp|
      && (forall k, j :: 0 <= k < |samp| && 0 <= j < extent && extent * k + j < |c| ==>
            c[extent * k + j] == samp[k][j])
      && (extent == 3 ==> forall k :: 0 <= k < |samp| ==>
            VertexOf(c, k) == Vec3(samp[k][0], samp[k][1], samp[k][2]))
      && (|samp| == |p.positions| ==> |c| == |PointCloudGeometry(p).position.buffer|)
  {
    var samp := p.arbGeomParams.headers[i].shape.elements;
    assert 3 * |samp| <= extent * |samp|;
    LeadingPodsLayout(samp, extent, 3 * |samp|);
    var c := PointCloudGeometry(p).colour.buffer;
    assert c == RgbFloats(samp);
    if extent == 3 {
      forall k | 0 <= k < |samp|
        ensures VertexOf(c, k) == Vec3(samp[k][0], samp[k][1], samp[k][2])
      {
        assert c[3 * k + 0] == samp[k][0];
        assert c[3 * k + 1] == samp[k][1];
        assert c[3 * k + 2] == samp[k][2];
      }
    }
  }

  /** The headers that are array-shaped, in order. */
  function ArrayHeaders(hs: seq<PropertyHeader<real>>): seq<PropertyHeader<real>>
  {
    if hs == [] then []
    else (if hs[0].shape.ArrayShape? then [hs[0]] else []) + ArrayHeaders(hs[1..])
  }

  /**
   * Dropping the non-array headers keeps the first rgb array: one exists in
   * both lists or in neither, and it is the same header.
   */
  lemma {:induction false} FirstRgbOfArrays(hs: seq<PropertyHeader<real>>)
    ensures FirstRgb(hs).None? <==> FirstRgb(ArrayHeaders(hs)).None?
    ensures FirstRgb(hs).Some? ==>
      hs[FirstRgb(hs).value] == ArrayHeaders(hs)[FirstRgb(ArrayHeaders(hs)).value]
  {
    if hs != [] {
      var arrays, rest := ArrayHeaders(hs), ArrayHeaders(hs[1..]);
      if IsRgbArray(hs[0]) {
        assert arrays == [hs[0]] + rest;
        assert FirstRgb(arrays) == Some(0);
      } else {
        FirstRgbOfArrays(hs[1..]);
        var tail := FirstRgb(hs[1..]);
        assert FirstRgb(hs) == if tail.None? then None else Some(tail.value + 1);
        if hs[0].shape.ArrayShape? {
          assert arrays == [hs[0]] + rest;
          assert arrays[1..] == rest;
          var inRest := FirstRgb(rest);
          assert FirstRgb(arrays) == if inRest.None? then None else Some(inRest.value + 1);
        } else {
          assert arrays == rest;
        }
      }
    }
  }

  /** Headers that are not arrays never influence the colours. */
  lemma NonArrayHeadersIgnored(hs: seq<PropertyHeader<real>>)
    ensures ScannedColours(Compound(hs)) == ScannedColours(Compound(ArrayHeaders(hs)))
  {
    FirstRgbOfArrays(hs);
  }

  /**
   * The first rgb array wins and the scan stops there: whatever follows it
   * does not matter.
   */
  lemma {:induction false} FirstRgbWins(before: seq<PropertyHeader<real>>, h: PropertyHeader<real>, after: seq<PropertyHeader<real>>)
    requires IsRgbArray(h)
    requires forall j :: 0 <= j < |before| ==> !IsRgbArray(before[j])
    ensures ScannedColours(Compound(before + [h] + after)) == RgbFloats(h.shape.elements)
  {
    var hs := before + [h] + after;
    assert hs[|before|] == h;
    var r := FirstRgb(hs);
    assert r.Some?;
  }

  // ---------------------------------------------------------------------------
  // The code of setData

  /**
   * The loop over the arbitrary-geometry compound: stops at the first
   * array header whose interpretation is "rgb" and copies 3 * size()
   * floats of its sample into the colour data.
   */
  method ScanColours(arb: Compound<real>) returns (colourData: seq<real>)
    ensures colourData == ScannedColours(arb)
  {
    colourData := [];
    if arb.Invalid? {
      return;
    }
    var numProps := |arb.headers|;
    var i := 0;
    while i < numProps
      invariant 0 <= i <= numProps
      invariant forall j :: 0 <= j < i ==> !IsRgbArray(arb.headers[j])
    {
      var propHeader := arb.headers[i];
      if propHeader.shape.ArrayShape? {
        if propHeader.interpretation == "rgb" {
          colourData := RgbFloats(propHeader.shape.elements);
          assert FirstRgb(arb.headers) == Some(i);
          break;
        }
      }
      i := i + 1;
    }
  }

  /** The default fill: a new float array of 3 * npoints entries, each set to grey. */
  method DefaultColours(npoints: nat) returns (colourData: seq<real>)
    ensures |colourData| == 3 * npoints
    ensures forall k :: 0 <= k < |colourData| ==> colourData[k] == DefaultGrey
  {
    var colours := new real[3 * npoints];
    for i := 0 to 3 * npoints
      invariant forall k :: 0 <= k < i ==> colours[k] == DefaultGrey
    {
      colours[i] := DefaultGrey;
    }
    colourData := colours[..];
  }

  /**
   * `setData` as written in src/PointCloudEntity.cpp. The point count is a
   * C++ int there and the byte sizes of both buffers are computed as ints,
   * so the model asks that they fit.
   */
  method SetData(p: PointsSchema) returns (renderer: GeometryRenderer)
    requires |p.positions| * 3 * FloatSize <= IntMax
    requires |ScannedColours(p.arbGeomParams)| * FloatSize <= IntMax
    ensures renderer == PointCloudGeometry(p)
  {
    var npoints: int := |p.positions|;
    assert npoints * 3 * FloatSize <= IntMax;  // the int byte size of the position data
    var positionAttribute := Attribute(PositionAttribute, Floats(p.positions), 3, 0, 3 * FloatSize, npoints);

    var colourData := ScanColours(p.arbGeomParams);
    if |colourData| == 0 {
      colourData := DefaultColours(|p.positions|);
      assert colourData == Grey(3 * |p.positions|);
    }
    var colourAttribute := Attribute(ColourAttribute, colourData, 3, 0, 3 * FloatSize, npoints);

    renderer := GeometryRenderer(PointsPrimitive, positionAttribute, colourAttribute, npoints, 1, 0, 0);
  }
}
