/**
 * The second copy of `setData` (src/qmlAlembic/PointCloudEntity.cpp). Its
 * code follows the first copy line by line but keeps the point count and
 * the byte sizes as size_t, so it is held to the same specification
 * (PointCloudEntity.PointCloudGeometry) without bounds on the sizes.
 */
module QmlPointCloudEntity {

  import opened Options
  import opened Archive
  import opened Geometry
  import opened PointCloudEntity

  /** The header loop: the first array header with interpretation "rgb" supplies the colours, then the loop breaks. */
  method ScanColours(arb: Compound<real>) returns (colourData: seq<real>)
    ensures colourData == ScannedColours(arb)
  {
    colourData := [];
    if arb.Compound? {
      var numProps := |arb.headers|;
      var i := 0;
      while i < numProps
        invariant 0 <= i <= numProps
        invariant forall j :: 0 <= j < i ==> !IsRgbArray(arb.headers[j])
      {
        var propHeader := arb.headers[i];
        if propHeader.shape.ArrayShape? {
          if propHeader.interpretation == "rgb" {
            colourData := RgbFloats(propHeader.shape.elements);
            assert FirstRgb(arb.headers) == Some(i);
            break;
          }
        }
        i := i + 1;
      }
    }
  }

  /** The default fill loop over 3 * npoints floats. */
  method DefaultColours(npoints: nat) returns (colourData: seq<real>)
    ensures colourData == Grey(3 * npoints)
  {
    var colours := new real[3 * npoints];
    var i := 0;
    while i < 3 * npoints
      invariant 0 <= i <= 3 * npoints
      invariant forall k :: 0 <= k < i ==> colours[k] == DefaultGrey
    {
      colours[i] := DefaultGrey;
      i := i + 1;
    }
    colourData := colours[..];
  }

  /** `setData` with size_t counts. */
  method SetData(p: PointsSchema) returns (renderer: GeometryRenderer)
    ensures renderer == PointCloudGeometry(p)
  {
    var npoints: nat := |p.positions|;
    var positionAttribute := Attribute(PositionAttribute, Floats(p.positions), 3, 0, 3 * FloatSize, npoints);

    var colourData := ScanColours(p.arbGeomParams);
    if |colourData| == 0 {
      colourData := DefaultColours(npoints);
    }
    var colourAttribute := Attribute(ColourAttribute, colourData, 3, 0, 3 * FloatSize, npoints);

    renderer := GeometryRenderer(PointsPrimitive, positionAttribute, colourAttribute, npoints, 1, 0, 0);
  }
}
