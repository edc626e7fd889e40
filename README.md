# qmlAlembic scene conversion, modelled in Dafny

This project models how qmlAlembic turns an Alembic archive into a Qt3D scene
tree, and proves properties of that model. qmlAlembic is the Qt3D/QML viewer
component of AliceVision. The modelled code is:

- the root entity `AlembicEntity`: its three setters, `clear`,
  `loadAbcArchive`, `scaleLocators`, and the recursive `visitAbcObject` with
  its classification lambda;
- the property extraction and matrix conversion of `BaseAlembicObject`;
- the geometry that `PointCloudEntity::setData` builds. There are two
  copies of this function; each has its own model, and both are held to one
  specification;
- the constant wireframe of `CameraLocatorEntity`.

The Alembic reader is not modelled. An archive object, its property compounds
and its samples are plain Dafny values (module `Archive`). Each library query
the code makes is a field of those values: the schema `matches` tests,
`isConstant`, the "interpretation" metadata, the POD kind and the xform
matrix. The positions sample of a Points object appears only in the
point-cloud model, as `PointCloudEntity.PointsSchema`. An array sample is its
sequence of elements, each holding as many PODs as the property's extent;
`Archive.Flatten` lays them out as the sample buffer the code indexes. PODs
are a type parameter `E` that the model only moves around. Where the
point-cloud code reads a sample buffer as floats, they are `real`.

The scene tree is a datatype value `Node`. Each node holds a reference to its
`Transform` object, which stands for the entity's `Qt3DCore::QTransform`
component. After the tree is built, the transform's scale is the only thing
that changes. The root entity is a class whose fields match the C++ members.
Signals are modelled as an append-only field `signals`, so "nothing is
emitted" can be stated. `QUrl::isValid`, `QFile::exists` and
`IFactory::getArchive` are inputs:
- a `Url` carries its validity and its local file name;
- a `Disk` maps file names to what the factory would read from each file,
  either a corrupt archive or a top object.

Modules, one per source file:
- `Options` is the option type.
- `Archive` holds the archive values.
- `Geometry` holds the Qt3D attribute and renderer records.
- `BaseAlembicObject`, `PointCloudEntity`, `QmlPointCloudEntity`,
  `CameraLocatorEntity` and `AlembicEntity` model their source files.

Two facts of the code the model follows:
- src/AlembicEntity.hpp declares `source`/`setSource`/`_source`, but
  src/AlembicEntity.cpp defines `_url`/`setUrl`. The model uses `url`/`SetUrl`.
- A reload whose archive does not open clears the tree and the locator
  list, but emits no `camerasChanged`. `LoadAbcArchive` states exactly that.

## Model

| member | source | states |
|---|---|---|
| `BaseAlembicObject.PodValueType` | src/BaseAlembicObject.cpp:113-144 | The primitive kind is dropped exactly when it is unknown. Float16 and Float32 both instantiate `addProperty` with `float`, Float64 with `double`, and the string kind with `std::string`. |
| `BaseAlembicObject.PodValueTypeMergesOnlyFloats` | src/BaseAlembicObject.cpp:113-144 | Two different known kinds get the same template argument of `addProperty` only if they are Float16 and Float32. |
| `BaseAlembicObject.PodVariantType` | src/BaseAlembicObject.cpp:113-144 | A kind's values get a QVariant type exactly when the kind is known. The QVariant type is int exactly for the uint8, uint16, int8, int16 and int32 kinds, which reach `QVariant(int)` by integral promotion. |
| `BaseAlembicObject.StoredKindsCollide` | src/BaseAlembicObject.cpp:33-67 | Two different known kinds give values of the same QVariant type exactly when both are among those five integer kinds, or they are Float16 and Float32. |
| `BaseAlembicObject.StoredValue` | src/BaseAlembicObject.cpp:33-101 | An entry is stored exactly when three things hold: the kind is known, the property is constant, and it is an array or scalar, not a compound. A scalar stores its first POD with the kind's QVariant type. An array stores a list of at most size() entries, where entry k is POD k of the sample buffer. |
| `BaseAlembicObject.ArrayEntries` | src/BaseAlembicObject.cpp:54-67 | For a sample of extent e >= 1 the stored list has exactly size() entries, and entry e·k + j is POD j of element k. With extent 1, entry k is element k; with a larger extent the list stops after the PODs of the first size()/e elements. |
| `BaseAlembicObject.FillEntry` | src/BaseAlembicObject.cpp:103-146 | Per name, after extraction: the name is present exactly when it was there before or some header stores it. If some header stores it, the last such header in index order sets the value. Otherwise the old value stays. |
| `BaseAlembicObject.FillKeys` | src/BaseAlembicObject.cpp:103-146 | The keys after extraction are the old keys plus the names of the headers that store something, so no existing entry is removed. |
| `BaseAlembicObject.FillConcat` | src/BaseAlembicObject.cpp:107-110 | Headers are processed one at a time in index order. Extracting headers a then b equals extracting a, then extracting b from the result. |
| `Archive.LeadingPodsLayout` | src/BaseAlembicObject.cpp:58-65 | Reading n PODs from the buffer of a sample of extent e that holds at least n gives exactly n PODs, and POD e·k + j of the read is POD j of element k. |
| `BaseAlembicObject.AddArrayProperty` | src/BaseAlembicObject.cpp:54-82 | The map gains, under the property name, the list of the first size() PODs of the sample buffer, in buffer order, each with the QVariant type of the template argument. No other entry changes. |
| `BaseAlembicObject.AddProperty` | src/BaseAlembicObject.cpp:84-101 | One header's effect on the map: a constant array or scalar is stored. A time-varying or compound property leaves the map unchanged. |
| `BaseAlembicObject.FillPropertyMap` | src/BaseAlembicObject.cpp:103-146 | The map becomes the fold of the per-header step over all headers in index order. An invalid compound leaves the map unchanged. |
| `BaseAlembicObject.Transform.constructor` | src/BaseAlembicObject.cpp:6-11 | The entity's new transform component has the identity matrix and scale 1. |
| `BaseAlembicObject.QtMatrixTransposes` | src/BaseAlembicObject.cpp:23-30 | The renderer matrix's entry (i, j) is the archive matrix's `mat[j][i]`: a transpose. |
| `BaseAlembicObject.QtMatrixInvolution` | src/BaseAlembicObject.cpp:25-28 | Converting a matrix twice gives back the original. |
| `BaseAlembicObject.SetTransform` | src/BaseAlembicObject.cpp:23-30 | The transform's matrix becomes the transpose of the archive matrix. Its scale is untouched. |
| `Geometry.Floats` | src/PointCloudEntity.cpp:28-34 | Packing points into a float buffer gives 3 floats per point, and vertex i of the buffer is point i. |
| `PointCloudEntity.FirstRgb` | src/PointCloudEntity.cpp:55-71 | Finds the first header in index order that is an array with interpretation "rgb". No earlier header is one, and None means no header is one. |
| `PointCloudEntity.PointCloudLayout` | src/PointCloudEntity.cpp:28-105 | The position buffer is the positions copied verbatim, 3 floats per point. The position count, colour count and vertex count all equal the number of points. Both attributes have offset 0, stride 3 floats and vertex size 3. The primitive is Points. |
| `PointCloudEntity.DefaultColourFill` | src/PointCloudEntity.cpp:77-85 | The colour buffer is 3 × npoints copies of 0.8 in three cases: the compound is invalid, no rgb array exists, or the first rgb sample is empty. |
| `PointCloudEntity.RgbColoursCopied` | src/PointCloudEntity.cpp:63-71 | For a non-empty first rgb sample of extent e >= 3, the colour buffer is 3·size() floats from the start of its buffer: float e·k + j is POD j of element k. With extent 3, vertex k's colour is element k. The sample's length is not checked against the point count. |
| `PointCloudEntity.NonArrayHeadersIgnored` | src/PointCloudEntity.cpp:57-58 | Dropping every non-array header leaves the scanned colours unchanged. |
| `PointCloudEntity.FirstRgbWins` | src/PointCloudEntity.cpp:55-71 | Once an rgb array is preceded only by non-rgb headers, it supplies the colours, whatever follows it. |
| `PointCloudEntity.ScanColours` | src/PointCloudEntity.cpp:47-75 | The header loop with its `break` yields exactly the specified scanned colours. |
| `PointCloudEntity.DefaultColours` | src/PointCloudEntity.cpp:77-85 | The fill loop gives 3 × npoints floats, each 0.8. |
| `PointCloudEntity.SetData` | src/PointCloudEntity.cpp:15-109 | The renderer built equals the specified point-cloud geometry. |
| `QmlPointCloudEntity.ScanColours` | src/qmlAlembic/PointCloudEntity.cpp:47-75 | The second copy's header loop yields the same scanned colours as the first. |
| `QmlPointCloudEntity.DefaultColours` | src/qmlAlembic/PointCloudEntity.cpp:77-85 | The second copy's fill loop gives exactly 3 × npoints greys. |
| `QmlPointCloudEntity.SetData` | src/qmlAlembic/PointCloudEntity.cpp:15-109 | The second copy builds the same specified geometry, with no size bound. |
| `CameraLocatorEntity.LocatorGeometry` | src/CameraLocatorEntity.cpp:21-67 | Both vectors hold 66 floats. Both attribute counts and the vertex count are 22, an even number, drawn as Lines. Both attributes have offset 0 and stride 3 floats. |
| `CameraLocatorEntity.LocatorAxes` | src/CameraLocatorEntity.cpp:21-43 | Segments 0–2 run from the origin to (0.5,0,0), (0,0.5,0) and (0,0,0.5), coloured red, green and blue. |
| `CameraLocatorEntity.LocatorWhiteFromSix` | src/CameraLocatorEntity.cpp:42-46 | Every vertex from index 6 on is white. |
| `CameraLocatorEntity.LocatorFrustum` | src/CameraLocatorEntity.cpp:22-24 | Segments 3–6 start at the origin and end at the four distinct corners (±0.3, ±0.2, -0.3), one corner each. |
| `CameraLocatorEntity.LocatorImagePlane` | src/CameraLocatorEntity.cpp:24-26 | Segments 7–10 form a closed rectangle through the four corners in the plane z = -0.3. Each segment ends where the next begins, and the last ends where the first begins. |
| `AlembicEntity.Classify` | src/AlembicEntity.cpp:207-245 | Classification priority: a Points match always gives a point cloud. Xform is tried next, then Camera. An object that matches none becomes an empty group. |
| `AlembicEntity.PreorderMirrorsArchive` | src/AlembicEntity.cpp:247-252 | The built tree, listed in pre-order, has exactly one node per archive object in the archive's pre-order. Each node carries its object's name and classification. |
| `AlembicEntity.ForestMirrorsArchive` | src/AlembicEntity.cpp:250-252 | Children are built in index order 0..n-1, so the pre-order listing of the child nodes matches that of the child objects. |
| `AlembicEntity.CameraNodesFilter` | src/AlembicEntity.cpp:174 | Every entry of the locator list is a camera-locator node of the listing. Every camera-locator node of the listing is in the locator list. The list is no longer than the listing. |
| `AlembicEntity.LoadedCamerasMatchArchive` | src/AlembicEntity.cpp:171-174 | After the top object is visited, the locator list names, in pre-order, exactly the archive objects classified as cameras. |
| `AlembicEntity.LocatorsInTree` | src/AlembicEntity.cpp:174-177 | Every transform that `scaleLocators` visits after a load belongs to the newly built tree. |
| `AlembicEntity.AlembicEntity.constructor` | src/AlembicEntity.hpp:68-70 | Initial state: invalid empty URL, particle size 0.5 (the shader uniform too), locator scale 1, no tree, no locators, nothing emitted. |
| `AlembicEntity.AlembicEntity.Clear` | src/AlembicEntity.cpp:136-148 | The child tree and the locator list become empty. Nothing else changes. |
| `AlembicEntity.AlembicEntity.ScaleLocators` | src/AlembicEntity.cpp:51-58 | Every transform under every locator, found by recursive `findChildren`, gets scale `locatorScale`. Only those scales change. |
| `AlembicEntity.AlembicEntity.CreateEntity` | src/AlembicEntity.cpp:207-245 | A fresh transform and the reported properties are made by classification. A transform object gets its transposed matrix and every other kind the identity. Fallback groups report no properties; every other kind reports its extracted arbitrary and user properties. |
| `AlembicEntity.AlembicEntity.VisitAbcObject` | src/AlembicEntity.cpp:202-253 | One fresh node per archive object, node for node: its classification, its name, its properties, and its children visited in index order. Every transform in the subtree holds the matrix its object calls for. |
| `AlembicEntity.AlembicEntity.VisitTop` | src/AlembicEntity.cpp:170-171 | The top object's tree becomes the root's only child, and it is the one the visitor builds for that object. |
| `AlembicEntity.AlembicEntity.Populate` | src/AlembicEntity.cpp:170-177 | After a visit, the locator list is exactly the camera nodes of the new tree, in `findChildren` order, each scaled to the locator scale. |
| `AlembicEntity.AlembicEntity.LoadAbcArchive` | src/AlembicEntity.cpp:151-199 | The tree is always cleared first. An invalid URL, a missing file or an unreadable archive leaves no children, no locators and no signal. Otherwise the tree mirrors the archive, every transform holds its object's matrix, the locators are its camera nodes, scaled, and `camerasChanged` is emitted. |
| `AlembicEntity.AlembicEntity.SetUrl` | src/AlembicEntity.cpp:24-31 | The current URL is a no-op: nothing changes and nothing is emitted. A new URL is stored, the archive is reloaded, and `urlChanged` is emitted last. |
| `AlembicEntity.AlembicEntity.SetParticleSize` | src/AlembicEntity.cpp:33-40 | The current size is a no-op. Otherwise the field and the shader uniform both take the new value, `particleSizeChanged` is emitted, and nothing else changes. |
| `AlembicEntity.AlembicEntity.SetLocatorScale` | src/AlembicEntity.cpp:42-49 | The current scale is a no-op. Otherwise the scale is stored, every locator transform takes it, and `locatorScaleChanged` is emitted. Only the locators' scales may change, so every matrix stays as loaded. |

The class invariant `AlembicEntity.AlembicEntity.Valid` ties these together;
every method of the root entity keeps it. It says:
- the shader uniform equals the particle size;
- the locator list is the camera nodes of the tree in pre-order;
- every locator transform has the current locator scale;
- the tree mirrors the archive last loaded, node for node, or is empty.

The transform matrices are not part of the invariant. `LoadAbcArchive` and
`SetUrl` state them after a load. From then on, the modifies clauses let
only scales change.

## Left out

- Rendering plumbing is not modelled: `createMaterials`, the shader sources,
  material and effect construction, and the material components attached to
  each entity. So are the `QObjectPicker`s, the `onPicked` lambda, and
  `objectPicked`.
- src/IOThread.cpp, src/IOThread.hpp and src/plugin.hpp are not part of this
  model. They hold threading and QML registration, and the entity code does
  not use them.
- Several calls are inputs rather than models: `QUrl::isValid`,
  `QFile::exists`, `IFactory::getArchive`, the Alembic reader queries and
  `QUrl` equality. `Url` keeps only validity and the local file name, so two
  URLs that differ elsewhere but agree on both are equal here.
- Float rounding is not modelled: neither the `(float)` casts in
  `setTransform` nor the `0.8f` literal. Matrix entries and colours are
  `real`, and the model only tracks placement and count.
- `AlembicEntity.AlembicEntity.SetParticleSize` and
  `AlembicEntity.AlembicEntity.SetLocatorScale` compare reals. A NaN
  argument, which the C++ `==` never equals, is not modelled.
- `AlembicEntity.AlembicEntity.Clear` does not model Qt object ownership:
  `setParent(nullptr)`, `deleteLater`, and the removal of the root's own
  components. The children simply become empty.
- `AlembicEntity.AlembicEntity.VisitAbcObject` does not keep the point-cloud
  geometry in the node. That geometry is modelled on its own by
  `PointCloudEntity.SetData`, because the node's samples are generic there.
  The Qt parent pointers are also left out; the tree structure replaces them.
- `PointCloudEntity.SetData` requires both byte counts to fit in a 32-bit
  `int`. The position and default-fill byte counts are computed as `int`
  from an `int` point count. The rgb byte count is computed as `size_t` and
  narrowed by `static_cast<int>`. Larger inputs would overflow or truncate,
  and the model does not follow them.
- `QmlPointCloudEntity.SetData` does not model two things in the second copy.
  First, `QByteArray`'s `int` size parameter receives `size_t` byte counts;
  they no longer fit beyond 2^31 bytes, about 1.79·10^8 points. Second, the
  default fill's loop counter is an `int`, which only matters beyond 2^31
  floats.
- The float array that the default colour fill allocates and never frees is
  not modelled.
- Sample data is reinterpreted through typed pointers, and the model does
  not follow those casts:
  - A Float16 sample is read as `float`.
  - The point code reads every rgb sample buffer as floats, whatever its
    POD kind.
  - The model stores the PODs as given.
- `BaseAlembicObject.SetTransform` models a `QTransform` as a matrix and a
  scale. It does not model Qt's decomposition of a set matrix into
  translation, rotation and scale, which lets a later `setScale` override
  the matrix's scale.
- The `_pointClouds` list that src/AlembicEntity.hpp declares and exposes
  to QML is never filled by the code, and is not modelled.
- `BaseAlembicObject.StoredValue` represents a scalar sample by its first
  POD. For a scalar of extent e > 1 the code reads e PODs into a single
  variable, an overrun that src/BaseAlembicObject.cpp:38 leaves as a TODO.
  The model stores the first POD and does not model what the overrun
  overwrites.
- `BaseAlembicObject.AddArrayProperty` and `BaseAlembicObject.StoredValue`
  assume an array sample buffer holds at least size() PODs, which holds for
  any extent of at least 1. `Archive.LeadingPods` takes what there is from
  a shorter buffer; the code would read past its end.
- `PointCloudEntity.RgbColoursCopied` covers rgb samples of extent 3 or more.
  For a smaller extent, the code reads 3·size() floats from a buffer that
  holds fewer, and the model's `Archive.LeadingPods` stops at the buffer's
  end.
- `AlembicEntity.AlembicEntity.LoadAbcArchive` does not model an exception
  thrown by the Alembic reader while the tree is visited. There is no
  try/catch in `loadAbcArchive` or `visitAbcObject`, so such an exception
  leaves a partial tree behind. The locator list then stays empty and
  `camerasChanged` is not emitted. `setUrl` then skips `urlChanged`, although
  it has already stored the new URL.
- The camera-locator nodes of the tree are not tied to
  `CameraLocatorEntity.LocatorGeometry`. That geometry is a constant of the
  entity's constructor and is modelled on its own.
- Background loading is not modelled: the loader thread and mutex, and the
  handing over of the archive handle. The load happens synchronously inside
  `loadAbcArchive`.
