/**
 * The root entity: it reads an archive, turns every archive object into one
 * scene node (`visitAbcObject`), keeps the list of camera locators and the two
 * user-facing settings (particle size, locator scale), and notifies observers.
 *
 * The scene tree is a value of type `Node`; the only thing in it that is
 * updated after construction is each node's `Transform`, which is an object.
 */
module AlembicEntity {
  import opened Options
  import opened Archive
  import opened BaseAlembicObject

  /** The entity type the visitor creates for an archive object. */
  datatype Kind = PointCloud | Xform | CameraLocator | Fallback

  /**
   * The classification lambda of `visitAbcObject`: the schema tests are tried
   * in a fixed order, and an object that matches none becomes an empty group.
   */
  function Classify<E>(obj: Object<E>): (k: Kind)
    ensures k == PointCloud <==> obj.matchesPoints
    ensures k == Xform <==> !obj.matchesPoints && obj.matchesXform
    ensures k == CameraLocator <==> !obj.matchesPoints && !obj.matchesXform && obj.matchesCamera
    ensures k == Fallback <==> !obj.matchesPoints && !obj.matchesXform && !obj.matchesCamera
  {
    if obj.matchesPoints then PointCloud
    else if obj.matchesXform then Xform
    else if obj.matchesCamera then CameraLocator
    else Fallback
  }

  /** One entity of the built scene tree. */
  datatype Node<E> = Node(
    kind: Kind,
    name: string,
    arbProperties: PropertyMap<E>,
    userProperties: PropertyMap<E>,
    transform: Transform,
    children: seq<Node<E>>)

  /** The arbitrary-geometry properties the node of `obj` reports. */
  function ExpectedArb<E>(obj: Object<E>): PropertyMap<E>
  {
    if Classify(obj) == Fallback then map[] else Extracted(map[], obj.arbGeomParams)
  }

  /** The user properties the node of `obj` reports. */
  function ExpectedUser<E>(obj: Object<E>): PropertyMap<E>
  {
    if Classify(obj) == Fallback then map[] else Extracted(map[], obj.userProperties)
  }

  /** The matrix of the node's transform: only transform objects set one. */
  function ExpectedMatrix<E>(obj: Object<E>): Matrix4
  {
    if Classify(obj) == Xform then QtMatrix(obj.xformMatrix) else Identity
  }

  /** `n` is the node the visitor builds for `obj`, node for node. */
  predicate Mirrors<E(==)>(n: Node<E>, obj: Object<E>)
    decreases obj
  {
    && n.kind == Classify(obj)
    && n.name == obj.name
    && n.arbProperties == ExpectedArb(obj)
    && n.userProperties == ExpectedUser(obj)
    && |n.children| == |obj.children|
    && forall i :: 0 <= i < |obj.children| ==> Mirrors(n.children[i], obj.children[i])
  }

  // ---------------------------------------------------------------------------
  // Pre-order traversals (the order of Qt's recursive `findChildren`)
  // ---------------------------------------------------------------------------

  function Preorder<E>(n: Node<E>): (r: seq<Node<E>>)
    ensures |r| >= 1 && r[0] == n
    decreases n
  {
    [n] + Forest(n.children)
  }

  function Forest<E>(ns: seq<Node<E>>): seq<Node<E>>
    decreases ns
  {
    if ns == [] then [] else Preorder(ns[0]) + Forest(ns[1..])
  }

  function ArchivePreorder<E>(obj: Object<E>): (r: seq<Object<E>>)
    ensures |r| >= 1 && r[0] == obj
    decreases obj
  {
    [obj] + ArchiveForest(obj.children)
  }

  function ArchiveForest<E>(objs: seq<Object<E>>): seq<Object<E>>
    decreases objs
  {
    if objs == [] then [] else ArchivePreorder(objs[0]) + ArchiveForest(objs[1..])
  }

  /** What an observer sees of each node: its object name and entity type. */
  function Labels<E>(ns: seq<Node<E>>): seq<(string, Kind)>
  {
    seq(|ns|, i requires 0 <= i < |ns| => (ns[i].name, ns[i].kind))
  }

  /** What the visitor should produce for each archive object. */
  function ArchiveLabels<E>(objs: seq<Object<E>>): seq<(string, Kind)>
  {
    seq(|objs|, i requires 0 <= i < |objs| => (objs[i].name, Classify(objs[i])))
  }

  lemma LabelsConcat<E>(a: seq<Node<E>>, b: seq<Node<E>>)
    ensures Labels(a + b) == Labels(a) + Labels(b)
  {
  }

  lemma ArchiveLabelsConcat<E>(a: seq<Object<E>>, b: seq<Object<E>>)
    ensures ArchiveLabels(a + b) == ArchiveLabels(a) + ArchiveLabels(b)
  {
  }

  /**
   * The built tree lists, in pre-order, exactly one node per archive object,
   * with that object's name and classification.
   */
  lemma {:induction false} PreorderMirrorsArchive<E>(n: Node<E>, obj: Object<E>)
    requires Mirrors(n, obj)
    ensures Labels(Preorder(n)) == ArchiveLabels(ArchivePreorder(obj))
    ensures |Preorder(n)| == |ArchivePreorder(obj)|
    decreases obj, 1
  {
    ForestMirrorsArchive(n.children, obj.children);
    LabelsConcat([n], Forest(n.children));
    ArchiveLabelsConcat([obj], ArchiveForest(obj.children));
  }

  lemma {:induction false} ForestMirrorsArchive<E>(ns: seq<Node<E>>, objs: seq<Object<E>>)
    requires |ns| == |objs|
    requires forall i :: 0 <= i < |objs| ==> Mirrors(ns[i], objs[i])
    ensures Labels(Forest(ns)) == ArchiveLabels(ArchiveForest(objs))
    decreases objs, 0
  {
    if objs != [] {
      PreorderMirrorsArchive(ns[0], objs[0]);
      ForestMirrorsArchive(ns[1..], objs[1..]);
      LabelsConcat(Preorder(ns[0]), Forest(ns[1..]));
      ArchiveLabelsConcat(ArchivePreorder(objs[0]), ArchiveForest(objs[1..]));
    }
  }

  lemma ForestSingleton<E>(n: Node<E>)
    ensures Forest([n]) == Preorder(n)
  {
    assert [n][1..] == [];
  }

  /** A node of a forest is a node of the pre-order of one of its trees. */
  lemma {:induction false} ForestMember<E>(ns: seq<Node<E>>, c: Node<E>)
    ensures c in Forest(ns) <==> exists i :: 0 <= i < |ns| && c in Preorder(ns[i])
    decreases ns
  {
    if ns != [] {
      ForestMember(ns[1..], c);
      if c in Forest(ns[1..]) {
        var i :| 0 <= i < |ns[1..]| && c in Preorder(ns[1..][i]);
        assert c in Preorder(ns[i + 1]);
      }
      if i :| 0 <= i < |ns| && c in Preorder(ns[i]) {
        if i > 0 {
          assert c in Preorder(ns[1..][i - 1]);
        }
      }
    }
  }

  lemma ChildInPreorder<E>(n: Node<E>, i: nat)
    requires i < |n.children|
    ensures forall d :: d in Preorder(n.children[i]) ==> d in Preorder(n)
  {
    forall d | d in Preorder(n.children[i])
      ensures d in Preorder(n)
    {
      ForestMember(n.children, d);
    }
  }

  /** The subtree of a node of the pre-order lies inside the pre-order. */
  lemma {:induction false} PreorderClosed<E>(n: Node<E>, c: Node<E>)
    requires c in Preorder(n)
    ensures forall d :: d in Preorder(c) ==> d in Preorder(n)
    decreases n
  {
    if c != n {
      assert c in Forest(n.children);
      ForestMember(n.children, c);
      var i :| 0 <= i < |n.children| && c in Preorder(n.children[i]);
      PreorderClosed(n.children[i], c);
      ChildInPreorder(n, i);
    }
  }

  // ---------------------------------------------------------------------------
  // Transforms of the tree
  // ---------------------------------------------------------------------------

  /** The transform components of a subtree. */
  ghost function Footprint<E>(n: Node<E>): set<Transform>
    decreases n, 1
  {
    {n.transform} + ForestFootprint(n.children)
  }

  /** The transform components of the subtrees of a forest. */
  ghost function ForestFootprint<E>(ns: seq<Node<E>>): set<Transform>
    decreases ns, 0
  {
    set k, t | 0 <= k < |ns| && t in Footprint(ns[k]) :: t
  }

  lemma {:induction false} FootprintAllocated<E>(n: Node<E>)
    ensures forall t :: t in Footprint(n) ==> allocated(t)
    decreases n, 1
  {
    FootprintsAllocated(n.children);
  }

  lemma {:induction false} FootprintsAllocated<E>(ns: seq<Node<E>>)
    ensures forall t :: t in ForestFootprint(ns) ==> allocated(t)
    decreases ns, 0
  {
    forall k | 0 <= k < |ns|
      ensures forall t :: t in Footprint(ns[k]) ==> allocated(t)
    {
      FootprintAllocated(ns[k]);
    }
  }

  /** Every node listed in pre-order has its transform in the footprint. */
  lemma {:induction false} PreorderInFootprint<E>(n: Node<E>)
    ensures forall d :: d in Preorder(n) ==> d.transform in Footprint(n)
    decreases n
  {
    forall d | d in Preorder(n)
      ensures d.transform in Footprint(n)
    {
      if d != n {
        ForestMember(n.children, d);
        var k :| 0 <= k < |n.children| && d in Preorder(n.children[k]);
        PreorderInFootprint(n.children[k]);
      }
    }
  }

  /**
   * Every transform of the built subtree holds the matrix its archive object
   * calls for: the two pre-order listings are paired index by index.
   */
  ghost predicate MatricesSet<E>(n: Node<E>, obj: Object<E>)
    reads Footprint(n)`matrix
  {
    PreorderInFootprint(n);
    && |Preorder(n)| == |ArchivePreorder(obj)|
    && forall k :: 0 <= k < |Preorder(n)| ==>
        Preorder(n)[k].transform.matrix == ExpectedMatrix(ArchivePreorder(obj)[k])
  }

  /** The pairing of matrices carries over from the trees of a forest to the forest. */
  lemma {:induction false} ForestMatricesSet<E>(ns: seq<Node<E>>, objs: seq<Object<E>>)
    requires |ns| == |objs|
    requires forall k :: 0 <= k < |ns| ==> MatricesSet(ns[k], objs[k])
    ensures |Forest(ns)| == |ArchiveForest(objs)|
    ensures forall j :: 0 <= j < |Forest(ns)| ==>
      Forest(ns)[j].transform.matrix == ExpectedMatrix(ArchiveForest(objs)[j])
    decreases ns
  {
    if ns != [] {
      ForestMatricesSet(ns[1..], objs[1..]);
      var first: seq<Node<E>>, rest: seq<Node<E>> := Preorder(ns[0]), Forest(ns[1..]);
      var afirst: seq<Object<E>>, arest: seq<Object<E>> := ArchivePreorder(objs[0]), ArchiveForest(objs[1..]);
      assert MatricesSet(ns[0], objs[0]);
      forall j | 0 <= j < |first| + |rest|
        ensures (first + rest)[j].transform.matrix == ExpectedMatrix((afirst + arest)[j])
      {
        if j >= |first| {
          assert (first + rest)[j] == rest[j - |first|];
          assert (afirst + arest)[j] == arest[j - |first|];
        }
      }
    }
  }

  /** A node whose own matrix is right and whose children's subtrees are right is right. */
  lemma NodeMatricesSet<E>(n: Node<E>, obj: Object<E>)
    requires |n.children| == |obj.children|
    requires n.transform.matrix == ExpectedMatrix(obj)
    requires forall k :: 0 <= k < |n.children| ==> MatricesSet(n.children[k], obj.children[k])
    ensures MatricesSet(n, obj)
  {
    ForestMatricesSet(n.children, obj.children);
    var rest: seq<Node<E>>, arest: seq<Object<E>> := Forest(n.children), ArchiveForest(obj.children);
    forall k | 0 < k < |Preorder(n)|
      ensures Preorder(n)[k].transform.matrix == ExpectedMatrix(ArchivePreorder(obj)[k])
    {
      assert Preorder(n)[k] == rest[k - 1];
      assert ArchivePreorder(obj)[k] == arest[k - 1];
    }
  }

  /** Each node of `ns` is the one the visitor builds for the object at the same index. */
  predicate MirrorsEach<E(==)>(ns: seq<Node<E>>, objs: seq<Object<E>>)
  {
    |ns| == |objs| && forall k :: 0 <= k < |ns| ==> Mirrors(ns[k], objs[k])
  }

  /** Each subtree of `ns` holds the matrices of the object at the same index. */
  ghost predicate MatricesEach<E>(ns: seq<Node<E>>, objs: seq<Object<E>>)
    reads ForestFootprint(ns)`matrix
  {
    |ns| == |objs| && forall k :: 0 <= k < |ns| ==> MatricesSet(ns[k], objs[k])
  }

  lemma PrefixGrows<T>(s: seq<T>, i: nat)
    requires i < |s|
    ensures s[..i] + [s[i]] == s[..i + 1]
  {
  }

  /** Appending a visited child keeps the forest paired with the objects visited so far. */
  lemma ChildAppended<E>(ns: seq<Node<E>>, objs: seq<Object<E>>, n: Node<E>, obj: Object<E>)
    requires MirrorsEach(ns, objs) && Mirrors(n, obj)
    requires MatricesEach(ns, objs) && MatricesSet(n, obj)
    ensures MirrorsEach(ns + [n], objs + [obj])
    ensures MatricesEach(ns + [n], objs + [obj])
  {
    var grown, visited := ns + [n], objs + [obj];
    assert grown[|ns|] == n && visited[|ns|] == obj;
    assert forall k :: 0 <= k < |ns| ==> grown[k] == ns[k] && visited[k] == objs[k];
  }

  /** Appending a child adds exactly its transforms to the forest's. */
  lemma FootprintAppended<E>(ns: seq<Node<E>>, n: Node<E>)
    ensures ForestFootprint(ns + [n]) == ForestFootprint(ns) + Footprint(n)
  {
    var grown := ns + [n];
    assert grown[|ns|] == n;
    assert forall k :: 0 <= k < |ns| ==> grown[k] == ns[k];
  }

  /** The transforms under one locator, in `findChildren` order. */
  function SubtreeTransforms<E>(c: Node<E>): seq<Transform>
  {
    seq(|Preorder(c)|, k requires 0 <= k < |Preorder(c)| => Preorder(c)[k].transform)
  }

  /** The transforms `scaleLocators` visits, locator by locator. */
  function LocatorTransforms<E>(cams: seq<Node<E>>): seq<Transform>
  {
    if cams == [] then []
    else LocatorTransforms(cams[..|cams| - 1]) + SubtreeTransforms(cams[|cams| - 1])
  }

  lemma {:induction false} LocatorPrefix<E>(cams: seq<Node<E>>, j: nat)
    requires j <= |cams|
    ensures forall t :: t in LocatorTransforms(cams[..j]) ==> t in LocatorTransforms(cams)
    decreases |cams|
  {
    if j < |cams| {
      var init := cams[..|cams| - 1];
      LocatorPrefix(init, j);
      assert init[..j] == cams[..j];
    } else {
      assert cams[..j] == cams;
    }
  }

  lemma {:induction false} LocatorTransformsWithin<E>(cams: seq<Node<E>>, n: Node<E>)
    requires forall c :: c in cams ==> c in Preorder(n)
    ensures forall t :: t in LocatorTransforms(cams) ==> t in Footprint(n)
    decreases |cams|
  {
    if cams != [] {
      var last := cams[|cams| - 1];
      LocatorTransformsWithin(cams[..|cams| - 1], n);
      PreorderClosed(n, last);
      PreorderInFootprint(n);
      forall t | t in SubtreeTransforms(last)
        ensures t in Footprint(n)
      {
        var k :| 0 <= k < |Preorder(last)| && t == Preorder(last)[k].transform;
        assert Preorder(last)[k] in Preorder(n);
      }
    }
  }

  // ---------------------------------------------------------------------------
  // Camera locators
  // ---------------------------------------------------------------------------

  /** `findChildren<CameraLocatorEntity*>()` over a pre-order listing. */
  function CameraNodes<E>(ns: seq<Node<E>>): seq<Node<E>>
  {
    if ns == [] then []
    else (if ns[0].kind == CameraLocator then [ns[0]] else []) + CameraNodes(ns[1..])
  }

  /** The locator list holds exactly the camera nodes of the listing. */
  lemma {:induction false} CameraNodesFilter<E>(ns: seq<Node<E>>)
    ensures var r := CameraNodes(ns);
      && (forall k :: 0 <= k < |r| ==> r[k] in ns && r[k].kind == CameraLocator)
      && (forall k :: 0 <= k < |ns| && ns[k].kind == CameraLocator ==> ns[k] in r)
      && |r| <= |ns|
    decreases ns
  {
    if ns != [] {
      CameraNodesFilter(ns[1..]);
      var r, rest := CameraNodes(ns), CameraNodes(ns[1..]);
      forall k | 0 <= k < |ns| && ns[k].kind == CameraLocator
        ensures ns[k] in r
      {
        if k > 0 {
          assert ns[k] == ns[1..][k - 1];
        }
      }
    }
  }

  /** The camera entries of a label listing, in order. */
  function CameraEntries(ls: seq<(string, Kind)>): (r: seq<(string, Kind)>)
    ensures forall l :: l in r <==> l in ls && l.1 == CameraLocator
    ensures |r| <= |ls|
  {
    if ls == [] then []
    else (if ls[0].1 == CameraLocator then [ls[0]] else []) + CameraEntries(ls[1..])
  }

  lemma {:induction false} CameraNodesLabels<E>(ns: seq<Node<E>>)
    ensures Labels(CameraNodes(ns)) == CameraEntries(Labels(ns))
    decreases ns
  {
    if ns != [] {
      CameraNodesLabels(ns[1..]);
      assert Labels(ns)[1..] == Labels(ns[1..]);
      LabelsConcat(if ns[0].kind == CameraLocator then [ns[0]] else [], CameraNodes(ns[1..]));
    }
  }

  /**
   * After the top object is visited, the locator list names, in pre-order,
   * exactly the archive objects classified as cameras.
   */
  lemma LoadedCamerasMatchArchive<E>(n: Node<E>, top: Object<E>)
    requires Mirrors(n, top)
    ensures Labels(CameraNodes(Forest([n]))) == CameraEntries(ArchiveLabels(ArchivePreorder(top)))
  {
    ForestSingleton(n);
    CameraNodesLabels(Preorder(n));
    PreorderMirrorsArchive(n, top);
  }

  /** The transforms `scaleLocators` visits after a load lie in the loaded tree. */
  lemma LocatorsInTree<E>(n: Node<E>)
    ensures forall t :: t in LocatorTransforms(CameraNodes(Forest([n]))) ==> t in Footprint(n)
  {
    ForestSingleton(n);
    CameraNodesFilter(Forest([n]));
    LocatorTransformsWithin(CameraNodes(Forest([n])), n);
  }

  // ---------------------------------------------------------------------------
  // The root entity
  // ---------------------------------------------------------------------------

  /** The two observations the entity makes of a `QUrl`. */
  datatype Url = Url(valid: bool, localFile: string)

  /** What the archive factory finds at a path. */
  datatype Stored<E> = Corrupt | Readable(top: Object<E>)

  /** The files that exist, with what the factory reads from each. */
  type Disk<E> = map<string, Stored<E>>

  /** The top object `loadAbcArchive` visits, if it gets that far. */
  function Opened<E>(url: Url, disk: Disk<E>): Option<Object<E>>
  {
    if !url.valid || url.localFile !in disk then None
    else match disk[url.localFile]
      case Corrupt => None
      case Readable(top) => Some(top)
  }

  /** The notifications the entity emits. */
  datatype Signal = UrlChanged | ParticleSizeChanged | LocatorScaleChanged | CamerasChanged

  class AlembicEntity<E> {
    var url: Url
    var particleSize: real
    /** The shader uniform that mirrors `particleSize`. */
    var particleSizeParameter: real
    var locatorScale: real
    var children: seq<Node<E>>
    var cameras: seq<Node<E>>
    /** Every notification emitted so far, oldest first. */
    var signals: seq<Signal>
    /** The archive the current tree was built from. */
    ghost var archive: Option<Object<E>>

    ghost function Tree(): set<Transform>
      reads this`children
    {
      ForestFootprint(children)
    }

    ghost function Locators(): set<Transform>
      reads this`cameras
    {
      set t | t in LocatorTransforms(cameras)
    }

    /** The tree is the one the visitor builds for the loaded archive, node for node. */
    ghost predicate TreeBuilt()
      reads this`archive, this`children
    {
      match archive
      case None => children == []
      case Some(top) => |children| == 1 && Mirrors(children[0], top)
    }

    /** The locator list is the tree's camera nodes, in `findChildren` order. */
    ghost predicate CamerasFound()
      reads this`children, this`cameras
    {
      cameras == CameraNodes(Forest(children))
    }

    /** Every transform under a locator has the current locator scale. */
    ghost predicate LocatorsScaled()
      reads this`cameras, this`locatorScale, Locators()`scale
    {
      forall t :: t in LocatorTransforms(cameras) ==> t.scale == locatorScale
    }

    ghost predicate Valid()
      reads this`particleSize, this`particleSizeParameter, this`locatorScale
      reads this`children, this`cameras, this`archive, Locators()`scale
    {
      && particleSizeParameter == particleSize
      && CamerasFound()
      && LocatorsScaled()
      && TreeBuilt()
    }

    constructor ()
      ensures Valid()
      ensures url == Url(false, "") && particleSize == 0.5 && locatorScale == 1.0
      ensures children == [] && cameras == [] && signals == [] && archive == None
    {
      url := Url(false, "");
      particleSize := 0.5;
      particleSizeParameter := 0.5;
      locatorScale := 1.0;
      children := [];
      cameras := [];
      signals := [];
      archive := None;
    }

    /** `clear`: the child entities go away and the locator list empties. */
    method Clear()
      modifies this
      ensures children == [] && cameras == [] && archive == None
      ensures url == old(url) && particleSize == old(particleSize)
      ensures particleSizeParameter == old(particleSizeParameter)
      ensures locatorScale == old(locatorScale) && signals == old(signals)
    {
      children := [];
      cameras := [];
      archive := None;
    }

    /** `scaleLocators`: every transform under every locator gets the locator scale. */
    method ScaleLocators()
      modifies Locators()`scale
      ensures forall t :: t in LocatorTransforms(cameras) ==> t.scale == locatorScale
    {
      for i := 0 to |cameras|
        invariant forall t :: t in LocatorTransforms(cameras[..i]) ==> t.scale == locatorScale
      {
        var transforms := SubtreeTransforms(cameras[i]);
        ghost var done := LocatorTransforms(cameras[..i]);
        assert cameras[..i + 1][..i] == cameras[..i];
        assert LocatorTransforms(cameras[..i + 1]) == done + transforms;
        LocatorPrefix(cameras, i + 1);
        for j := 0 to |transforms|
          invariant forall t :: t in done ==> t.scale == locatorScale
          invariant forall k :: 0 <= k < j ==> transforms[k].scale == locatorScale
        {
          transforms[j].scale := locatorScale;
        }
      }
      assert cameras[..|cameras|] == cameras;
    }

    /**
     * The `createEntity` lambda of `visitAbcObject`: a new transform component,
     * the transform object's matrix, and the properties the entity reports.
     */
    method CreateEntity(obj: Object<E>) returns (transform: Transform, arb: PropertyMap<E>, user: PropertyMap<E>)
      ensures fresh(transform)
      ensures transform.matrix == ExpectedMatrix(obj) && transform.scale == 1.0
      ensures arb == ExpectedArb(obj) && user == ExpectedUser(obj)
    {
      transform := new Transform();
      arb := map[];
      user := map[];
      match Classify(obj) {
        case PointCloud =>
          arb := FillPropertyMap(obj.arbGeomParams, arb);
          user := FillPropertyMap(obj.userProperties, user);
        case Xform =>
          SetTransform(transform, obj.xformMatrix);
          arb := FillPropertyMap(obj.arbGeomParams, arb);
          user := FillPropertyMap(obj.userProperties, user);
        case CameraLocator =>
          arb := FillPropertyMap(obj.arbGeomParams, arb);
          user := FillPropertyMap(obj.userProperties, user);
        case Fallback =>
      }
    }

    /**
     * `visitAbcObject`: one new node for `obj`, classified, named, with its
     * properties and matrix, and its children visited in index order.
     */
    method VisitAbcObject(obj: Object<E>) returns (node: Node<E>)
      ensures Mirrors(node, obj)
      ensures MatricesSet(node, obj)
      ensures fresh(Footprint(node))
      decreases obj
    {
      var transform, arb, user := CreateEntity(obj);
      var built: seq<Node<E>> := [];
      for i := 0 to |obj.children|
        invariant |built| == i
        invariant transform.matrix == ExpectedMatrix(obj)
        invariant MirrorsEach(built, obj.children[..i])
        invariant MatricesEach(built, obj.children[..i])
        invariant fresh(ForestFootprint(built))
      {
        FootprintsAllocated(built);
        var child := VisitAbcObject(obj.children[i]);
        ChildAppended(built, obj.children[..i], child, obj.children[i]);
        FootprintAppended(built, child);
        PrefixGrows(obj.children, i);
        built := built + [child];
      }
      assert obj.children[..|obj.children|] == obj.children;
      node := Node(Classify(obj), obj.name, arb, user, transform, built);
      NodeMatricesSet(node, obj);
    }

    /** `visitAbcObject(archive.getTop(), this)`: the top object's node becomes the only child. */
    method VisitTop(top: Object<E>)
      modifies this`children, this`archive
      ensures archive == Some(top) && |children| == 1
      ensures TreeBuilt() && fresh(Tree())
      ensures MatricesSet(children[0], top)
    {
      var node := VisitAbcObject(top);
      children := [node];
      archive := Some(top);
    }

    /**
     * The rest of `loadAbcArchive` once the archive has opened: visit the top
     * object, collect the locators in `findChildren` order and scale them.
     */
    method Populate(top: Object<E>)
      requires particleSizeParameter == particleSize
      modifies this
      ensures Valid()
      ensures archive == Some(top) && |children| == 1 && fresh(Tree())
      ensures MatricesSet(children[0], top)
      ensures url == old(url) && particleSize == old(particleSize)
      ensures locatorScale == old(locatorScale) && signals == old(signals)
    {
      VisitTop(top);
      assert children == [children[0]];
      assert Footprint(children[0]) <= Tree();
      LocatorsInTree(children[0]);
      cameras := CameraNodes(Forest(children));
      FootprintsAllocated(children);
      label Built:
      ScaleLocators();
      assert forall t :: t in Tree() ==> t.matrix == old@Built(t.matrix);
    }

    /** `loadAbcArchive`: clear, then rebuild the tree if the archive opens. */
    method LoadAbcArchive(disk: Disk<E>)
      requires Valid()
      modifies this
      ensures Valid()
      ensures url == old(url) && particleSize == old(particleSize)
      ensures locatorScale == old(locatorScale)
      ensures archive == Opened(url, disk)
      ensures fresh(Tree())
      ensures Opened(url, disk).None? ==> children == [] && cameras == [] && signals == old(signals)
      ensures Opened(url, disk).Some? ==>
        && |children| == 1
        && MatricesSet(children[0], Opened(url, disk).value)
        && signals == old(signals) + [CamerasChanged]
    {
      Clear();
      if !url.valid || url.localFile !in disk {
        return;
      }
      var stored := disk[url.localFile];
      if stored.Corrupt? {
        return;
      }
      Populate(stored.top);
      signals := signals + [CamerasChanged];
    }

    /** `setUrl`: a new URL reloads the archive; the current one does nothing. */
    method SetUrl(value: Url, disk: Disk<E>)
      requires Valid()
      modifies this
      ensures Valid()
      ensures value == old(url) ==> unchanged(this)
      ensures value != old(url) ==>
        && url == value
        && archive == Opened(value, disk)
        && particleSize == old(particleSize) && locatorScale == old(locatorScale)
        && fresh(Tree())
        && (Opened(value, disk).Some? ==> MatricesSet(children[0], Opened(value, disk).value))
        && signals == old(signals) + (if Opened(value, disk).Some? then [CamerasChanged] else []) + [UrlChanged]
    {
      if url == value {
        return;
      }
      url := value;
      LoadAbcArchive(disk);
      signals := signals + [UrlChanged];
    }

    /** `setParticleSize`: the field and the shader uniform take the new value. */
    method SetParticleSize(value: real)
      requires Valid()
      modifies this
      ensures Valid()
      ensures value == old(particleSize) ==> unchanged(this)
      ensures value != old(particleSize) ==>
        && particleSize == value && particleSizeParameter == value
        && url == old(url) && locatorScale == old(locatorScale)
        && children == old(children) && cameras == old(cameras) && archive == old(archive)
        && signals == old(signals) + [ParticleSizeChanged]
    {
      if particleSize == value {
        return;
      }
      particleSize := value;
      particleSizeParameter := value;
      signals := signals + [ParticleSizeChanged];
    }

    /** `setLocatorScale`: a new scale is applied to every locator transform. */
    method SetLocatorScale(value: real)
      requires Valid()
      modifies this, Locators()`scale
      ensures Valid()
      ensures locatorScale == value
      ensures forall t :: t in LocatorTransforms(cameras) ==> t.scale == value
      ensures value == old(locatorScale) ==> unchanged(this)
      ensures value != old(locatorScale) ==>
        && url == old(url) && particleSize == old(particleSize)
        && children == old(children) && cameras == old(cameras) && archive == old(archive)
        && signals == old(signals) + [LocatorScaleChanged]
    {
      if locatorScale == value {
        return;
      }
      locatorScale := value;
      ScaleLocators();
      signals := signals + [LocatorScaleChanged];
    }
  }
}
