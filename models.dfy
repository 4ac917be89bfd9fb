/**
 * Models (src/Model.h, src/Model.cpp): an imported scene flattened into
 * objects and materials, its local bounding box, its pose, and the
 * death countdown; `Asteroid` adds a velocity.
 */
module Models {
  import opened Geometry
  import opened Wrappers
  import opened BBoxes
  import opened Objects

  /** An `aiNode`: indices into the scene's meshes, then the child nodes. */
  datatype Node = Node(meshes: seq<nat>, children: seq<Node>)

  /** An `aiMaterial`: the paths of its diffuse textures, its diffuse colour and opacity. */
  datatype SceneMaterial = SceneMaterial(diffuseTextures: seq<string>, diffuseColor: Vec3, opacity: real)

  /** What the importer returns: `root` is None when `mRootNode` is null. */
  datatype Scene = Scene(root: Option<Node>, meshes: seq<Mesh>, materials: seq<SceneMaterial>)

  /** A mesh `process_object` can hand to `Object::create`: UVs present, material index in range. */
  predicate MeshUsable(mesh: Mesh, scene: Scene) {
    Readable(mesh) && mesh.materialIndex < |scene.materials|
  }

  /** Every mesh index below this node names a usable mesh of the scene. */
  predicate NodeReadable(node: Node, scene: Scene) {
    && (forall i :: 0 <= i < |node.meshes| ==>
          node.meshes[i] < |scene.meshes| && MeshUsable(scene.meshes[node.meshes[i]], scene))
    && (forall i :: 0 <= i < |node.children| ==> NodeReadable(node.children[i], scene))
  }

  /** The import succeeded: neither the scene nor its root is null. */
  predicate Imported(scene: Option<Scene>) {
    scene.Some? && scene.value.root.Some?
  }

  /** What the constructor demands of a successful import. */
  predicate SceneReadable(scene: Option<Scene>) {
    Imported(scene) ==> NodeReadable(scene.value.root.value, scene.value)
  }

  /** The mesh indices of a node's subtree in pre-order: own meshes, then each child's subtree. */
  function MeshOrder(node: Node): seq<nat>
    decreases node, 1
  {
    node.meshes + ChildrenOrder(node, |node.children|)
  }

  /** The pre-order mesh indices of the first `i` children of `node`. */
  function ChildrenOrder(node: Node, i: nat): seq<nat>
    requires i <= |node.children|
    decreases node, 0, i
  {
    if i == 0 then [] else ChildrenOrder(node, i - 1) + MeshOrder(node.children[i - 1])
  }

  /** `objs` are, in order, the objects `create` makes of the meshes listed in `order`. */
  ghost predicate ObjectsMatch(objs: seq<Object>, order: seq<nat>, scene: Scene, materials: seq<Material>) {
    && |objs| == |order|
    && forall k :: 0 <= k < |objs| ==>
         && order[k] < |scene.meshes|
         && scene.meshes[order[k]].materialIndex < |materials|
         && BuiltFrom(objs[k], scene.meshes[order[k]], materials[scene.meshes[order[k]].materialIndex])
  }

  lemma ObjectsMatchAppend(a: seq<Object>, oa: seq<nat>, b: seq<Object>, ob: seq<nat>, scene: Scene, materials: seq<Material>)
    requires ObjectsMatch(a, oa, scene, materials) && ObjectsMatch(b, ob, scene, materials)
    ensures ObjectsMatch(a + b, oa + ob, scene, materials)
  {
    var ab, o := a + b, oa + ob;
    forall k | 0 <= k < |ab|
      ensures o[k] < |scene.meshes| && scene.meshes[o[k]].materialIndex < |materials|
              && BuiltFrom(ab[k], scene.meshes[o[k]], materials[scene.meshes[o[k]].materialIndex])
    {
      if k >= |a| {
        assert ab[k] == b[k - |a|] && o[k] == ob[k - |a|];
      }
    }
  }

  lemma MeshStep(objects: seq<Object>, start: nat, o: Object, meshes: seq<nat>, i: nat, scene: Scene, materials: seq<Material>)
    requires start <= |objects| && i < |meshes|
    requires ObjectsMatch(objects[start..], meshes[..i], scene, materials)
    requires ObjectsMatch([o], [meshes[i]], scene, materials)
    ensures ObjectsMatch((objects + [o])[start..], meshes[..i + 1], scene, materials)
    ensures (objects + [o])[..start] == objects[..start]
  {
    ObjectsMatchAppend(objects[start..], meshes[..i], [o], [meshes[i]], scene, materials);
    assert objects[start..] + [o] == (objects + [o])[start..];
    assert meshes[..i] + [meshes[i]] == meshes[..i + 1];
  }

  lemma ChildStep(objects: seq<Object>, mid: seq<Object>, start: nat, node: Node, c: nat, scene: Scene, materials: seq<Material>)
    requires start <= |mid| <= |objects| && objects[..|mid|] == mid && c < |node.children|
    requires ObjectsMatch(mid[start..], node.meshes + ChildrenOrder(node, c), scene, materials)
    requires ObjectsMatch(objects[|mid|..], MeshOrder(node.children[c]), scene, materials)
    ensures ObjectsMatch(objects[start..], node.meshes + ChildrenOrder(node, c + 1), scene, materials)
    ensures objects[..start] == mid[..start]
  {
    assert objects[start..] == mid[start..] + objects[|mid|..];
    ObjectsMatchAppend(mid[start..], node.meshes + ChildrenOrder(node, c),
                       objects[|mid|..], MeshOrder(node.children[c]), scene, materials);
    assert node.meshes + ChildrenOrder(node, c) + MeshOrder(node.children[c])
        == node.meshes + ChildrenOrder(node, c + 1);
  }

  /** Every object holds whole vertex triples. */
  ghost predicate WholeTriples(objs: seq<Object>) {
    forall k :: 0 <= k < |objs| ==> |objs[k].vertices| % 3 == 0
  }

  lemma ObjectsMatchWholeTriples(objs: seq<Object>, order: seq<nat>, scene: Scene, materials: seq<Material>)
    requires ObjectsMatch(objs, order, scene, materials)
    ensures WholeTriples(objs)
  {
    forall k | 0 <= k < |objs|
      ensures |objs[k].vertices| % 3 == 0
    {
      FlatVerticesLength(scene.meshes[order[k]].vertices);
    }
  }

  /** The vertex triples of a flattened vertex array. */
  function Triples(vs: seq<real>): seq<Vec3>
    requires |vs| % 3 == 0
  {
    if |vs| == 0 then [] else
      var n := |vs| - 3;
      Triples(vs[..n]) + [Vec3(vs[n], vs[n + 1], vs[n + 2])]
  }

  /** All vertex triples of all objects, object by object. */
  ghost function ObjectPoints(objs: seq<Object>): seq<Vec3>
    requires WholeTriples(objs)
  {
    if |objs| == 0 then [] else ObjectPoints(objs[..|objs| - 1]) + Triples(objs[|objs| - 1].vertices)
  }

  /** The min/max reduction of the constructor's loop, starting from box `b`. */
  function Enclose(b: BBox, ps: seq<Vec3>): BBox {
    if |ps| == 0 then b else
      var e := Enclose(b, ps[..|ps| - 1]);
      var p := ps[|ps| - 1];
      BBox(MinV(e.min, p), MaxV(e.max, p))
  }

  lemma {:induction false} EncloseAppend(b: BBox, xs: seq<Vec3>, ys: seq<Vec3>)
    ensures Enclose(b, xs + ys) == Enclose(Enclose(b, xs), ys)
    decreases |ys|
  {
    if |ys| > 0 {
      var n := |ys| - 1;
      assert (xs + ys)[..|xs + ys| - 1] == xs + ys[..n];
      assert (xs + ys)[|xs + ys| - 1] == ys[n];
      EncloseAppend(b, xs, ys[..n]);
      var e := Enclose(b, xs + ys[..n]);
      assert Enclose(b, xs + ys) == BBox(MinV(e.min, ys[n]), MaxV(e.max, ys[n]));
    } else {
      assert xs + ys == xs;
    }
  }

  /**
   * The reduction covers its start box and every point: min <= p <= max
   * componentwise.
   */
  lemma {:induction false} EncloseCovers(b: BBox, ps: seq<Vec3>)
    ensures LessEq(Enclose(b, ps).min, b.min) && LessEq(b.max, Enclose(b, ps).max)
    ensures forall i :: 0 <= i < |ps| ==> Contains(Enclose(b, ps), ps[i])
  {
    if |ps| > 0 {
      EncloseCovers(b, ps[..|ps| - 1]);
      var e := Enclose(b, ps);
      forall i | 0 <= i < |ps| - 1
        ensures Contains(e, ps[i])
      {
        assert Contains(Enclose(b, ps[..|ps| - 1]), ps[..|ps| - 1][i]);
      }
    }
  }

  /** One coordinate of the reduction is attained: by the start box or by some point. */
  lemma {:induction false} EncloseTight(b: BBox, ps: seq<Vec3>)
    ensures var e := Enclose(b, ps);
            && (e.min.x == b.min.x || exists i :: 0 <= i < |ps| && e.min.x == ps[i].x)
            && (e.min.y == b.min.y || exists i :: 0 <= i < |ps| && e.min.y == ps[i].y)
            && (e.min.z == b.min.z || exists i :: 0 <= i < |ps| && e.min.z == ps[i].z)
            && (e.max.x == b.max.x || exists i :: 0 <= i < |ps| && e.max.x == ps[i].x)
            && (e.max.y == b.max.y || exists i :: 0 <= i < |ps| && e.max.y == ps[i].y)
            && (e.max.z == b.max.z || exists i :: 0 <= i < |ps| && e.max.z == ps[i].z)
  {
    if |ps| > 0 {
      var n := |ps| - 1;
      var init := ps[..n];
      EncloseTight(b, init);
      forall i | 0 <= i < n
        ensures init[i] == ps[i]
      {
      }
    }
  }

  /**
   * The model's box starts from `BBox()`, so it always contains the origin
   * as well as every vertex.
   */
  lemma ModelBoxContainsOriginAndVertices(ps: seq<Vec3>)
    ensures Contains(Enclose(DefaultBBox, ps), Zero)
    ensures WellFormed(Enclose(DefaultBBox, ps))
    ensures forall i :: 0 <= i < |ps| ==> Contains(Enclose(DefaultBBox, ps), ps[i])
  {
    EncloseCovers(DefaultBBox, ps);
  }

  /** `find_last_of(c)`: the position of the last `c`, or None for `npos`. */
  function LastIndexOf(s: string, c: char): (r: Option<nat>)
    ensures r.Some? ==> r.value < |s| && s[r.value] == c && forall j :: r.value < j < |s| ==> s[j] != c
    ensures r.None? ==> forall j :: 0 <= j < |s| ==> s[j] != c
  {
    if |s| == 0 then None
    else if s[|s| - 1] == c then Some(|s| - 1)
    else LastIndexOf(s[..|s| - 1], c)
  }

  /**
   * `path.substr(0, path.find_last_of('/'))`: the part of the path before
   * its last '/'; `substr(0, npos)` keeps the whole path when it has none.
   */
  function DirectoryOf(path: string): (r: string)
    ensures r <= path
    ensures '/' !in path ==> r == path
    ensures '/' in path ==> |r| < |path| && path[|r|] == '/' && '/' !in path[|r| + 1..]
  {
    match LastIndexOf(path, '/')
    case None => path
    case Some(k) => path[..k]
  }

  /** `model_location + '/' + path`. */
  function TexturePath(location: string, name: string): string {
    location + "/" + name
  }

  /**
   * The model location is the path up to its last '/' (or the whole path
   * when it has none); so a texture named next to the model file is found
   * in the model file's directory.
   */
  lemma DirectoryOfSplit(dir: string, file: string, texture: string)
    requires '/' !in file
    ensures DirectoryOf(dir + "/" + file) == dir
    ensures TexturePath(DirectoryOf(dir + "/" + file), texture) == dir + "/" + texture
  {
    var path := dir + "/" + file;
    var k := |dir|;
    assert path[k] == '/';
    match LastIndexOf(path, '/')
    case None =>
      assert false;
    case Some(j) =>
      assert path[..k] == dir;
  }

  lemma DirectoryOfNoSlash(path: string)
    requires '/' !in path
    ensures DirectoryOf(path) == path
  {
  }

  /**
   * The material `process_textures` makes of one scene material: texture
   * name 0 exactly when it lists no diffuse texture, otherwise the first
   * one read from the model's directory; its diffuse colour with alpha 1.
   */
  function MaterialFor(m: SceneMaterial, location: string, readTexture: string -> GlName): (r: Material)
    ensures r.diffuseTexture == 0 <==> |m.diffuseTextures| == 0
    ensures |m.diffuseTextures| > 0 ==> r.diffuseTexture == readTexture(location + "/" + m.diffuseTextures[0])
    ensures r.diffuseColor == Vec4(m.diffuseColor.x, m.diffuseColor.y, m.diffuseColor.z, 1.0) && r.opacity == m.opacity
  {
    var color := Vec4(m.diffuseColor.x, m.diffuseColor.y, m.diffuseColor.z, 1.0);
    if |m.diffuseTextures| == 0 then Material(0, color, m.opacity)
    else Material(readTexture(TexturePath(location, m.diffuseTextures[0])), color, m.opacity)
  }

  /** One material per scene material, in order. */
  function MaterialsFor(ms: seq<SceneMaterial>, location: string, readTexture: string -> GlName): seq<Material> {
    if |ms| == 0 then [] else MaterialsFor(ms[..|ms| - 1], location, readTexture) + [MaterialFor(ms[|ms| - 1], location, readTexture)]
  }

  /**
   * `materials` has one entry per scene material: texture 0 exactly when
   * the scene material has no diffuse texture, otherwise the texture
   * read from the model's directory; diffuse alpha 1.
   */
  lemma {:induction false} MaterialsForAt(ms: seq<SceneMaterial>, location: string, readTexture: string -> GlName, i: nat)
    requires i < |ms|
    ensures |MaterialsFor(ms, location, readTexture)| == |ms|
    ensures var m := MaterialsFor(ms, location, readTexture)[i];
            && (m.diffuseTexture == 0 <==> |ms[i].diffuseTextures| == 0)
            && (|ms[i].diffuseTextures| > 0 ==> m.diffuseTexture == readTexture(TexturePath(location, ms[i].diffuseTextures[0])))
            && m.diffuseColor == Vec4(ms[i].diffuseColor.x, ms[i].diffuseColor.y, ms[i].diffuseColor.z, 1.0)
            && m.opacity == ms[i].opacity
  {
    var n := |ms| - 1;
    MaterialsForLength(ms[..n], location, readTexture);
    if i < n {
      MaterialsForAt(ms[..n], location, readTexture, i);
    }
  }

  lemma {:induction false} MaterialsForLength(ms: seq<SceneMaterial>, location: string, readTexture: string -> GlName)
    ensures |MaterialsFor(ms, location, readTexture)| == |ms|
  {
    if |ms| > 0 {
      MaterialsForLength(ms[..|ms| - 1], location, readTexture);
    }
  }

  /** An object built from a scene material has a texture exactly when that material names one. */
  lemma HaveTextureIffSceneTexture(o: Object, mesh: Mesh, m: SceneMaterial, location: string, readTexture: string -> GlName)
    requires BuiltFrom(o, mesh, MaterialFor(m, location, readTexture))
    ensures o.HaveTexture() <==> |m.diffuseTextures| > 0
    ensures o.DiffuseColor().w == 1.0 && o.Opacity() == m.opacity
  {
  }

  /** Position, rotation and scale: the part of a model that its methods move. */
  datatype Pose = Pose(worldPos: Vec3, rot: Rotation, scaleCoef: real)

  /** `getBBox()` for an unrotated model: both corners scaled, then translated. */
  function TransformedBBox(b: BBox, worldPos: Vec3, scaleCoef: real): BBox {
    BBox(Add(worldPos, Scale(scaleCoef, b.min)), Add(worldPos, Scale(scaleCoef, b.max)))
  }

  /**
   * With a positive scale, the world box of an unrotated model contains
   * the world position of every local point of the local box.
   */
  lemma TransformedBBoxContains(b: BBox, worldPos: Vec3, scaleCoef: real, p: Vec3)
    requires scaleCoef > 0.0 && Contains(b, p)
    ensures WellFormed(TransformedBBox(b, worldPos, scaleCoef))
    ensures Contains(TransformedBBox(b, worldPos, scaleCoef), Add(worldPos, Scale(scaleCoef, p)))
  {
    MulLeftMonotone(scaleCoef, b.min.x, p.x);
    MulLeftMonotone(scaleCoef, p.x, b.max.x);
    MulLeftMonotone(scaleCoef, b.min.y, p.y);
    MulLeftMonotone(scaleCoef, p.y, b.max.y);
    MulLeftMonotone(scaleCoef, b.min.z, p.z);
    MulLeftMonotone(scaleCoef, p.z, b.max.z);
  }

  /** `TransformedBBoxContains` for every point of the local box at once. */
  lemma TransformedBBoxContainsAll(b: BBox, worldPos: Vec3, scaleCoef: real)
    ensures scaleCoef > 0.0 && WellFormed(b) ==> WellFormed(TransformedBBox(b, worldPos, scaleCoef))
    ensures scaleCoef > 0.0 ==> forall p :: Contains(b, p) ==> Contains(TransformedBBox(b, worldPos, scaleCoef), Add(worldPos, Scale(scaleCoef, p)))
  {
    if scaleCoef > 0.0 {
      if WellFormed(b) {
        TransformedBBoxContains(b, worldPos, scaleCoef, b.min);
      }
      forall p | Contains(b, p)
        ensures Contains(TransformedBBox(b, worldPos, scaleCoef), Add(worldPos, Scale(scaleCoef, p)))
      {
        TransformedBBoxContains(b, worldPos, scaleCoef, p);
      }
    }
  }

  lemma MulLeftMonotone(c: real, a: real, b: real)
    requires c > 0.0 && a <= b
    ensures c * a <= c * b
  {
    assert c * b - c * a == c * (b - a);
  }

  /** One `die()` call: the new countdown, and whether it has just reached 0. */
  function DieStep(countdown: int): (int, bool) {
    (countdown - 1, countdown - 1 == 0)
  }

  /** The results of `n` successive `die()` calls on a countdown starting at `c`. */
  function DieResults(c: int, n: nat): seq<bool> {
    if n == 0 then [] else DieResults(c, n - 1) + [DieStep(c - (n - 1)).1]
  }

  /**
   * From a countdown of c > 0, the k-th call of `die()` (counting from 1)
   * returns true exactly when k == c: false before, and false again after,
   * since the countdown goes on below zero.
   */
  lemma {:induction false} DieResultsAt(c: int, n: nat, k: nat)
    requires 0 < k <= n
    ensures |DieResults(c, n)| == n
    ensures DieResults(c, n)[k - 1] <==> k == c
  {
    if k < n {
      DieResultsAt(c, n - 1, k);
    } else {
      DieResultsLength(c, n - 1);
    }
  }

  lemma {:induction false} DieResultsLength(c: int, n: nat)
    ensures |DieResults(c, n)| == n
  {
    if n > 0 {
      DieResultsLength(c, n - 1);
    }
  }

  class Model {
    var modelLocation: string
    var objects: seq<Object>
    var materials: seq<Material>
    var bbox: BBox
    var worldPos: Vec3
    var rot: Rotation
    var scaleCoef: real
    var damage: real
    var dead: bool
    var deathCountdown: int

    ghost function CurrentPose(): Pose
      reads this
    {
      Pose(worldPos, rot, scaleCoef)
    }

    /** The field defaults of a fresh `Model`. */
    ghost predicate Fresh()
      reads this
    {
      worldPos == Zero && rot == Identity && scaleCoef == 1.0 && damage == 10.0
      && !dead && deathCountdown == 60
    }

    /** What `Model(path)` builds from the importer's result `scene`. */
    ghost predicate LoadedFrom(path: string, scene: Option<Scene>, readTexture: string -> GlName)
      reads this
    {
      && modelLocation == DirectoryOf(path)
      && Fresh()
      && LoadedContents(scene, readTexture)
      && bbox == Enclose(DefaultBBox, ObjectPoints(objects))
    }

    /**
     * `Model(path)`: derive the model location, read materials then
     * objects from the scene when the import succeeded, and reduce all
     * vertices into the bounding box.
     */
    constructor Load(path: string, scene: Option<Scene>, readTexture: string -> GlName)
      requires SceneReadable(scene)
      ensures LoadedFrom(path, scene, readTexture)
      ensures forall k :: 0 <= k < |objects| ==> fresh(objects[k])
    {
      modelLocation := DirectoryOf(path);
      objects := [];
      materials := [];
      bbox := DefaultBBox;
      worldPos := Zero;
      rot := Identity;
      scaleCoef := 1.0;
      damage := 10.0;
      dead := false;
      deathCountdown := 60;
      new;
      ProcessScene(scene, readTexture);
      ComputeBBox();
    }

    /** The import branch of `Model(path)`: materials first, then the node tree. */
    method ProcessScene(scene: Option<Scene>, readTexture: string -> GlName)
      requires SceneReadable(scene) && objects == [] && materials == []
      modifies this`objects, this`materials
      ensures LoadedContents(scene, readTexture)
      ensures forall k :: 0 <= k < |objects| ==> fresh(objects[k])
    {
      if Imported(scene) {
        ProcessTextures(scene.value, readTexture);
        MaterialsForLength(scene.value.materials, modelLocation, readTexture);
        ProcessObject(scene.value.root.value, scene.value);
        ObjectsMatchWholeTriples(objects, MeshOrder(scene.value.root.value), scene.value, materials);
      }
    }

    /** `LoadedFrom` without the box. */
    ghost predicate LoadedContents(scene: Option<Scene>, readTexture: string -> GlName)
      reads this
    {
      && (Imported(scene) ==>
            && materials == MaterialsFor(scene.value.materials, modelLocation, readTexture)
            && ObjectsMatch(objects, MeshOrder(scene.value.root.value), scene.value, materials))
      && (!Imported(scene) ==> objects == [] && materials == [])
      && WholeTriples(objects)
    }

    /** The "Calculate bbox" loop of the constructor: every vertex triple of every object. */
    method ComputeBBox()
      requires bbox == DefaultBBox && WholeTriples(objects)
      modifies this`bbox
      ensures bbox == Enclose(DefaultBBox, ObjectPoints(objects))
    {
      var k := 0;
      while k < |objects|
        invariant 0 <= k <= |objects|
        invariant WholeTriples(objects[..k])
        invariant bbox == Enclose(DefaultBBox, ObjectPoints(objects[..k]))
      {
        ghost var before := ObjectPoints(objects[..k]);
        bbox := EncloseTriples(bbox, objects[k].vertices);
        assert objects[..k + 1][..k] == objects[..k];
        EncloseAppend(DefaultBBox, before, Triples(objects[k].vertices));
        k := k + 1;
      }
      assert objects[..k] == objects;
    }

    /** `process_textures`: one material per scene material, appended in order. */
    method ProcessTextures(scene: Scene, readTexture: string -> GlName)
      modifies this`materials
      ensures materials == old(materials) + MaterialsFor(scene.materials, modelLocation, readTexture)
    {
      var materialIndex := 0;
      while materialIndex < |scene.materials|
        invariant 0 <= materialIndex <= |scene.materials|
        invariant materials == old(materials) + MaterialsFor(scene.materials[..materialIndex], modelLocation, readTexture)
      {
        var material := scene.materials[materialIndex];
        var glmDiffuseColor := Vec4(material.diffuseColor.x, material.diffuseColor.y, material.diffuseColor.z, 1.0);
        if |material.diffuseTextures| == 0 {
          materials := materials + [Material(0, glmDiffuseColor, material.opacity)];
        } else {
          var fullPath := modelLocation + "/" + material.diffuseTextures[0];
          materials := materials + [Material(readTexture(fullPath), glmDiffuseColor, material.opacity)];
        }
        assert scene.materials[..materialIndex + 1][..materialIndex] == scene.materials[..materialIndex];
        materialIndex := materialIndex + 1;
      }
      assert scene.materials[..materialIndex] == scene.materials;
    }

    /**
     * `process_object`: the node's meshes in index order, then each child
     * subtree in order, each mesh made into an object with its material.
     */
    method ProcessObject(node: Node, scene: Scene)
      requires NodeReadable(node, scene) && |materials| == |scene.materials|
      modifies this`objects
      decreases node, 1
      ensures |objects| >= |old(objects)| && objects[..|old(objects)|] == old(objects)
      ensures ObjectsMatch(objects[|old(objects)|..], MeshOrder(node), scene, materials)
      ensures forall k :: |old(objects)| <= k < |objects| ==> fresh(objects[k])
    {
      ProcessMeshes(node, scene);
      ProcessChildren(node, scene, |old(objects)|);
    }

    /** The first loop of `process_object`: one object per mesh of the node, in index order. */
    method ProcessMeshes(node: Node, scene: Scene)
      requires NodeReadable(node, scene) && |materials| == |scene.materials|
      modifies this`objects
      ensures |objects| >= |old(objects)| && objects[..|old(objects)|] == old(objects)
      ensures ObjectsMatch(objects[|old(objects)|..], node.meshes, scene, materials)
      ensures forall k :: |old(objects)| <= k < |objects| ==> fresh(objects[k])
    {
      ghost var start := |objects|;
      var i := 0;
      while i < |node.meshes|
        invariant 0 <= i <= |node.meshes|
        invariant |objects| >= start && objects[..start] == old(objects)
        invariant ObjectsMatch(objects[start..], node.meshes[..i], scene, materials)
        invariant forall k :: start <= k < |objects| ==> fresh(objects[k])
      {
        var mesh := scene.meshes[node.meshes[i]];
        var o := Object.Create(mesh, materials[mesh.materialIndex]);
        MeshStep(objects, start, o, node.meshes, i, scene, materials);
        objects := objects + [o];
        i := i + 1;
      }
      assert node.meshes[..i] == node.meshes;
    }

    /**
     * The second loop of `process_object`: every child subtree in order,
     * after the objects already listed for this node from `start` on.
     */
    method ProcessChildren(node: Node, scene: Scene, ghost start: nat)
      requires NodeReadable(node, scene) && |materials| == |scene.materials|
      requires start <= |objects| && ObjectsMatch(objects[start..], node.meshes, scene, materials)
      modifies this`objects
      decreases node, 0
      ensures |objects| >= |old(objects)| && objects[..|old(objects)|] == old(objects)
      ensures ObjectsMatch(objects[start..], MeshOrder(node), scene, materials)
      ensures forall k :: |old(objects)| <= k < |objects| ==> fresh(objects[k])
    {
      assert node.meshes + ChildrenOrder(node, 0) == node.meshes;
      var c := 0;
      while c < |node.children|
        invariant 0 <= c <= |node.children|
        invariant |objects| >= |old(objects)| && objects[..|old(objects)|] == old(objects)
        invariant ObjectsMatch(objects[start..], node.meshes + ChildrenOrder(node, c), scene, materials)
        invariant forall k :: |old(objects)| <= k < |objects| ==> fresh(objects[k])
      {
        ghost var mid := objects;
        ProcessObject(node.children[c], scene);
        ChildStep(objects, mid, start, node, c, scene, materials);
        assert objects[..|old(objects)|] == mid[..|old(objects)|];
        c := c + 1;
      }
    }

    /** The implicit copy constructor: every member copied, the objects one by one. */
    constructor Copy(m: Model)
      ensures SameAsset(this, m) && CurrentPose() == m.CurrentPose()
      ensures SamePoses(objects, m.objects)
      ensures forall k :: 0 <= k < |objects| ==> fresh(objects[k])
    {
      var copies := CloneObjects(m.objects);
      modelLocation := m.modelLocation;
      objects := copies;
      materials := m.materials;
      bbox := m.bbox;
      worldPos := m.worldPos;
      rot := m.rot;
      scaleCoef := m.scaleCoef;
      damage := m.damage;
      dead := m.dead;
      deathCountdown := m.deathCountdown;
    }

    /** `move(translation)`. */
    method Move(translation: Vec3)
      modifies this`worldPos
      ensures worldPos == Add(old(worldPos), translation)
    {
      worldPos := Add(worldPos, translation);
    }

    /** `rotate(angle, axis)`: post-multiplies the rotation by one more factor. */
    method Rotate(angle: real, axis: Vec3)
      modifies this`rot
      ensures rot == old(rot) + [AxisAngle(angle, axis)]
    {
      rot := rot + [AxisAngle(angle, axis)];
    }

    /** `scale(coef)`. */
    method Scale(coef: real)
      modifies this`scaleCoef
      ensures scaleCoef == old(scaleCoef) * coef
    {
      scaleCoef := scaleCoef * coef;
    }

    /**
     * `getBBox()` for an unrotated model: with a positive scale it contains
     * the world position of every point of the local box.
     */
    function WorldBBox(): (r: BBox)
      reads this
      requires rot == Identity
      ensures scaleCoef > 0.0 && WellFormed(bbox) ==> WellFormed(r)
      ensures scaleCoef > 0.0 ==> forall p :: Contains(bbox, p) ==> Contains(r, Add(worldPos, Geometry.Scale(scaleCoef, p)))
    {
      TransformedBBoxContainsAll(bbox, worldPos, scaleCoef);
      TransformedBBox(bbox, worldPos, scaleCoef)
    }

    /**
     * `die()`: one tick of the countdown; true exactly when it has just
     * reached 0. It does not set `dead` and does not stop at 0.
     */
    method Die() returns (r: bool)
      modifies this`deathCountdown
      ensures deathCountdown == old(deathCountdown) - 1
      ensures r <==> deathCountdown == 0
      ensures (deathCountdown, r) == DieStep(old(deathCountdown))
    {
      deathCountdown := deathCountdown - 1;
      r := deathCountdown == 0;
    }
  }

  /**
   * A loaded model's box is well formed and contains the origin and
   * every vertex of every object.
   */
  lemma LoadedBoxCoversVertices(m: Model, path: string, scene: Option<Scene>, readTexture: string -> GlName)
    requires m.LoadedFrom(path, scene, readTexture)
    ensures WellFormed(m.bbox) && Contains(m.bbox, Zero)
    ensures forall i :: 0 <= i < |ObjectPoints(m.objects)| ==> Contains(m.bbox, ObjectPoints(m.objects)[i])
  {
    ModelBoxContainsOriginAndVertices(ObjectPoints(m.objects));
  }

  /** When the import fails the model has no objects, no materials and the zero box. */
  lemma FailedImportIsEmpty(m: Model, path: string, scene: Option<Scene>, readTexture: string -> GlName)
    requires m.LoadedFrom(path, scene, readTexture) && !Imported(scene)
    ensures m.objects == [] && m.materials == [] && m.bbox == DefaultBBox
  {
  }

  /** `a` is a member-wise copy of `b`, its objects copied one by one. */
  ghost predicate SameAsset(a: Model, b: Model)
    reads a, b
  {
    && a.modelLocation == b.modelLocation && a.materials == b.materials && a.bbox == b.bbox
    && a.damage == b.damage && a.dead == b.dead && a.deathCountdown == b.deathCountdown
    && |a.objects| == |b.objects|
    && forall k :: 0 <= k < |a.objects| ==> SameData(a.objects[k], b.objects[k])
  }

  /** Same arrays and material: the part of an `Object` fixed at construction. */
  ghost predicate SameData(a: Object, b: Object) {
    a.vertices == b.vertices && a.elements == b.elements
    && a.textureCoords == b.textureCoords && a.material == b.material
  }

  /** Object by object, the same world position and rotation. */
  ghost predicate SamePoses(a: seq<Object>, b: seq<Object>)
    reads a, b
  {
    |a| == |b| && forall k :: 0 <= k < |a| ==> a[k].worldPos == b[k].worldPos && a[k].rot == b[k].rot
  }

  /** The inner loop of the bbox computation: one object's vertices, three reals at a time. */
  method EncloseTriples(b: BBox, vs: seq<real>) returns (r: BBox)
    requires |vs| % 3 == 0
    ensures r == Enclose(b, Triples(vs))
  {
    r := b;
    var i := 0;
    while i < |vs|
      invariant 0 <= i <= |vs| && i % 3 == 0
      invariant r == Enclose(b, Triples(vs[..i]))
    {
      var vertex := Vec3(vs[i], vs[i + 1], vs[i + 2]);
      r := BBox(MinV(r.min, vertex), MaxV(r.max, vertex));
      EncloseNextTriple(b, vs, i);
      i := i + 3;
    }
    assert vs[..i] == vs;
  }

  /** One step of the inner bbox loop: the next triple joins the enclosed points. */
  lemma EncloseNextTriple(b: BBox, vs: seq<real>, i: nat)
    requires i % 3 == 0 && i + 3 <= |vs|
    ensures var e := Enclose(b, Triples(vs[..i]));
            var v := Vec3(vs[i], vs[i + 1], vs[i + 2]);
            Enclose(b, Triples(vs[..i + 3])) == BBox(MinV(e.min, v), MaxV(e.max, v))
  {
    var ps := Triples(vs[..i + 3]);
    assert vs[..i + 3][..i] == vs[..i];
    assert ps == Triples(vs[..i]) + [Vec3(vs[i], vs[i + 1], vs[i + 2])];
    assert ps[..|ps| - 1] == Triples(vs[..i]);
  }

  /** The member-wise copies of a list of objects. */
  method CloneObjects(objs: seq<Object>) returns (copies: seq<Object>)
    ensures |copies| == |objs|
    ensures forall k :: 0 <= k < |objs| ==> fresh(copies[k]) && SameData(copies[k], objs[k])
    ensures SamePoses(copies, objs)
  {
    copies := [];
    var k := 0;
    while k < |objs|
      invariant 0 <= k <= |objs| && |copies| == k
      invariant forall j :: 0 <= j < k ==> fresh(copies[j]) && SameData(copies[j], objs[j])
      invariant SamePoses(copies, objs[..k])
    {
      var o := new Object.Clone(objs[k]);
      copies := copies + [o];
      k := k + 1;
    }
  }

  /** An asteroid: a model of its own, plus a constant velocity. */
  class Asteroid {
    const body: Model
    var velocity: Vec3

    /**
     * `Asteroid(model, velocity)`: a copy of `model`, turned so that its
     * z axis points along `velocity`.
     */
    constructor (model: Model, velocity: Vec3)
      ensures fresh(body) && SameAsset(body, model) && SamePoses(body.objects, model.objects)
      ensures body.worldPos == model.worldPos && body.scaleCoef == model.scaleCoef
      ensures body.rot == [AlignZTo(velocity)] + model.rot
      ensures this.velocity == velocity
    {
      var copy := new Model.Copy(model);
      copy.rot := [AlignZTo(velocity)] + copy.rot;
      body := copy;
      this.velocity := velocity;
    }

    /** `moveAuto(alpha)`: one step of `alpha` times the velocity. */
    method MoveAuto(alpha: real)
      modifies body`worldPos
      ensures body.worldPos == Add(old(body.worldPos), Scale(alpha, velocity))
    {
      body.Move(Scale(alpha, velocity));
    }
  }
}
