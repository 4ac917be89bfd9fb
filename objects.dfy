/**
 * Meshes flattened into vertex, index and texture-coordinate arrays
 * (src/Object.h, src/Object.cpp), the fixed skybox cube, the particle
 * cloud and the laser's recharge counter.
 */
module Objects {
  import opened Geometry
  import opened Wrappers

  /** A name handed out by `glGen*`: never 0. */
  type GlName = n: nat | n > 0 witness 1

  /** Material.h: `diffuseTexture` is 0 when there is no texture. */
  datatype Material = Material(diffuseTexture: nat, diffuseColor: Vec4, opacity: real)

  /**
   * The fields of an imported `aiMesh` that `Object::create` reads:
   * `mVertices`, `mTextureCoords[0]` (None when the mesh has no first UV
   * channel), the index list of every face, and `mMaterialIndex`.
   */
  datatype Mesh = Mesh(vertices: seq<Vec3>, textureCoords0: Option<seq<Vec3>>, faces: seq<seq<nat>>, materialIndex: nat)

  /** `create` reads UV channel 0 for every vertex, without checking that it exists. */
  predicate Readable(mesh: Mesh) {
    mesh.textureCoords0.Some? && |mesh.textureCoords0.value| >= |mesh.vertices|
  }

  /** x, y, z of every vertex, in order. */
  function FlatVertices(vs: seq<Vec3>): seq<real> {
    if |vs| == 0 then [] else
      var v := vs[|vs| - 1];
      FlatVertices(vs[..|vs| - 1]) + [v.x, v.y, v.z]
  }

  /** u, v of every texture coordinate, in order. */
  function FlatUVs(uvs: seq<Vec3>): seq<real> {
    if |uvs| == 0 then [] else
      var uv := uvs[|uvs| - 1];
      FlatUVs(uvs[..|uvs| - 1]) + [uv.x, uv.y]
  }

  /** The index lists of all faces, one after the other. */
  function Concat(faces: seq<seq<nat>>): seq<nat> {
    if |faces| == 0 then [] else Concat(faces[..|faces| - 1]) + faces[|faces| - 1]
  }

  /** The sum of `mNumIndices` over the faces. */
  function TotalIndices(faces: seq<seq<nat>>): nat {
    if |faces| == 0 then 0 else TotalIndices(faces[..|faces| - 1]) + |faces[|faces| - 1]|
  }

  /** Three floats per vertex: vertex i sits at positions 3i, 3i+1, 3i+2. */
  lemma {:induction false} FlatVerticesAt(vs: seq<Vec3>, i: nat)
    requires i < |vs|
    ensures |FlatVertices(vs)| == 3 * |vs|
    ensures FlatVertices(vs)[3 * i] == vs[i].x
    ensures FlatVertices(vs)[3 * i + 1] == vs[i].y
    ensures FlatVertices(vs)[3 * i + 2] == vs[i].z
  {
    var n := |vs| - 1;
    FlatVerticesLength(vs[..n]);
    if i < n {
      FlatVerticesAt(vs[..n], i);
    }
  }

  lemma {:induction false} FlatVerticesLength(vs: seq<Vec3>)
    ensures |FlatVertices(vs)| == 3 * |vs|
  {
    if |vs| > 0 {
      FlatVerticesLength(vs[..|vs| - 1]);
    }
  }

  /** Two floats per vertex: coordinate i sits at positions 2i, 2i+1. */
  lemma {:induction false} FlatUVsAt(uvs: seq<Vec3>, i: nat)
    requires i < |uvs|
    ensures |FlatUVs(uvs)| == 2 * |uvs|
    ensures FlatUVs(uvs)[2 * i] == uvs[i].x
    ensures FlatUVs(uvs)[2 * i + 1] == uvs[i].y
  {
    var n := |uvs| - 1;
    FlatUVsLength(uvs[..n]);
    if i < n {
      FlatUVsAt(uvs[..n], i);
    }
  }

  lemma {:induction false} FlatUVsLength(uvs: seq<Vec3>)
    ensures |FlatUVs(uvs)| == 2 * |uvs|
  {
    if |uvs| > 0 {
      FlatUVsLength(uvs[..|uvs| - 1]);
    }
  }

  lemma {:induction false} ConcatLength(faces: seq<seq<nat>>)
    ensures |Concat(faces)| == TotalIndices(faces)
  {
    if |faces| > 0 {
      ConcatLength(faces[..|faces| - 1]);
    }
  }

  /**
   * Index j of face i lands at the position after all indices of the
   * faces before it: the faces are concatenated in order, nothing dropped.
   */
  lemma {:induction false} ConcatAt(faces: seq<seq<nat>>, i: nat, j: nat)
    requires i < |faces| && j < |faces[i]|
    ensures TotalIndices(faces[..i]) + j < |Concat(faces)|
    ensures Concat(faces)[TotalIndices(faces[..i]) + j] == faces[i][j]
  {
    var n := |faces| - 1;
    var init := faces[..n];
    ConcatLength(init);
    if i == n {
      assert faces[..i] == init;
    } else {
      assert init[..i] == faces[..i];
      ConcatAt(init, i, j);
    }
  }

  /**
   * The two loops of `Object::create`: three floats and two texture
   * coordinates pushed per vertex, then every face's indices appended.
   */
  method MeshArrays(mesh: Mesh) returns (vertices: seq<real>, elements: seq<nat>, textureCoords: seq<real>)
    requires Readable(mesh)
    ensures vertices == FlatVertices(mesh.vertices)
    ensures textureCoords == FlatUVs(mesh.textureCoords0.value[..|mesh.vertices|])
    ensures elements == Concat(mesh.faces)
  {
    var uvs := mesh.textureCoords0.value;
    vertices, elements, textureCoords := [], [], [];
    var i := 0;
    while i < |mesh.vertices|
      invariant 0 <= i <= |mesh.vertices|
      invariant vertices == FlatVertices(mesh.vertices[..i])
      invariant textureCoords == FlatUVs(uvs[..i])
    {
      var vertex := mesh.vertices[i];
      vertices := vertices + [vertex.x];
      vertices := vertices + [vertex.y];
      vertices := vertices + [vertex.z];
      textureCoords := textureCoords + [uvs[i].x];
      textureCoords := textureCoords + [uvs[i].y];
      assert mesh.vertices[..i + 1][..i] == mesh.vertices[..i];
      assert uvs[..i + 1][..i] == uvs[..i];
      i := i + 1;
    }
    assert mesh.vertices[..i] == mesh.vertices;
    var f := 0;
    while f < |mesh.faces|
      invariant 0 <= f <= |mesh.faces|
      invariant elements == Concat(mesh.faces[..f])
    {
      var face := mesh.faces[f];
      var j := 0;
      while j < |face|
        invariant 0 <= j <= |face|
        invariant elements == Concat(mesh.faces[..f]) + face[..j]
      {
        elements := elements + [face[j]];
        assert face[..j + 1] == face[..j] + [face[j]];
        j := j + 1;
      }
      assert mesh.faces[..f + 1][..f] == mesh.faces[..f];
      assert face[..j] == face;
      f := f + 1;
    }
    assert mesh.faces[..f] == mesh.faces;
  }

  /** One drawable mesh: its flattened arrays, its material, and its own pose. */
  class Object {
    const vertices: seq<real>
    const elements: seq<nat>
    const textureCoords: seq<real>
    const material: Material
    var worldPos: Vec3
    var rot: Rotation

    /** `Object(vertices, elements, texture_coords, material)`: at the origin, unrotated. */
    constructor (vertices: seq<real>, elements: seq<nat>, textureCoords: seq<real>, material: Material)
      ensures this.vertices == vertices && this.elements == elements
      ensures this.textureCoords == textureCoords && this.material == material
      ensures worldPos == Zero && rot == Identity
    {
      this.vertices := vertices;
      this.elements := elements;
      this.textureCoords := textureCoords;
      this.material := material;
      worldPos := Zero;
      rot := Identity;
    }

    /** The member-wise copy made when a `Model` holding this object is copied. */
    constructor Clone(o: Object)
      ensures vertices == o.vertices && elements == o.elements
      ensures textureCoords == o.textureCoords && material == o.material
      ensures worldPos == o.worldPos && rot == o.rot
    {
      vertices := o.vertices;
      elements := o.elements;
      textureCoords := o.textureCoords;
      material := o.material;
      worldPos := o.worldPos;
      rot := o.rot;
    }

    /** `move(translation)`. */
    method Move(translation: Vec3)
      modifies this
      ensures worldPos == Add(old(worldPos), translation)
      ensures rot == old(rot)
    {
      worldPos := Add(worldPos, translation);
    }

    /** `rotate(angle, axis)`: post-multiplies the rotation by one more factor. */
    method Rotate(angle: real, axis: Vec3)
      modifies this
      ensures rot == old(rot) + [AxisAngle(angle, axis)]
      ensures worldPos == old(worldPos)
    {
      rot := rot + [AxisAngle(angle, axis)];
    }

    /** `getDiffuseColor()`. */
    function DiffuseColor(): Vec4 {
      material.diffuseColor
    }

    /** `getOpacity()`. */
    function Opacity(): real {
      material.opacity
    }

    /** `haveTexture()`: texture name 0 means "no texture". */
    predicate HaveTexture() {
      material.diffuseTexture != 0
    }

    /** `Object::create(mesh, material)`. */
    static method Create(mesh: Mesh, material: Material) returns (o: Object)
      requires Readable(mesh)
      ensures fresh(o) && BuiltFrom(o, mesh, material)
      ensures o.worldPos == Zero && o.rot == Identity
    {
      var vertices, elements, textureCoords := MeshArrays(mesh);
      o := new Object(vertices, elements, textureCoords, material);
    }
  }

  /** The object holds exactly what `create` makes of this mesh and material. */
  ghost predicate BuiltFrom(o: Object, mesh: Mesh, material: Material) {
    && Readable(mesh)
    && o.vertices == FlatVertices(mesh.vertices)
    && o.textureCoords == FlatUVs(mesh.textureCoords0.value[..|mesh.vertices|])
    && o.elements == Concat(mesh.faces)
    && o.material == material
  }

  /**
   * What `create` produces, element by element: whole vertex triples and
   * UV pairs, one per mesh vertex, and all face indices in order.
   */
  lemma BuiltFromLayout(o: Object, mesh: Mesh, material: Material)
    requires BuiltFrom(o, mesh, material)
    ensures |o.vertices| == 3 * |mesh.vertices| && |o.textureCoords| == 2 * |mesh.vertices|
    ensures forall i :: 0 <= i < |mesh.vertices| ==>
              o.vertices[3 * i] == mesh.vertices[i].x && o.vertices[3 * i + 1] == mesh.vertices[i].y
              && o.vertices[3 * i + 2] == mesh.vertices[i].z
    ensures forall i :: 0 <= i < |mesh.vertices| ==>
              o.textureCoords[2 * i] == mesh.textureCoords0.value[i].x
              && o.textureCoords[2 * i + 1] == mesh.textureCoords0.value[i].y
    ensures |o.elements| == TotalIndices(mesh.faces)
  {
    var uvs := mesh.textureCoords0.value[..|mesh.vertices|];
    FlatVerticesLength(mesh.vertices);
    FlatUVsLength(uvs);
    ConcatLength(mesh.faces);
    forall i | 0 <= i < |mesh.vertices|
      ensures o.vertices[3 * i] == mesh.vertices[i].x && o.vertices[3 * i + 1] == mesh.vertices[i].y
              && o.vertices[3 * i + 2] == mesh.vertices[i].z
      ensures o.textureCoords[2 * i] == mesh.textureCoords0.value[i].x
              && o.textureCoords[2 * i + 1] == mesh.textureCoords0.value[i].y
    {
      FlatVerticesAt(mesh.vertices, i);
      FlatUVsAt(uvs, i);
    }
  }

  /** The cube's eight corners, front face (z = 1) then back face (z = -1). */
  const SkyBoxCornerList: seq<Vec3> := [
    Vec3(-1.0, -1.0, 1.0), Vec3(1.0, -1.0, 1.0), Vec3(1.0, 1.0, 1.0), Vec3(-1.0, 1.0, 1.0),
    Vec3(-1.0, -1.0, -1.0), Vec3(1.0, -1.0, -1.0), Vec3(1.0, 1.0, -1.0), Vec3(-1.0, 1.0, -1.0)
  ]

  /** The skybox vertex array: the eight corners, three floats each. */
  const SkyBoxVertices: seq<real> := FlatVertices(SkyBoxCornerList)

  /** Two triangles per face: front, right, back, left, bottom, top. */
  const SkyBoxTriangles: seq<seq<nat>> := [
    [0, 1, 2], [2, 3, 0],
    [1, 5, 6], [6, 2, 1],
    [7, 6, 5], [5, 4, 7],
    [4, 0, 3], [3, 7, 4],
    [4, 5, 1], [1, 0, 4],
    [3, 2, 6], [6, 7, 3]
  ]

  /** The skybox index array: the twelve triangles one after the other. */
  const SkyBoxElements: seq<nat> := Concat(SkyBoxTriangles)

  /** A list of triangles holds three indices per face. */
  lemma {:induction false} TotalIndicesOfTriangles(faces: seq<seq<nat>>)
    requires forall k :: 0 <= k < |faces| ==> |faces[k]| == 3
    ensures TotalIndices(faces) == 3 * |faces|
  {
    if |faces| > 0 {
      TotalIndicesOfTriangles(faces[..|faces| - 1]);
    }
  }

  /** In a list of triangles, index j of triangle i sits at position 3i + j. */
  lemma TrianglesAt(faces: seq<seq<nat>>, i: nat, j: nat)
    requires forall k :: 0 <= k < |faces| ==> |faces[k]| == 3
    requires i < |faces| && j < 3
    ensures |Concat(faces)| == 3 * |faces|
    ensures Concat(faces)[3 * i + j] == faces[i][j]
  {
    ConcatLength(faces);
    TotalIndicesOfTriangles(faces);
    TotalIndicesOfTriangles(faces[..i]);
    ConcatAt(faces, i, j);
  }

  /** Corner k of the skybox, read back from the vertex array. */
  function SkyBoxCorner(k: nat): Vec3
    requires k < 8 && |SkyBoxVertices| == 24
  {
    Vec3(SkyBoxVertices[3 * k], SkyBoxVertices[3 * k + 1], SkyBoxVertices[3 * k + 2])
  }

  /** The three corners of a triangle lie on one face of the cube. */
  predicate OnOneCubeFace(a: Vec3, b: Vec3, c: Vec3) {
    || (a.x == b.x == c.x && (a.x == 1.0 || a.x == -1.0))
    || (a.y == b.y == c.y && (a.y == 1.0 || a.y == -1.0))
    || (a.z == b.z == c.z && (a.z == 1.0 || a.z == -1.0))
  }

  /** The vertex array holds 24 floats, and corner k is the k-th listed corner. */
  lemma SkyBoxCorners()
    ensures |SkyBoxVertices| == 24
    ensures forall k :: 0 <= k < 8 ==> SkyBoxCorner(k) == SkyBoxCornerList[k]
  {
    FlatVerticesLength(SkyBoxCornerList);
    forall k | 0 <= k < 8
      ensures SkyBoxCorner(k) == SkyBoxCornerList[k]
    {
      FlatVerticesAt(SkyBoxCornerList, k);
    }
  }

  /** Every coordinate of the skybox is 1 or -1. */
  lemma SkyBoxVerticesAreUnit()
    ensures |SkyBoxVertices| == 24
    ensures forall i :: 0 <= i < 24 ==> SkyBoxVertices[i] == 1.0 || SkyBoxVertices[i] == -1.0
  {
    SkyBoxCorners();
    forall i | 0 <= i < 24
      ensures SkyBoxVertices[i] == 1.0 || SkyBoxVertices[i] == -1.0
    {
      var k := i / 3;
      assert i == 3 * k || i == 3 * k + 1 || i == 3 * k + 2;
      assert SkyBoxCorner(k) == SkyBoxCornerList[k];
    }
  }

  /** The eight corners are pairwise distinct. */
  lemma SkyBoxCornersDistinct()
    ensures |SkyBoxVertices| == 24
    ensures forall j, k :: 0 <= j < k < 8 ==> SkyBoxCorner(j) != SkyBoxCorner(k)
  {
    SkyBoxCorners();
  }

  /** The index array is the triangle list, three indices per triangle. */
  lemma SkyBoxElementsAreTriangles()
    ensures |SkyBoxElements| == 36
    ensures forall t, j :: 0 <= t < 12 && 0 <= j < 3 ==> SkyBoxElements[3 * t + j] == SkyBoxTriangles[t][j]
  {
    forall t, j | 0 <= t < 12 && 0 <= j < 3
      ensures |SkyBoxElements| == 36 && SkyBoxElements[3 * t + j] == SkyBoxTriangles[t][j]
    {
      TrianglesAt(SkyBoxTriangles, t, j);
    }
    TrianglesAt(SkyBoxTriangles, 0, 0);
  }

  /** 36 indices, all naming one of the 8 corners: 12 triangles. */
  lemma SkyBoxElementsInRange()
    ensures |SkyBoxElements| == 36
    ensures forall i :: 0 <= i < 36 ==> SkyBoxElements[i] < 8
  {
    SkyBoxElementsAreTriangles();
    forall i | 0 <= i < 36
      ensures SkyBoxElements[i] < 8
    {
      var t := i / 3;
      assert i == 3 * t + i % 3;
      assert SkyBoxElements[i] == SkyBoxTriangles[t][i % 3];
    }
  }

  /** Triangle t of the skybox has three distinct corners on one face of the cube. */
  predicate TriangleOnFace(t: nat)
    requires t < 12
  {
    var tri := SkyBoxTriangles[t];
    var a, b, c := tri[0], tri[1], tri[2];
    a < 8 && b < 8 && c < 8 && a != b && b != c && a != c
    && OnOneCubeFace(SkyBoxCornerList[a], SkyBoxCornerList[b], SkyBoxCornerList[c])
  }

  /** Each of the 12 triangles has three distinct corners on one face of the cube. */
  lemma SkyBoxTrianglesOnFaces()
    ensures forall t :: 0 <= t < 12 ==> TriangleOnFace(t)
  {
  }

  class SkyBox {
    const textureIndex: nat
    var vertices: seq<real>
    var elements: seq<nat>

    /** `SkyBox(texture_index)`: the fixed cube arrays. */
    constructor (textureIndex: nat)
      ensures this.textureIndex == textureIndex
      ensures vertices == SkyBoxVertices && elements == SkyBoxElements
    {
      this.textureIndex := textureIndex;
      vertices := SkyBoxVertices;
      elements := SkyBoxElements;
    }
  }

  /** `sizeof(GLfloat)`. */
  const FloatBytes: nat := 4

  /** The byte count the `Particles` constructor passes to `glBufferData`. */
  function ParticleBufferBytesAsWritten(nbParticles: nat): nat {
    3 * nbParticles
  }

  /** The byte count that holds all 3 * nbParticles coordinates. */
  function ParticleBufferBytes(nbParticles: nat): nat {
    3 * nbParticles * FloatBytes
  }

  /**
   * As written, the buffer holds only a quarter of the coordinates, while
   * `draw` asks for `vertices.size() / 3` points of three floats each.
   */
  lemma ParticleBufferTooSmallAsWritten(nbParticles: nat)
    requires nbParticles > 0
    ensures ((3 * nbParticles) / 3) * 3 * FloatBytes > ParticleBufferBytesAsWritten(nbParticles)
    ensures ((3 * nbParticles) / 3) * 3 * FloatBytes == 4 * ParticleBufferBytesAsWritten(nbParticles)
  {
  }

  /** With the byte count scaled by `sizeof(GLfloat)`, every drawn point lies in the buffer. */
  lemma ParticleBufferFitsDrawnPoints(nbParticles: nat)
    ensures ((3 * nbParticles) / 3) * 3 * FloatBytes <= ParticleBufferBytes(nbParticles)
  {
  }

  /** A point cloud of random coordinates, drawn as GL points. */
  class Particles {
    var vertices: seq<real>
    var bufferBytes: nat

    /**
     * `Particles(nb_particles)`: 3 * nb_particles draws of a uniform
     * distribution over [-50, 50), given here as `draws`.
     */
    constructor (nbParticles: nat, draws: seq<real>)
      requires |draws| == 3 * nbParticles
      requires forall i :: 0 <= i < |draws| ==> -50.0 <= draws[i] < 50.0
      ensures vertices == draws && |vertices| == 3 * nbParticles
      ensures forall i :: 0 <= i < |vertices| ==> -50.0 <= vertices[i] < 50.0
      ensures bufferBytes == ParticleBufferBytesAsWritten(nbParticles)
      ensures nbParticles > 0 ==> |vertices| / 3 * 3 * FloatBytes == 4 * bufferBytes > bufferBytes
    {
      var vs: seq<real> := [];
      var i := 0;
      while i < 3 * nbParticles
        invariant 0 <= i <= 3 * nbParticles
        invariant vs == draws[..i]
      {
        vs := vs + [draws[i]];
        i := i + 1;
      }
      vertices := vs;
      bufferBytes := ParticleBufferBytesAsWritten(nbParticles);
      if nbParticles > 0 {
        ParticleBufferTooSmallAsWritten(nbParticles);
      }
    }
  }

  class Laser {
    var recharge: int

    /** `Laser()`: fully charged. */
    constructor ()
      ensures recharge == 0
    {
      recharge := 0;
    }
  }
}
