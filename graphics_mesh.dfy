// graphics/mesh.go: a mesh decoded from indexed faces into flat vertex,
// normal and uv arrays of length 3 * (number of faces), validated and
// interleaved for upload. The gob decoder and every GL call are left out: Load
// receives the decoded Metadata (or None when decoding failed), and Upload
// returns the interleaved data it would hand to the GPU.

module GraphicsMesh {
  import opened Common

  /** Positions inside one face corner (an IVec3): vertex, texture, normal index. */
  const FaceVertex := 0
  const FaceTexture := 1
  const FaceNormal := 2

  /** FaceType is a Go int; the four named layouts are 0 through 3. */
  const FaceTypeV: int := 0
  const FaceTypeVT: int := 1
  const FaceTypeVN: int := 2
  const FaceTypeVTN: int := 3

  /** A face is three corners; each corner holds a vertex, texture and normal index. */
  type Face = s: seq<IVec3> | |s| == 3 witness [IVec3(0, 0, 0), IVec3(0, 0, 0), IVec3(0, 0, 0)]

  /** The decoded mesh file. */
  datatype Metadata = Metadata(name: string, faceType: int, v: seq<Vec3>, n: seq<Vec3>, t: seq<Vec2>, f: seq<Face>)

  /** One interleaved vertex as uploaded: position, normal, uv. */
  datatype Vertex = Vertex(v: Vec3, n: Vec3, u: Vec2)

  /** The three flat arrays a Mesh holds. */
  datatype Geometry = Geometry(vertices: seq<Vec3>, normals: seq<Vec3>, uvs: seq<Vec2>)

  predicate ValidFaceType(ft: int) {
    FaceTypeV <= ft <= FaceTypeVTN
  }

  predicate UsesTexture(ft: int) {
    ft == FaceTypeVT || ft == FaceTypeVTN
  }

  predicate UsesNormal(ft: int) {
    ft == FaceTypeVN || ft == FaceTypeVTN
  }

  /** Every index the face layout reads is inside its array; Go panics otherwise. */
  predicate IndicesInRange(md: Metadata) {
    forall i, j :: 0 <= i < |md.f| && 0 <= j < 3 ==>
      && 0 <= md.f[i][j].x < |md.v|
      && (UsesTexture(md.faceType) ==> 0 <= md.f[i][j].y < |md.t|)
      && (UsesNormal(md.faceType) ==> 0 <= md.f[i][j].z < |md.n|)
  }

  /** Flat slot k holds corner k % 3 of face k / 3. */
  function VertexSlot(md: Metadata, k: nat): Vec3
    requires IndicesInRange(md) && k < 3 * |md.f|
  {
    md.v[md.f[k / 3][k % 3].x]
  }

  function NormalSlot(md: Metadata, k: nat): Vec3
    requires IndicesInRange(md) && k < 3 * |md.f|
  {
    if UsesNormal(md.faceType) then md.n[md.f[k / 3][k % 3].z] else ZeroVec3
  }

  function UvSlot(md: Metadata, k: nat): Vec2
    requires IndicesInRange(md) && k < 3 * |md.f|
  {
    if UsesTexture(md.faceType) then md.t[md.f[k / 3][k % 3].y] else ZeroVec2
  }

  /** g is the expansion of md's faces: three arrays of length 3 * |F| whose
      slot 3i+j comes from corner j of face i; slots the layout does not fill
      keep the zero vector. */
  ghost predicate ExpandsTo(md: Metadata, g: Geometry)
    requires IndicesInRange(md)
  {
    && |g.vertices| == 3 * |md.f|
    && |g.normals| == 3 * |md.f|
    && |g.uvs| == 3 * |md.f|
    && forall k :: 0 <= k < 3 * |md.f| ==>
         g.vertices[k] == VertexSlot(md, k) && g.normals[k] == NormalSlot(md, k) && g.uvs[k] == UvSlot(md, k)
  }

  /** The geometry is uploadable: no array is empty and all three have one length. */
  predicate UploadReady(g: Geometry) {
    |g.vertices| > 0 && |g.normals| > 0 && |g.uvs| > 0
    && |g.vertices| == |g.normals| == |g.uvs|
  }

  /** The error Upload reports for geometry that is not ready: empty arrays
      are reported before arrays of different lengths. */
  function UploadError(g: Geometry): (e: Error)
    requires !UploadReady(g)
    ensures e == MeshUploadEmpty <==> |g.vertices| == 0 || |g.normals| == 0 || |g.uvs| == 0
    ensures e == MeshUploadEmpty || e == MeshUploadAsymmetric
  {
    if |g.vertices| == 0 || |g.normals| == 0 || |g.uvs| == 0 then MeshUploadEmpty
    else MeshUploadAsymmetric
  }

  /** Slot 3i+j of the flat arrays is corner j of face i, read through the
      indices the face layout uses. */
  lemma SlotOfCorner(md: Metadata, i: nat, j: nat)
    requires IndicesInRange(md) && i < |md.f| && j < 3
    ensures 3 * i + j < 3 * |md.f|
    ensures VertexSlot(md, 3 * i + j) == md.v[md.f[i][j].x]
    ensures NormalSlot(md, 3 * i + j) == if UsesNormal(md.faceType) then md.n[md.f[i][j].z] else ZeroVec3
    ensures UvSlot(md, 3 * i + j) == if UsesTexture(md.faceType) then md.t[md.f[i][j].y] else ZeroVec2
  {
    assert (3 * i + j) / 3 == i && (3 * i + j) % 3 == j;
  }

  /** Whatever a successful Load stores can be uploaded. */
  lemma ExpandedGeometryUploads(md: Metadata, g: Geometry)
    requires IndicesInRange(md) && |md.f| > 0 && ExpandsTo(md, g)
    ensures UploadReady(g)
  {
  }

  /** The expansion is a function of the metadata: two expansions agree. */
  lemma ExpansionUnique(md: Metadata, g1: Geometry, g2: Geometry)
    requires IndicesInRange(md) && ExpandsTo(md, g1) && ExpandsTo(md, g2)
    ensures g1 == g2
  {
    assert g1.vertices == g2.vertices;
    assert g1.normals == g2.normals;
    assert g1.uvs == g2.uvs;
  }

  /** The nested loop of Mesh.Load: fills zero-initialised slices of length
      3 * |F| face by face and corner by corner; an unknown face layout stops
      it at the first corner with ErrMeshInvalidFaceType. */
  method ExpandFaces(md: Metadata) returns (r: Result<Geometry>)
    requires ValidFaceType(md.faceType) ==> IndicesInRange(md)
    ensures r.Err? <==> |md.f| > 0 && !ValidFaceType(md.faceType)
    ensures r.Err? ==> r.error == MeshInvalidFaceType
    ensures r.Ok? ==> IndicesInRange(md) && ExpandsTo(md, r.value)
  {
    var count := 3 * |md.f|;
    var v := seq(count, _ => ZeroVec3);
    var n := seq(count, _ => ZeroVec3);
    var t := seq(count, _ => ZeroVec2);
    var i := 0;
    while i < |md.f|
      invariant 0 <= i <= |md.f|
      invariant |v| == |n| == |t| == count
      invariant i > 0 ==> ValidFaceType(md.faceType)
      invariant i > 0 ==> IndicesInRange(md)
      invariant forall k :: 0 <= k < 3 * i ==>
                  v[k] == VertexSlot(md, k) && n[k] == NormalSlot(md, k) && t[k] == UvSlot(md, k)
      invariant forall k :: 3 * i <= k < count ==> v[k] == ZeroVec3 && n[k] == ZeroVec3 && t[k] == ZeroVec2
    {
      var j := 0;
      while j < 3
        invariant 0 <= j <= 3
        invariant |v| == |n| == |t| == count
        invariant j > 0 ==> ValidFaceType(md.faceType)
        invariant i + j > 0 ==> IndicesInRange(md)
        invariant forall k :: 0 <= k < 3 * i + j ==>
                    v[k] == VertexSlot(md, k) && n[k] == NormalSlot(md, k) && t[k] == UvSlot(md, k)
        invariant forall k :: 3 * i + j <= k < count ==> v[k] == ZeroVec3 && n[k] == ZeroVec3 && t[k] == ZeroVec2
      {
        if !ValidFaceType(md.faceType) {
          return Err(MeshInvalidFaceType);
        }
        var c := md.f[i][j];
        SlotOfCorner(md, i, j);
        if md.faceType == FaceTypeV {
          v := v[3 * i + j := md.v[c.x]];
        } else if md.faceType == FaceTypeVT {
          v := v[3 * i + j := md.v[c.x]];
          t := t[3 * i + j := md.t[c.y]];
        } else if md.faceType == FaceTypeVN {
          v := v[3 * i + j := md.v[c.x]];
          n := n[3 * i + j := md.n[c.z]];
        } else {
          v := v[3 * i + j := md.v[c.x]];
          t := t[3 * i + j := md.t[c.y]];
          n := n[3 * i + j := md.n[c.z]];
        }
        j := j + 1;
      }
      i := i + 1;
    }
    r := Ok(Geometry(v, n, t));
  }

  /** A snapshot of every field of a Mesh the model keeps. */
  datatype MeshFields = MeshFields(
    name: string,
    vertices: seq<Vec3>,
    normals: seq<Vec3>,
    uvs: seq<Vec2>,
    triangles: seq<UInt32>,
    reverseWinding: bool,
    loaded: bool)

  /** The quad NewMeshQuad builds: two triangles covering [-1, 1]^2 at depth z. */
  function QuadVertices(z: real): seq<Vec3> {
    [Vec3(-1.0, 1.0, z), Vec3(-1.0, -1.0, z), Vec3(1.0, -1.0, z),
     Vec3(-1.0, 1.0, z), Vec3(1.0, -1.0, z), Vec3(1.0, 1.0, z)]
  }

  function QuadNormals(): seq<Vec3> {
    [Vec3(0.0, 0.0, 1.0), Vec3(0.0, 0.0, 1.0), Vec3(0.0, 0.0, 1.0),
     Vec3(0.0, 0.0, 1.0), Vec3(0.0, 0.0, 1.0), Vec3(0.0, 0.0, 1.0)]
  }

  function QuadUvs(): seq<Vec2> {
    [Vec2(0.0, 1.0), Vec2(0.0, 0.0), Vec2(1.0, 0.0),
     Vec2(0.0, 1.0), Vec2(1.0, 0.0), Vec2(1.0, 1.0)]
  }

  class Mesh {
    /** core.BaseObject's identifier, assigned once by the instance registry. */
    const id: int
    var name: string
    var vertices: seq<Vec3>
    var normals: seq<Vec3>
    var uvs: seq<Vec2>
    var triangles: seq<UInt32>
    var reverseWinding: bool
    var loaded: bool

    function Fields(): MeshFields
      reads this
    {
      MeshFields(name, vertices, normals, uvs, triangles, reverseWinding, loaded)
    }

    function Geom(): Geometry
      reads this
    {
      Geometry(vertices, normals, uvs)
    }

    /** NewMesh: an empty, unloaded mesh named "Mesh". */
    constructor (id: int)
      ensures this.id == id
      ensures Fields() == MeshFields("Mesh", [], [], [], [], false, false)
    {
      this.id := id;
      name := "Mesh";
      vertices, normals, uvs, triangles := [], [], [], [];
      reverseWinding, loaded := false, false;
    }

    /** Load refuses a loaded mesh, then a failed decode; it then takes the
        decoded name (kept even when the rest fails), refuses an empty face
        list and an unknown face layout, and on success stores the expanded
        arrays and marks the mesh loaded. */
    method Load(decoded: Option<Metadata>) returns (o: Outcome)
      requires decoded.Some? && ValidFaceType(decoded.value.faceType) ==> IndicesInRange(decoded.value)
      modifies this
      ensures old(loaded) ==> o == Fail(AssetLoaded(old(name))) && Fields() == old(Fields())
      ensures !old(loaded) && decoded.None? ==> o == Fail(DecodeFailed) && Fields() == old(Fields())
      ensures !old(loaded) && decoded.Some? && |decoded.value.f| == 0 ==>
                o == Fail(MeshMissingFaces) && Fields() == old(Fields()).(name := decoded.value.name)
      ensures !old(loaded) && decoded.Some? && |decoded.value.f| > 0 && !ValidFaceType(decoded.value.faceType) ==>
                o == Fail(MeshInvalidFaceType) && Fields() == old(Fields()).(name := decoded.value.name)
      ensures o.Pass? <==> !old(loaded) && decoded.Some? && |decoded.value.f| > 0 && ValidFaceType(decoded.value.faceType)
      ensures o.Pass? ==> && IndicesInRange(decoded.value)
                          && ExpandsTo(decoded.value, Geom())
                          && Fields() == old(Fields()).(name := decoded.value.name, vertices := vertices,
                                                        normals := normals, uvs := uvs, loaded := true)
    {
      if loaded {
        return Fail(AssetLoaded(name));
      }
      if decoded.None? {
        return Fail(DecodeFailed);
      }
      var md := decoded.value;
      name := md.name;
      if |md.f| == 0 {
        return Fail(MeshMissingFaces);
      }
      var g := ExpandFaces(md);
      if g.Err? {
        return Fail(g.error);
      }
      SetVertices(g.value.vertices);
      SetNormals(g.value.normals);
      SetUvs(g.value.uvs);
      loaded := true;
      return Pass;
    }

    function Loaded(): bool reads this { loaded }

    /** Unload empties the three vertex arrays and clears the loaded flag; the
        triangle indices stay. */
    method Unload()
      modifies this
      ensures !Loaded() && Indexed() == old(Indexed())
      ensures Fields() == old(Fields()).(vertices := [], normals := [], uvs := [], loaded := false)
    {
      vertices := [];
      normals := [];
      uvs := [];
      loaded := false;
    }

    /** Clear empties all four arrays and leaves the loaded flag alone. */
    method Clear()
      modifies this
      ensures !Indexed() && Loaded() == old(Loaded())
      ensures Fields() == old(Fields()).(vertices := [], normals := [], uvs := [], triangles := [])
    {
      vertices := [];
      normals := [];
      uvs := [];
      triangles := [];
    }

    /** Upload's validation and interleaving: empty arrays and arrays of
        different lengths are refused; otherwise element i of the data is the
        i-th position, normal and uv. */
    method Upload() returns (r: Result<seq<Vertex>>)
      ensures r.Err? <==> !UploadReady(Geom())
      ensures r.Err? ==> r.error == UploadError(Geom())
      ensures r.Ok? ==> |r.value| == |vertices|
                        && forall i :: 0 <= i < |r.value| ==> r.value[i] == Vertex(vertices[i], normals[i], uvs[i])
    {
      if |vertices| == 0 || |normals| == 0 || |uvs| == 0 {
        return Err(MeshUploadEmpty);
      }
      if |vertices| != |normals| || |normals| != |uvs| {
        return Err(MeshUploadAsymmetric);
      }
      var data := new Vertex[|vertices|](_ => Vertex(ZeroVec3, ZeroVec3, ZeroVec2));
      var idx := 0;
      while idx < |vertices|
        invariant 0 <= idx <= |vertices|
        invariant forall i :: 0 <= i < idx ==> data[i] == Vertex(vertices[i], normals[i], uvs[i])
      {
        data[idx] := Vertex(vertices[idx], normals[idx], uvs[idx]);
        idx := idx + 1;
      }
      return Ok(data[..]);
    }

    /** Alloc creates the GL objects (left out) and returns Upload's error. */
    method Alloc() returns (o: Outcome)
      ensures o.Pass? <==> UploadReady(Geom())
      ensures o.Fail? ==> o.error == UploadError(Geom())
    {
      var r := Upload();
      o := if r.Ok? then Pass else Fail(r.error);
    }

    /** Draw issues one DrawArrays over all vertices, and nothing when there
        are none; the result is the vertex count of the issued draw. */
    method Draw() returns (drawn: Option<nat>)
      ensures drawn.None? <==> |vertices| == 0
      ensures drawn.Some? ==> drawn.value == |vertices|
    {
      if |vertices| == 0 {
        return None;
      }
      return Some(|vertices|);
    }

    function Vertices(): seq<Vec3> reads this { vertices }
    function Normals(): seq<Vec3> reads this { normals }
    function Uvs(): seq<Vec2> reads this { uvs }
    function Triangles(): seq<UInt32> reads this { triangles }
    function ReversedWinding(): bool reads this { reverseWinding }

    /** The mesh is indexed exactly when it has triangle indices. */
    predicate Indexed()
      reads this
    {
      |triangles| != 0
    }

    method SetVertices(vertices: seq<Vec3>)
      modifies this
      ensures Fields() == old(Fields()).(vertices := vertices)
    {
      this.vertices := vertices;
    }

    method SetNormals(normals: seq<Vec3>)
      modifies this
      ensures Fields() == old(Fields()).(normals := normals)
    {
      this.normals := normals;
    }

    method SetUvs(uvs: seq<Vec2>)
      modifies this
      ensures Fields() == old(Fields()).(uvs := uvs)
    {
      this.uvs := uvs;
    }

    method SetReversedWinding(reverse: bool)
      modifies this
      ensures Fields() == old(Fields()).(reverseWinding := reverse)
    {
      reverseWinding := reverse;
    }
  }

  /** NewMeshQuad: a fresh mesh holding the full-screen quad at depth 0. The
      source ignores the results of Alloc and Upload; they cannot fail here,
      because the three arrays are non-empty and of equal length. */
  method NewMeshQuad(id: int) returns (m: Mesh)
    ensures fresh(m) && m.id == id
    ensures m.Fields() == MeshFields("Mesh", QuadVertices(0.0), QuadNormals(), QuadUvs(), [], false, false)
    ensures UploadReady(m.Geom())
  {
    m := new Mesh(id);
    m.SetVertices(QuadVertices(0.0));
    m.SetNormals(QuadNormals());
    m.SetUvs(QuadUvs());
    var allocOutcome := m.Alloc();
    assert allocOutcome.Pass?;
    var uploaded := m.Upload();
    assert uploaded.Ok?;
  }

  /** NewMeshQuadBack: the same quad at depth 1. */
  method NewMeshQuadBack(id: int) returns (m: Mesh)
    ensures fresh(m) && m.id == id
    ensures m.Fields() == MeshFields("Mesh", QuadVertices(1.0), QuadNormals(), QuadUvs(), [], false, false)
    ensures UploadReady(m.Geom())
  {
    m := new Mesh(id);
    m.SetVertices(QuadVertices(1.0));
    m.SetNormals(QuadNormals());
    m.SetUvs(QuadUvs());
    var allocOutcome := m.Alloc();
    assert allocOutcome.Pass?;
    var uploaded := m.Upload();
    assert uploaded.Ok?;
  }
}
