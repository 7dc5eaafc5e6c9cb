/**
 * SampleFramework12's `Model`: the choice of 16- or 32-bit indices, where each mesh sits in
 * the shared vertex and index buffers, and the de-duplicating cache of material textures.
 * Which files exist is an input; loading a texture is reduced to recording its path and
 * whether it is read as sRGB.
 */
module Model {
  import opened Ints
  import opened Geometry
  import Wrappers
  import Arith

  // ---- prefix sums ---------------------------------------------------------------------------

  function Sum(s: seq<nat>): nat
  {
    if |s| == 0 then 0 else Sum(s[..|s| - 1]) + s[|s| - 1]
  }

  lemma SumPrefixStep(s: seq<nat>, i: nat)
    requires i < |s|
    ensures Sum(s[..i + 1]) == Sum(s[..i]) + s[i]
  {
    assert s[..i + 1][..i] == s[..i];
  }

  lemma {:induction false} SumPrefixMonotone(s: seq<nat>, i: nat, j: nat)
    requires i <= j <= |s|
    ensures Sum(s[..i]) <= Sum(s[..j])
    decreases j
  {
    if i < j {
      SumPrefixStep(s, j - 1);
      SumPrefixMonotone(s, i, j - 1);
    }
  }

  lemma ScaledPrefixStep(s: seq<nat>, i: nat, size: nat)
    requires i < |s|
    ensures size * Sum(s[..i + 1]) == size * Sum(s[..i]) + s[i] * size
  {
    SumPrefixStep(s, i);
  }

  /**
   * The range `[Sum(s[..i]), Sum(s[..i]) + s[i])` of element `i` ends before the range of any
   * later element starts and inside the total: consecutive meshes never overlap in the shared
   * buffers.
   */
  lemma RangesDisjoint(s: seq<nat>, i: nat, j: nat)
    requires i < j <= |s|
    ensures Sum(s[..i]) + s[i] <= Sum(s[..j])
    ensures Sum(s[..i]) + s[i] <= Sum(s)
  {
    SumPrefixStep(s, i);
    SumPrefixMonotone(s, i + 1, j);
    SumPrefixMonotone(s, i + 1, |s|);
    assert s[..|s|] == s;
  }

  // ---- index width -------------------------------------------------------------------------

  /** `uint16(v)` or `uint32(v)`, as the index type says. */
  function WrapIndex(v: int, t: IndexType): int
  {
    if t == Index16Bit then Wrap16(v) else Wrap32(v)
  }

  /** `CreateProcedural`'s choice: 32-bit indices when there are more than 64 * 1024 vertices. */
  function ProceduralIndexType(numVertices: nat): IndexType
  {
    if numVertices > 64 * 1024 then Index32Bit else Index16Bit
  }

  /**
   * The index part of `CreateProcedural`: the indices are copied as they are when the type is
   * 32-bit and each one is cast to `uint16` otherwise. With every index naming one of the
   * vertices, the cast keeps every index.
   */
  method ProceduralIndices(numVertices: nat, src: seq<u32>) returns (t: IndexType, dst: seq<int>)
    ensures t == Index32Bit <==> numVertices > 64 * 1024
    ensures |dst| == |src| && forall i :: 0 <= i < |src| ==> dst[i] == WrapIndex(src[i], t)
    ensures IndicesBelow(src, numVertices) ==> dst == src
  {
    t := ProceduralIndexType(numVertices);
    if t == Index32Bit {
      dst := src;
    } else {
      var dstIndices := new u16[|src|](_ => 0);
      var i := 0;
      while i < |src|
        invariant i <= |src|
        invariant forall k :: 0 <= k < i ==> dstIndices[k] == Wrap16(src[k])
      {
        dstIndices[i] := Wrap16(src[i]);
        i := i + 1;
      }
      dst := dstIndices[..];
    }
  }

  /** What the loader reads of an assimp mesh: its vertex count and its triangles. */
  datatype AssimpMesh = AssimpMesh(numVertices: nat, faces: seq<Triangle>)

  /** A mesh whose `3 * faces` indices do not fit the 16-bit count limit. */
  predicate WideMesh(m: AssimpMesh)
  {
    3 * |m.faces| > 0xFFFF
  }

  function VertexCounts(meshes: seq<AssimpMesh>): (r: seq<nat>)
    ensures |r| == |meshes| && forall i :: 0 <= i < |meshes| ==> r[i] == meshes[i].numVertices
  {
    seq(|meshes|, i requires 0 <= i < |meshes| => meshes[i].numVertices)
  }

  function IndexCounts(meshes: seq<AssimpMesh>): (r: seq<nat>)
    ensures |r| == |meshes| && forall i :: 0 <= i < |meshes| ==> r[i] == 3 * |meshes[i].faces|
  {
    seq(|meshes|, i requires 0 <= i < |meshes| => 3 * |meshes[i].faces|)
  }

  /**
   * The counting loop of the assimp loader: 32-bit indices exactly when some mesh has more
   * than 0xFFFF indices, and the totals of vertices and indices over all meshes.
   */
  method AssimpIndexLayout(meshes: seq<AssimpMesh>) returns (t: IndexType, numVertices: nat, numIndices: nat)
    ensures t == Index32Bit <==> exists i :: 0 <= i < |meshes| && WideMesh(meshes[i])
    ensures numVertices == Sum(VertexCounts(meshes)) && numIndices == Sum(IndexCounts(meshes))
  {
    t := Index16Bit;
    numVertices, numIndices := 0, 0;
    var i := 0;
    while i < |meshes|
      invariant i <= |meshes|
      invariant t == Index32Bit <==> exists k :: 0 <= k < i && WideMesh(meshes[k])
      invariant numVertices == Sum(VertexCounts(meshes)[..i]) && numIndices == Sum(IndexCounts(meshes)[..i])
    {
      SumPrefixStep(VertexCounts(meshes), i);
      SumPrefixStep(IndexCounts(meshes), i);
      numVertices := numVertices + meshes[i].numVertices;
      numIndices := numIndices + |meshes[i].faces| * 3;
      if |meshes[i].faces| * 3 > 0xFFFF {
        t := Index32Bit;
      }
      i := i + 1;
    }
    assert VertexCounts(meshes)[..i] == VertexCounts(meshes);
    assert IndexCounts(meshes)[..i] == IndexCounts(meshes);
  }

  /**
   * The placing loop of the assimp loader: mesh `i`'s vertices start after all earlier meshes'
   * vertices, and its indices start after all earlier meshes' indices, in bytes of the
   * chosen index size.
   */
  method AssimpMeshOffsets(meshes: seq<AssimpMesh>, t: IndexType) returns (vtxOffsets: seq<nat>, idxOffsets: seq<nat>)
    ensures |vtxOffsets| == |meshes| && |idxOffsets| == |meshes|
    ensures forall i :: 0 <= i < |meshes| ==> vtxOffsets[i] == Sum(VertexCounts(meshes)[..i])
    ensures forall i :: 0 <= i < |meshes| ==> idxOffsets[i] == IndexSize(t) * Sum(IndexCounts(meshes)[..i])
  {
    var indexSize := IndexSize(t);
    ghost var vertexCounts, indexCounts := VertexCounts(meshes), IndexCounts(meshes);
    var vtxOffset, idxOffset := 0, 0;
    vtxOffsets, idxOffsets := [], [];
    var i := 0;
    while i < |meshes|
      invariant i <= |meshes| && |vtxOffsets| == i && |idxOffsets| == i
      invariant vtxOffset == Sum(vertexCounts[..i]) && idxOffset == indexSize * Sum(indexCounts[..i])
      invariant forall k :: 0 <= k < i ==> vtxOffsets[k] == Sum(vertexCounts[..k]) && idxOffsets[k] == indexSize * Sum(indexCounts[..k])
    {
      vtxOffsets, idxOffsets := vtxOffsets + [vtxOffset], idxOffsets + [idxOffset];
      SumPrefixStep(vertexCounts, i);
      ScaledPrefixStep(indexCounts, i, indexSize);
      vtxOffset := vtxOffset + meshes[i].numVertices;
      idxOffset := idxOffset + 3 * |meshes[i].faces| * indexSize;
      i := i + 1;
    }
  }

  /** A triangle with each vertex cast to the index type. */
  function WrapTriangle(f: Triangle, t: IndexType): Triangle
  {
    Triangle(WrapIndex(f.a, t), WrapIndex(f.b, t), WrapIndex(f.c, t))
  }

  /** The triangles as the index buffer holds them. */
  function Wrapped(faces: seq<Triangle>, t: IndexType): (r: seq<Triangle>)
    ensures |r| == |faces| && forall j :: 0 <= j < |faces| ==> r[j] == WrapTriangle(faces[j], t)
  {
    if |faces| == 0 then [] else Wrapped(faces[..|faces| - 1], t) + [WrapTriangle(faces[|faces| - 1], t)]
  }

  /** The index copy of `InitFromAssimpMesh`: three indices per face, each cast to the index type. */
  method CopyFaceIndices(faces: seq<Triangle>, t: IndexType) returns (dst: seq<int>)
    ensures dst == Flatten(Wrapped(faces, t))
  {
    dst := [];
    var triIdx := 0;
    while triIdx < |faces|
      invariant triIdx <= |faces| && dst == Flatten(Wrapped(faces[..triIdx], t))
    {
      var f := WrapTriangle(faces[triIdx], t);
      CopyStep(faces, triIdx, t);
      dst := dst + [f.a, f.b, f.c];
      triIdx := triIdx + 1;
    }
    assert faces[..triIdx] == faces;
  }

  lemma CopyStep(faces: seq<Triangle>, i: nat, t: IndexType)
    requires i < |faces|
    ensures Flatten(Wrapped(faces[..i + 1], t)) == Flatten(Wrapped(faces[..i], t)) + [WrapTriangle(faces[i], t).a, WrapTriangle(faces[i], t).b, WrapTriangle(faces[i], t).c]
  {
    assert faces[..i + 1][..i] == faces[..i];
    FlattenSnoc(Wrapped(faces[..i], t), WrapTriangle(faces[i], t));
  }

  /**
   * When a mesh's triangles use only its own vertices and it has no more vertices than
   * indices (assimp's layout, one vertex per corner at most), the 16-bit choice is only made
   * when every index fits, so the copy keeps every triangle.
   */
  lemma DenseMeshKeepsIndices(m: AssimpMesh)
    requires TrianglesBelow(m.faces, m.numVertices) && m.numVertices <= 3 * |m.faces|
    requires !WideMesh(m)
    ensures Wrapped(m.faces, Index16Bit) == m.faces
  {
    forall j | 0 <= j < |m.faces|
      ensures Wrapped(m.faces, Index16Bit)[j] == m.faces[j]
    {
      assert 0 <= m.faces[j].a < TWO_16 && 0 <= m.faces[j].b < TWO_16 && 0 <= m.faces[j].c < TWO_16;
    }
  }

  /**
   * The assimp criterion counts indices, not vertices: a mesh of 70000 vertices and one
   * triangle is given 16-bit indices and its vertex 69999 is stored as 4463, where
   * `CreateProcedural` would have chosen 32 bits.
   */
  lemma SparseMeshTruncates()
    ensures var m := AssimpMesh(70000, [Triangle(0, 1, 69999)]);
      TrianglesBelow(m.faces, m.numVertices) && !WideMesh(m) &&
      Wrapped(m.faces, Index16Bit) == [Triangle(0, 1, 4463)] &&
      ProceduralIndexType(m.numVertices) == Index32Bit
  {
    var m := AssimpMesh(70000, [Triangle(0, 1, 69999)]);
    assert Wrapped(m.faces, Index16Bit)[0] == WrapTriangle(Triangle(0, 1, 69999), Index16Bit);
  }

  // ---- materials -----------------------------------------------------------------------------

  /** `MaterialTextures`: albedo, normal, roughness, metallic, opacity, emissive. */
  const ALBEDO: nat := 0
  const OPACITY: nat := 4
  const TEXTURE_COUNT: nat := 6

  /** The texture used in place of a missing one, per texture type. */
  const DEFAULT_TEXTURES: seq<string> := [
    "..\\Content\\Textures\\DefaultBaseColor.dds",
    "..\\Content\\Textures\\DefaultNormalMap.dds",
    "..\\Content\\Textures\\DefaultRoughness.dds",
    "..\\Content\\Textures\\DefaultBlack.dds",
    "..\\Content\\Textures\\Default.dds",
    "..\\Content\\Textures\\DefaultBlack.dds"
  ]

  /** `MeshMaterial`: one texture name and one cache index per texture type. */
  datatype MeshMaterial = MeshMaterial(textureNames: seq<string>, textureIndices: seq<nat>, isOpaque: bool)
  {
    predicate WellFormed()
    {
      |textureNames| == TEXTURE_COUNT && |textureIndices| == TEXTURE_COUNT
    }
  }

  /** A loaded texture of the cache, known by the path it was loaded from. */
  datatype MaterialTexture = MaterialTexture(name: string, srgb: bool)

  /** The material names its own texture of this type and the file exists. */
  predicate HasOwnTexture(directory: string, name: string, files: set<string>)
  {
    |name| > 0 && directory + name in files
  }

  /** The path a texture slot is loaded from. */
  function ResolvedPath(directory: string, name: string, texType: nat, files: set<string>): string
    requires texType < TEXTURE_COUNT
  {
    if HasOwnTexture(directory, name, files) then directory + name else DEFAULT_TEXTURES[texType]
  }

  /** No two cache entries were loaded from the same path. */
  ghost predicate NoDuplicateNames(cache: seq<MaterialTexture>)
  {
    forall i, j :: 0 <= i < j < |cache| ==> cache[i].name != cache[j].name
  }

  /** In a cache without duplicates, one path has one entry. */
  lemma OnePathOneEntry(cache: seq<MaterialTexture>, i: nat, j: nat)
    requires NoDuplicateNames(cache) && i < |cache| && j < |cache|
    ensures cache[i].name == cache[j].name <==> i == j
  {
    if i < j {
      assert cache[i].name != cache[j].name;
    } else if j < i {
      assert cache[j].name != cache[i].name;
    }
  }

  /** Metallic and emissive slots without their own file share the one black default. */
  lemma MissingMetallicAndEmissiveShare(directory: string, metallic: string, emissive: string, files: set<string>)
    requires !HasOwnTexture(directory, metallic, files) && !HasOwnTexture(directory, emissive, files)
    ensures ResolvedPath(directory, metallic, 3, files) == ResolvedPath(directory, emissive, 5, files)
    ensures ResolvedPath(directory, metallic, 3, files) != ResolvedPath(directory, "", ALBEDO, files)
  {
  }

  /** Every slot of `mat` is bound to a cache entry loaded from its resolved path. */
  ghost predicate MaterialBound(mat: MeshMaterial, cache: seq<MaterialTexture>, directory: string, files: set<string>)
  {
    mat.WellFormed() && BoundBelow(mat.textureIndices, mat.textureNames, TEXTURE_COUNT, cache, directory, files)
  }

  /** Binding survives the cache growing at its end. */
  lemma MaterialBoundGrows(mat: MeshMaterial, cache: seq<MaterialTexture>, cache': seq<MaterialTexture>, directory: string, files: set<string>)
    requires MaterialBound(mat, cache, directory, files) && cache <= cache'
    ensures MaterialBound(mat, cache', directory, files)
  {
    forall t | 0 <= t < TEXTURE_COUNT
      ensures mat.textureIndices[t] < |cache'| && cache'[mat.textureIndices[t]].name == ResolvedPath(directory, mat.textureNames[t], t, files)
    {
      assert mat.textureIndices[t] < |cache| && cache[mat.textureIndices[t]].name == ResolvedPath(directory, mat.textureNames[t], t, files);
    }
  }

  /** Slots `0` to `n - 1` are bound: `indices[t]` names an entry loaded from slot `t`'s resolved path. */
  ghost predicate BoundBelow(indices: seq<nat>, names: seq<string>, n: nat, cache: seq<MaterialTexture>, directory: string, files: set<string>)
    requires |indices| == TEXTURE_COUNT && |names| == TEXTURE_COUNT && n <= TEXTURE_COUNT
  {
    forall t :: 0 <= t < n ==> indices[t] < |cache| && cache[indices[t]].name == ResolvedPath(directory, names[t], t, files)
  }

  /** Binding slot `t` to an entry with its resolved path extends the bound slots by one. */
  lemma BindSlot(indices: seq<nat>, names: seq<string>, t: nat, idx: nat, before: seq<MaterialTexture>, after: seq<MaterialTexture>,
                 directory: string, files: set<string>)
    requires |indices| == TEXTURE_COUNT && |names| == TEXTURE_COUNT && t < TEXTURE_COUNT
    requires BoundBelow(indices, names, t, before, directory, files) && before <= after
    requires idx < |after| && after[idx].name == ResolvedPath(directory, names[t], t, files)
    ensures BoundBelow(indices[t := idx], names, t + 1, after, directory, files)
  {
    forall u | 0 <= u < t
      ensures indices[u] < |after| && after[indices[u]].name == ResolvedPath(directory, names[u], u, files)
    {
      assert indices[u] < |before| && before[indices[u]].name == ResolvedPath(directory, names[u], u, files);
    }
  }

  /** The index of the first cache entry loaded from `path`, if any. */
  function Lookup(cache: seq<MaterialTexture>, path: string): (r: Wrappers.Option<nat>)
    ensures r.Some? ==> (r.value < |cache| && cache[r.value].name == path
      && forall k :: 0 <= k < r.value ==> cache[k].name != path)
    ensures r.None? <==> forall k :: 0 <= k < |cache| ==> cache[k].name != path
  {
    if |cache| == 0 then Wrappers.None
    else
      match Lookup(cache[..|cache| - 1], path)
      case Some(i) => Wrappers.Some(i)
      case None => if cache[|cache| - 1].name == path then Wrappers.Some(|cache| - 1) else Wrappers.None
  }

  /** What `CreateBuffers` reads and writes of a mesh. */
  datatype MeshState = MeshState(numVertices: nat, numIndices: nat, numParts: nat, indexType: IndexType,
                                 vtxOffset: u32, idxOffset: u32, vbOffset: nat, vbSize: nat, ibOffset: nat, ibSize: nat)

  function StateOf(m: Mesh): MeshState
    reads m
  {
    MeshState(m.numVertices, m.numIndices, |m.meshParts|, m.indexType, m.vtxOffset, m.idxOffset, m.vbOffset, m.vbSize, m.ibOffset, m.ibSize)
  }

  /**
   * A mesh placed at vertex `vtx` and index `idx` of the shared buffers: element offsets as
   * `uint32`, view offsets in bytes, views as large as the mesh's own vertices and indices.
   */
  function Placement(st: MeshState, vtx: nat, idx: nat, indexSize: nat): MeshState
  {
    st.(vtxOffset := vtx % TWO_32, idxOffset := idx % TWO_32,
        vbOffset := vtx * VERTEX_STRIDE, vbSize := VERTEX_STRIDE * st.numVertices,
        ibOffset := idx * indexSize, ibSize := IndexSize(st.indexType) * st.numIndices)
  }

  function StateVertexCounts(sts: seq<MeshState>): (r: seq<nat>)
    ensures |r| == |sts| && forall i :: 0 <= i < |sts| ==> r[i] == sts[i].numVertices
  {
    seq(|sts|, i requires 0 <= i < |sts| => sts[i].numVertices)
  }

  function StateIndexCounts(sts: seq<MeshState>): (r: seq<nat>)
    ensures |r| == |sts| && forall i :: 0 <= i < |sts| ==> r[i] == sts[i].numIndices
  {
    seq(|sts|, i requires 0 <= i < |sts| => sts[i].numIndices)
  }

  /** The first `i` meshes of `sts` are placed one after another; the rest are as in `initial`. */
  ghost predicate PlacedUpTo(sts: seq<MeshState>, initial: seq<MeshState>, i: nat, indexSize: nat)
  {
    |sts| == |initial| && i <= |sts| &&
    (forall k :: 0 <= k < i ==>
      sts[k] == Placement(initial[k], Sum(StateVertexCounts(initial)[..k]), Sum(StateIndexCounts(initial)[..k]), indexSize)) &&
    (forall k :: i <= k < |sts| ==> sts[k] == initial[k])
  }

  /** Placing mesh `i` at the running sums extends the placed prefix by one. */
  lemma PlacedUpToStep(prev: seq<MeshState>, next: seq<MeshState>, initial: seq<MeshState>, i: nat, indexSize: nat)
    requires PlacedUpTo(prev, initial, i, indexSize) && i < |prev|
    requires next == prev[i := Placement(prev[i], Sum(StateVertexCounts(initial)[..i]), Sum(StateIndexCounts(initial)[..i]), indexSize)]
    ensures PlacedUpTo(next, initial, i + 1, indexSize)
  {
  }

  // ---- the model -----------------------------------------------------------------------------

  class Model {
    var meshes: seq<Mesh>
    var indexType: IndexType
    var meshMaterials: seq<MeshMaterial>
    var materialTextures: seq<MaterialTexture>

    constructor ()
      ensures meshes == [] && meshMaterials == [] && materialTextures == [] && indexType == Index16Bit
    {
      meshes, meshMaterials, materialTextures, indexType := [], [], [], Index16Bit;
    }

    /** The model's meshes are distinct objects. */
    ghost predicate DistinctMeshes()
      reads this
    {
      forall i, j :: 0 <= i < j < |meshes| ==> meshes[i] != meshes[j]
    }

    /** The state of every mesh, in order. */
    ghost function States(): (r: seq<MeshState>)
      reads this, set i | 0 <= i < |meshes| :: meshes[i]
      ensures |r| == |meshes| && forall i :: 0 <= i < |meshes| ==> r[i] == StateOf(meshes[i])
    {
      seq(|meshes|, i reads this, set i | 0 <= i < |meshes| :: meshes[i] requires 0 <= i < |meshes| => StateOf(meshes[i]))
    }

    /**
     * `CreateBuffers`: mesh `i` starts at the sum of the earlier meshes' vertex and index
     * counts; its views start at those offsets in bytes (vertex stride, and the model's index
     * size), the element offsets are stored as `uint32`, and nothing else of a mesh changes.
     */
    method CreateBuffers()
      requires |meshes| > 0 && DistinctMeshes()
      requires forall i :: 0 <= i < |meshes| ==> |meshes[i].meshParts| > 0
      modifies set i | 0 <= i < |meshes| :: meshes[i]
      ensures meshes == old(meshes) && |States()| == |old(States())|
      ensures PlacedUpTo(States(), old(States()), |meshes|, IndexSize(indexType))
    {
      ghost var initial := States();
      ghost var vertexCounts, indexCounts := StateVertexCounts(initial), StateIndexCounts(initial);
      var indexSize := IndexSize(indexType);
      var vtxOffset: nat, idxOffset: nat := 0, 0;
      var i := 0;
      while i < |meshes|
        invariant i <= |meshes| && meshes == old(meshes) && |States()| == |initial|
        invariant vtxOffset == Sum(vertexCounts[..i]) && idxOffset == Sum(indexCounts[..i])
        invariant PlacedUpTo(States(), initial, i, indexSize)
        invariant forall k :: 0 <= k < |initial| ==> initial[k].numParts > 0
      {
        ghost var prev := States();
        assert StateOf(meshes[i]) == prev[i] == initial[i];
        PlaceMesh(i, vtxOffset, idxOffset, indexSize);
        PlacedUpToStep(prev, States(), initial, i, indexSize);
        assert StateOf(meshes[i]) == States()[i];
        assert meshes[i].numVertices == vertexCounts[i] && meshes[i].numIndices == indexCounts[i];
        SumPrefixStep(vertexCounts, i);
        SumPrefixStep(indexCounts, i);
        vtxOffset := vtxOffset + meshes[i].numVertices;
        idxOffset := idxOffset + meshes[i].numIndices;
        i := i + 1;
      }
    }

    /** One step of `CreateBuffers`: `InitCommon` on mesh `i` at the given offsets. */
    method PlaceMesh(i: nat, vtxOffset: nat, idxOffset: nat, indexSize: nat)
      requires DistinctMeshes() && i < |meshes| && |meshes[i].meshParts| > 0
      modifies meshes[i]
      ensures meshes == old(meshes)
      ensures States() == old(States())[i := Placement(old(States())[i], vtxOffset, idxOffset, indexSize)]
    {
      ghost var before := States();
      Arith.MulNonNeg(vtxOffset, VERTEX_STRIDE);
      Arith.MulNonNeg(idxOffset, indexSize);
      var vbOffset := vtxOffset * VERTEX_STRIDE;
      var ibOffset := idxOffset * indexSize;
      meshes[i].InitCommon(vbOffset, ibOffset, vtxOffset, idxOffset);
      forall k | 0 <= k < |meshes| && k != i
        ensures States()[k] == before[k]
      {
        assert meshes[k] != meshes[i];
      }
    }

    /**
     * `LoadMaterialResources`: every texture slot of every material is bound to a cache
     * entry loaded from its resolved path (its own file when named and present, the type's
     * default otherwise), reusing an entry already loaded from that path; the cache only
     * grows at its end and never holds one path twice; a material stops being opaque when it
     * has its own opacity texture.
     */
    method LoadMaterialResources(directory: string, forceSRGB: bool, files: set<string>)
      requires forall m :: 0 <= m < |meshMaterials| ==> meshMaterials[m].WellFormed()
      modifies this
      ensures meshes == old(meshes) && indexType == old(indexType)
      ensures |meshMaterials| == |old(meshMaterials)|
      ensures old(materialTextures) <= materialTextures
      ensures NoDuplicateNames(old(materialTextures)) ==> NoDuplicateNames(materialTextures)
      ensures forall m :: 0 <= m < |meshMaterials| ==>
        meshMaterials[m].textureNames == old(meshMaterials[m].textureNames) &&
        MaterialBound(meshMaterials[m], materialTextures, directory, files) &&
        meshMaterials[m].isOpaque == (old(meshMaterials[m].isOpaque) && !HasOwnTexture(directory, meshMaterials[m].textureNames[OPACITY], files))
      ensures forall k :: |old(materialTextures)| <= k < |materialTextures| ==> (materialTextures[k].srgb ==> forceSRGB)
    {
      var matIdx := 0;
      while matIdx < |meshMaterials|
        invariant matIdx <= |meshMaterials| == |old(meshMaterials)|
        invariant meshes == old(meshes) && indexType == old(indexType)
        invariant old(materialTextures) <= materialTextures
        invariant NoDuplicateNames(old(materialTextures)) ==> NoDuplicateNames(materialTextures)
        invariant forall m :: matIdx <= m < |meshMaterials| ==> meshMaterials[m] == old(meshMaterials[m])
        invariant forall m :: 0 <= m < matIdx ==>
          meshMaterials[m].textureNames == old(meshMaterials[m].textureNames) &&
          MaterialBound(meshMaterials[m], materialTextures, directory, files) &&
          meshMaterials[m].isOpaque == (old(meshMaterials[m].isOpaque) && !HasOwnTexture(directory, meshMaterials[m].textureNames[OPACITY], files))
        invariant forall k :: |old(materialTextures)| <= k < |materialTextures| ==> (materialTextures[k].srgb ==> forceSRGB)
      {
        ghost var before := materialTextures;
        var material := LoadMaterial(meshMaterials[matIdx], directory, forceSRGB, files);
        forall m | 0 <= m < matIdx
          ensures MaterialBound(meshMaterials[m], materialTextures, directory, files)
        {
          MaterialBoundGrows(meshMaterials[m], before, materialTextures, directory, files);
        }
        meshMaterials := meshMaterials[matIdx := material];
        matIdx := matIdx + 1;
      }
    }

    /** The texture loop of `LoadMaterialResources` for one material. */
    method LoadMaterial(material: MeshMaterial, directory: string, forceSRGB: bool, files: set<string>) returns (r: MeshMaterial)
      requires material.WellFormed()
      modifies this
      ensures meshes == old(meshes) && indexType == old(indexType) && meshMaterials == old(meshMaterials)
      ensures old(materialTextures) <= materialTextures
      ensures NoDuplicateNames(old(materialTextures)) ==> NoDuplicateNames(materialTextures)
      ensures r.WellFormed() && r.textureNames == material.textureNames
      ensures BoundBelow(r.textureIndices, r.textureNames, TEXTURE_COUNT, materialTextures, directory, files)
      ensures r.isOpaque == (material.isOpaque && !HasOwnTexture(directory, material.textureNames[OPACITY], files))
      ensures forall k :: |old(materialTextures)| <= k < |materialTextures| ==> (materialTextures[k].srgb ==> forceSRGB)
    {
      r := material;
      var texType := 0;
      while texType < TEXTURE_COUNT
        invariant texType <= TEXTURE_COUNT && r.WellFormed() && r.textureNames == material.textureNames
        invariant meshes == old(meshes) && indexType == old(indexType) && meshMaterials == old(meshMaterials)
        invariant old(materialTextures) <= materialTextures
        invariant NoDuplicateNames(old(materialTextures)) ==> NoDuplicateNames(materialTextures)
        invariant BoundBelow(r.textureIndices, r.textureNames, texType, materialTextures, directory, files)
        invariant r.isOpaque == (material.isOpaque && (texType > OPACITY ==> !HasOwnTexture(directory, material.textureNames[OPACITY], files)))
        invariant forall k :: |old(materialTextures)| <= k < |materialTextures| ==> (materialTextures[k].srgb ==> forceSRGB)
      {
        var name := r.textureNames[texType];
        var path := directory + name;
        if |name| == 0 || path !in files {
          path := DEFAULT_TEXTURES[texType];
        } else if texType == OPACITY {
          r := r.(isOpaque := false);
        }
        assert path == ResolvedPath(directory, r.textureNames[texType], texType, files);
        ghost var before := materialTextures;
        var idx := FindOrLoad(path, forceSRGB && texType == ALBEDO);
        BindSlot(r.textureIndices, r.textureNames, texType, idx, before, materialTextures, directory, files);
        r := r.(textureIndices := r.textureIndices[texType := idx]);
        texType := texType + 1;
      }
    }

    /**
     * The cache search of `LoadMaterialResources`: the first entry loaded from `path`, or a
     * new entry at the end of the cache.
     */
    method FindOrLoad(path: string, useSRGB: bool) returns (idx: nat)
      modifies this
      ensures meshes == old(meshes) && indexType == old(indexType) && meshMaterials == old(meshMaterials)
      ensures Lookup(old(materialTextures), path).Some? ==>
        materialTextures == old(materialTextures) && idx == Lookup(old(materialTextures), path).value
      ensures Lookup(old(materialTextures), path).None? ==>
        materialTextures == old(materialTextures) + [MaterialTexture(path, useSRGB)] && idx == |old(materialTextures)|
      ensures idx < |materialTextures| && materialTextures[idx].name == path
      ensures NoDuplicateNames(old(materialTextures)) ==> NoDuplicateNames(materialTextures)
    {
      var numLoaded := |materialTextures|;
      var i := 0;
      while i < numLoaded
        invariant i <= numLoaded
        invariant forall k :: 0 <= k < i ==> materialTextures[k].name != path
      {
        if materialTextures[i].name == path {
          return i;
        }
        i := i + 1;
      }
      materialTextures := materialTextures + [MaterialTexture(path, useSRGB)];
      idx := numLoaded;
    }
  }
}
