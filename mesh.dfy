/** Mesh assembly in `load_model`: vertices sliced out of the parser's flat
    arrays, per-vertex tangents and bitangents averaged over the triangles
    that use the vertex, and the meshes and materials of a model. */
module Meshes {
  import opened Lang
  import opened Vectors
  import opened Assets

  datatype Vertex = Vertex(position: Vec3, texCoords: Vec2, normal: Vec3, tangent: Vec3, bitangent: Vec3)

  /** One model as the OBJ parser reports it: flat attribute arrays, one
      index list (three per triangle) and an optional material. */
  datatype ObjMesh = ObjMesh(positions: seq<real>, texcoords: seq<real>, normals: seq<real>,
                             indices: seq<nat>, materialId: Option<nat>)

  /** A mesh with the contents of its vertex and index buffers. */
  datatype Mesh = Mesh(name: string, vertices: seq<Vertex>, indices: seq<nat>, numElements: u32, material: nat)

  datatype Model = Model(meshes: seq<Mesh>, materials: seq<Material>)

  // ---------------------------------------------------------------------
  // Vertex building.

  /** The texture coordinates and normals reach as far as the positions do. */
  predicate AttributesCover(positions: seq<real>, texcoords: seq<real>, normals: seq<real>) {
    2 * (|positions| / 3) <= |texcoords| && 3 * (|positions| / 3) <= |normals|
  }

  /** One vertex per three position floats; tangent and bitangent start at zero. */
  function BuildVertices(positions: seq<real>, texcoords: seq<real>, normals: seq<real>): (vs: seq<Vertex>)
    requires AttributesCover(positions, texcoords, normals)
    ensures |vs| == |positions| / 3
  {
    seq(|positions| / 3, i requires 0 <= i < |positions| / 3 =>
      Vertex(Vec3(positions[3 * i], positions[3 * i + 1], positions[3 * i + 2]),
             Vec2(texcoords[2 * i], texcoords[2 * i + 1]),
             Vec3(normals[3 * i], normals[3 * i + 1], normals[3 * i + 2]),
             Zero3, Zero3))
  }

  /** The vertices' positions, flattened back into floats. */
  function Positions(vs: seq<Vertex>): seq<real> {
    if |vs| == 0 then []
    else var p := vs[|vs| - 1].position; Positions(vs[..|vs| - 1]) + [p.x, p.y, p.z]
  }

  function TexCoords(vs: seq<Vertex>): seq<real> {
    if |vs| == 0 then []
    else var t := vs[|vs| - 1].texCoords; TexCoords(vs[..|vs| - 1]) + [t.x, t.y]
  }

  function Normals(vs: seq<Vertex>): seq<real> {
    if |vs| == 0 then []
    else var n := vs[|vs| - 1].normal; Normals(vs[..|vs| - 1]) + [n.x, n.y, n.z]
  }

  lemma {:induction false} PositionsPrefix(vs: seq<Vertex>, positions: seq<real>, k: nat)
    requires k <= |vs| && 3 * |vs| <= |positions|
    requires forall i :: 0 <= i < |vs| ==>
               vs[i].position == Vec3(positions[3 * i], positions[3 * i + 1], positions[3 * i + 2])
    ensures Positions(vs[..k]) == positions[..3 * k]
  {
    if k > 0 {
      assert vs[..k][..k - 1] == vs[..k - 1];
      PositionsPrefix(vs, positions, k - 1);
      var p := vs[k - 1].position;
      assert Positions(vs[..k]) == positions[..3 * (k - 1)] + [p.x, p.y, p.z];
      assert positions[..3 * k] == positions[..3 * (k - 1)] + [positions[3 * k - 3], positions[3 * k - 2], positions[3 * k - 1]];
    }
  }

  lemma {:induction false} TexCoordsPrefix(vs: seq<Vertex>, texcoords: seq<real>, k: nat)
    requires k <= |vs| && 2 * |vs| <= |texcoords|
    requires forall i :: 0 <= i < |vs| ==> vs[i].texCoords == Vec2(texcoords[2 * i], texcoords[2 * i + 1])
    ensures TexCoords(vs[..k]) == texcoords[..2 * k]
  {
    if k > 0 {
      assert vs[..k][..k - 1] == vs[..k - 1];
      TexCoordsPrefix(vs, texcoords, k - 1);
      var t := vs[k - 1].texCoords;
      assert TexCoords(vs[..k]) == texcoords[..2 * (k - 1)] + [t.x, t.y];
      assert texcoords[..2 * k] == texcoords[..2 * (k - 1)] + [texcoords[2 * k - 2], texcoords[2 * k - 1]];
    }
  }

  lemma {:induction false} NormalsPrefix(vs: seq<Vertex>, normals: seq<real>, k: nat)
    requires k <= |vs| && 3 * |vs| <= |normals|
    requires forall i :: 0 <= i < |vs| ==>
               vs[i].normal == Vec3(normals[3 * i], normals[3 * i + 1], normals[3 * i + 2])
    ensures Normals(vs[..k]) == normals[..3 * k]
  {
    if k > 0 {
      assert vs[..k][..k - 1] == vs[..k - 1];
      NormalsPrefix(vs, normals, k - 1);
      var n := vs[k - 1].normal;
      assert Normals(vs[..k]) == normals[..3 * (k - 1)] + [n.x, n.y, n.z];
      assert normals[..3 * k] == normals[..3 * (k - 1)] + [normals[3 * k - 3], normals[3 * k - 2], normals[3 * k - 1]];
    }
  }

  /** Flattening the built vertices gives back the attribute arrays, cut to
      whole vertices, and every vertex starts with zero tangent and bitangent. */
  lemma BuildVerticesRoundTrip(positions: seq<real>, texcoords: seq<real>, normals: seq<real>)
    requires AttributesCover(positions, texcoords, normals)
    ensures var vs := BuildVertices(positions, texcoords, normals);
            && Positions(vs) == positions[..3 * (|positions| / 3)]
            && TexCoords(vs) == texcoords[..2 * (|positions| / 3)]
            && Normals(vs) == normals[..3 * (|positions| / 3)]
            && forall i :: 0 <= i < |vs| ==> vs[i].tangent == Zero3 && vs[i].bitangent == Zero3
  {
    var vs := BuildVertices(positions, texcoords, normals);
    PositionsPrefix(vs, positions, |vs|);
    TexCoordsPrefix(vs, texcoords, |vs|);
    NormalsPrefix(vs, normals, |vs|);
    assert vs[..|vs|] == vs;
  }

  // ---------------------------------------------------------------------
  // Per-triangle tangent and bitangent.

  /** The determinant of the triangle's two texture-coordinate edges. */
  function UvDeterminant(uv0: Vec2, uv1: Vec2, uv2: Vec2): real {
    var d1 := Sub2(uv1, uv0);
    var d2 := Sub2(uv2, uv0);
    d1.x * d2.y - d1.y * d2.x
  }

  /** One coordinate of a triangle's tangent: `(e1 * d - e2 * b) * r`, where
      `e1`, `e2` are that coordinate of the two position edges, `(a, b)` and
      `(c, d)` the two texture-coordinate edges and `r` the reciprocal of
      their determinant. */
  function TangentCoord(e1: real, e2: real, a: real, b: real, c: real, d: real): real
    requires a * d - b * c != 0.0
  {
    (e1 * d - e2 * b) * (1.0 / (a * d - b * c))
  }

  /** One coordinate of a triangle's bitangent: `(e2 * a - e1 * c) * -r`. */
  function BitangentCoord(e1: real, e2: real, a: real, b: real, c: real, d: real): real
    requires a * d - b * c != 0.0
  {
    (e2 * a - e1 * c) * (-(1.0 / (a * d - b * c)))
  }

  /** The tangent and bitangent of one triangle. */
  function TriangleBasis(p0: Vec3, p1: Vec3, p2: Vec3, uv0: Vec2, uv1: Vec2, uv2: Vec2): (Vec3, Vec3)
    requires UvDeterminant(uv0, uv1, uv2) != 0.0
  {
    var dp1 := Sub(p1, p0);
    var dp2 := Sub(p2, p0);
    var a, b := Sub2(uv1, uv0).x, Sub2(uv1, uv0).y;
    var c, d := Sub2(uv2, uv0).x, Sub2(uv2, uv0).y;
    (Vec3(TangentCoord(dp1.x, dp2.x, a, b, c, d), TangentCoord(dp1.y, dp2.y, a, b, c, d),
          TangentCoord(dp1.z, dp2.z, a, b, c, d)),
     Vec3(BitangentCoord(dp1.x, dp2.x, a, b, c, d), BitangentCoord(dp1.y, dp2.y, a, b, c, d),
          BitangentCoord(dp1.z, dp2.z, a, b, c, d)))
  }

  lemma FactorReciprocal(x: real, y: real, r: real, a: real, b: real)
    ensures (x * r) * a - (y * (-r)) * b == r * (x * a + y * b)
  {}

  lemma CramerNumerators(e1: real, e2: real, a: real, b: real, c: real, d: real)
    ensures (e1 * d - e2 * b) * a + (e2 * a - e1 * c) * b == e1 * (a * d - b * c)
    ensures (e1 * d - e2 * b) * c + (e2 * a - e1 * c) * d == e2 * (a * d - b * c)
  {}

  lemma CancelReciprocal(e: real, det: real)
    requires det != 0.0
    ensures (1.0 / det) * (e * det) == e
  {}

  /** Cramer's rule for one coordinate: the tangent and bitangent coordinates
      solve `t * a - s * b == e1` and `t * c - s * d == e2`. */
  lemma SolveCoordinate(e1: real, e2: real, a: real, b: real, c: real, d: real)
    requires a * d - b * c != 0.0
    ensures TangentCoord(e1, e2, a, b, c, d) * a - BitangentCoord(e1, e2, a, b, c, d) * b == e1
    ensures TangentCoord(e1, e2, a, b, c, d) * c - BitangentCoord(e1, e2, a, b, c, d) * d == e2
  {
    var r := 1.0 / (a * d - b * c);
    FactorReciprocal(e1 * d - e2 * b, e2 * a - e1 * c, r, a, b);
    FactorReciprocal(e1 * d - e2 * b, e2 * a - e1 * c, r, c, d);
    CramerNumerators(e1, e2, a, b, c, d);
    CancelReciprocal(e1, a * d - b * c);
    CancelReciprocal(e2, a * d - b * c);
  }

  lemma EdgeFromCoordinates(t: Vec3, u: Vec3, e: Vec3, a: real, b: real)
    requires t.x * a - u.x * b == e.x && t.y * a - u.y * b == e.y && t.z * a - u.z * b == e.z
    ensures Sub(Scale(t, a), Scale(u, b)) == e
  {}

  /** Cramer's rule on each coordinate of the two position edges. */
  lemma SolveEdges(t: Vec3, u: Vec3, dp1: Vec3, dp2: Vec3, a: real, b: real, c: real, d: real)
    requires a * d - b * c != 0.0
    requires t == Vec3(TangentCoord(dp1.x, dp2.x, a, b, c, d), TangentCoord(dp1.y, dp2.y, a, b, c, d),
                       TangentCoord(dp1.z, dp2.z, a, b, c, d))
    requires u == Vec3(BitangentCoord(dp1.x, dp2.x, a, b, c, d), BitangentCoord(dp1.y, dp2.y, a, b, c, d),
                       BitangentCoord(dp1.z, dp2.z, a, b, c, d))
    ensures Sub(Scale(t, a), Scale(u, b)) == dp1
    ensures Sub(Scale(t, c), Scale(u, d)) == dp2
  {
    SolveCoordinate(dp1.x, dp2.x, a, b, c, d);
    SolveCoordinate(dp1.y, dp2.y, a, b, c, d);
    SolveCoordinate(dp1.z, dp2.z, a, b, c, d);
    EdgeFromCoordinates(t, u, dp1, a, b);
    EdgeFromCoordinates(t, u, dp2, c, d);
  }

  /** The tangent T and bitangent B span the triangle's edges as its texture
      coordinates say: each position edge is T times the edge's u minus B
      times its v (the bitangent is negated, as the engine computes it). */
  lemma TriangleBasisSolves(p0: Vec3, p1: Vec3, p2: Vec3, uv0: Vec2, uv1: Vec2, uv2: Vec2)
    requires UvDeterminant(uv0, uv1, uv2) != 0.0
    ensures var tb := TriangleBasis(p0, p1, p2, uv0, uv1, uv2);
            var duv1 := Sub2(uv1, uv0);
            var duv2 := Sub2(uv2, uv0);
            && Sub(Scale(tb.0, duv1.x), Scale(tb.1, duv1.y)) == Sub(p1, p0)
            && Sub(Scale(tb.0, duv2.x), Scale(tb.1, duv2.y)) == Sub(p2, p0)
  {
    var tb := TriangleBasis(p0, p1, p2, uv0, uv1, uv2);
    var duv1, duv2 := Sub2(uv1, uv0), Sub2(uv2, uv0);
    SolveEdges(tb.0, tb.1, Sub(p1, p0), Sub(p2, p0), duv1.x, duv1.y, duv2.x, duv2.y);
  }

  // ---------------------------------------------------------------------
  // Accumulation over the index list.

  predicate WellIndexed(vs: seq<Vertex>, indices: seq<nat>) {
    |indices| % 3 == 0 && forall j :: 0 <= j < |indices| ==> indices[j] < |vs|
  }

  /** The texture-coordinate determinant of triangle `t`. */
  function TriangleDeterminant(vs: seq<Vertex>, indices: seq<nat>, t: nat): real
    requires WellIndexed(vs, indices) && t < |indices| / 3
  {
    UvDeterminant(vs[indices[3 * t]].texCoords, vs[indices[3 * t + 1]].texCoords, vs[indices[3 * t + 2]].texCoords)
  }

  /** Whole triangles, indices in range and no degenerate texture mapping. */
  predicate Triangulated(vs: seq<Vertex>, indices: seq<nat>) {
    && WellIndexed(vs, indices)
    && forall t :: 0 <= t < |indices| / 3 ==> TriangleDeterminant(vs, indices, t) != 0.0
  }

  /** The tangent and bitangent of triangle `t`. */
  function Basis(vs: seq<Vertex>, indices: seq<nat>, t: nat): (Vec3, Vec3)
    requires Triangulated(vs, indices) && t < |indices| / 3
  {
    var v0, v1, v2 := vs[indices[3 * t]], vs[indices[3 * t + 1]], vs[indices[3 * t + 2]];
    assert TriangleDeterminant(vs, indices, t) != 0.0;
    TriangleBasis(v0.position, v1.position, v2.position, v0.texCoords, v1.texCoords, v2.texCoords)
  }

  /** Vertex `v`'s tangent after the first `n` index entries have added their
      triangle's tangent onto the vertex they name. */
  function TangentSum(vs: seq<Vertex>, indices: seq<nat>, n: nat, v: nat): Vec3
    requires Triangulated(vs, indices) && n <= |indices| && v < |vs|
  {
    if n == 0 then vs[v].tangent
    else if indices[n - 1] == v then Add(Basis(vs, indices, (n - 1) / 3).0, TangentSum(vs, indices, n - 1, v))
    else TangentSum(vs, indices, n - 1, v)
  }

  function BitangentSum(vs: seq<Vertex>, indices: seq<nat>, n: nat, v: nat): Vec3
    requires Triangulated(vs, indices) && n <= |indices| && v < |vs|
  {
    if n == 0 then vs[v].bitangent
    else if indices[n - 1] == v then Add(Basis(vs, indices, (n - 1) / 3).1, BitangentSum(vs, indices, n - 1, v))
    else BitangentSum(vs, indices, n - 1, v)
  }

  /** How many of the first `n` index entries name `v`. */
  function ReferenceCount(indices: seq<nat>, n: nat, v: nat): nat
    requires n <= |indices|
  {
    if n == 0 then 0
    else ReferenceCount(indices, n - 1, v) + (if indices[n - 1] == v then 1 else 0)
  }

  /** The reference count is the number of occurrences of the vertex in the
      index list. */
  lemma {:induction false} ReferenceCountIsOccurrences(indices: seq<nat>, n: nat, v: nat)
    requires n <= |indices|
    ensures ReferenceCount(indices, n, v) == multiset(indices[..n])[v]
  {
    if n > 0 {
      ReferenceCountIsOccurrences(indices, n - 1, v);
      assert indices[..n] == indices[..n - 1] + [indices[n - 1]];
    }
  }

  lemma Referenced(indices: seq<nat>, v: nat)
    ensures ReferenceCount(indices, |indices|, v) > 0 <==> v in indices
  {
    ReferenceCountIsOccurrences(indices, |indices|, v);
    assert indices[..|indices|] == indices;
  }

  /** Vertex `v` once its sums are divided by its reference count. */
  function Averaged(vs: seq<Vertex>, indices: seq<nat>, v: nat): Vertex
    requires Triangulated(vs, indices) && v < |vs| && v in indices
  {
    Referenced(indices, v);
    var count := ReferenceCount(indices, |indices|, v) as real;
    vs[v].(tangent := Scale(TangentSum(vs, indices, |indices|, v), 1.0 / count),
           bitangent := Scale(BitangentSum(vs, indices, |indices|, v), 1.0 / count))
  }

  /** When every triangle that uses `v` has the same tangent and bitangent,
      the sums are that many copies of them. */
  lemma {:induction false} UniformSum(vs: seq<Vertex>, indices: seq<nat>, n: nat, v: nat, t: Vec3, b: Vec3)
    requires Triangulated(vs, indices) && n <= |indices| && v < |vs|
    requires vs[v].tangent == Zero3 && vs[v].bitangent == Zero3
    requires forall j :: 0 <= j < n && indices[j] == v ==> Basis(vs, indices, j / 3) == (t, b)
    ensures TangentSum(vs, indices, n, v) == Scale(t, ReferenceCount(indices, n, v) as real)
    ensures BitangentSum(vs, indices, n, v) == Scale(b, ReferenceCount(indices, n, v) as real)
  {
    if n > 0 {
      UniformSum(vs, indices, n - 1, v, t, b);
      var c := ReferenceCount(indices, n - 1, v) as real;
      ScaleSum(t, 1.0, c);
      ScaleSum(b, 1.0, c);
      ScaleOne(t);
      ScaleOne(b);
    }
  }

  /** Averaging copies of one tangent and bitangent gives them back. */
  lemma UniformAverage(vs: seq<Vertex>, indices: seq<nat>, v: nat, t: Vec3, b: Vec3)
    requires Triangulated(vs, indices) && v < |vs| && v in indices
    requires vs[v].tangent == Zero3 && vs[v].bitangent == Zero3
    requires forall j :: 0 <= j < |indices| && indices[j] == v ==> Basis(vs, indices, j / 3) == (t, b)
    ensures Averaged(vs, indices, v).tangent == t
    ensures Averaged(vs, indices, v).bitangent == b
  {
    UniformSum(vs, indices, |indices|, v, t, b);
    Referenced(indices, v);
    var c := ReferenceCount(indices, |indices|, v) as real;
    ScaleUndo(t, c);
    ScaleUndo(b, c);
  }

  /** The state of the triangle loop after `n` index entries. */
  ghost predicate Summed(vertices: array<Vertex>, counts: array<nat>, vs: seq<Vertex>, indices: seq<nat>, n: nat)
    reads vertices, counts
  {
    && Triangulated(vs, indices) && n <= |indices|
    && vertices.Length == |vs| && counts.Length == |vs|
    && forall v :: 0 <= v < |vs| ==>
         && vertices[v] == vs[v].(tangent := TangentSum(vs, indices, n, v), bitangent := BitangentSum(vs, indices, n, v))
         && counts[v] == ReferenceCount(indices, n, v)
  }

  /** One corner of a triangle: add the triangle's tangent and bitangent onto
      the vertex it names and count the reference. */
  method AddCorner(vertices: array<Vertex>, counts: array<nat>, ghost vs: seq<Vertex>, indices: seq<nat>, j: nat,
                   tangent: Vec3, bitangent: Vec3)
    requires Summed(vertices, counts, vs, indices, j) && j < |indices|
    requires (tangent, bitangent) == Basis(vs, indices, j / 3)
    modifies vertices, counts
    ensures Summed(vertices, counts, vs, indices, j + 1)
  {
    var c := indices[j];
    vertices[c] := vertices[c].(tangent := Add(tangent, vertices[c].tangent),
                                bitangent := Add(bitangent, vertices[c].bitangent));
    counts[c] := counts[c] + 1;
  }

  /** One triangle of the index list: its tangent and bitangent go onto each
      of its three corners. */
  method AddTriangle(vertices: array<Vertex>, counts: array<nat>, ghost vs: seq<Vertex>, indices: seq<nat>, t: nat)
    requires t < |indices| / 3 && Summed(vertices, counts, vs, indices, 3 * t)
    modifies vertices, counts
    ensures Summed(vertices, counts, vs, indices, 3 * t + 3)
  {
    var c0, c1, c2 := indices[3 * t], indices[3 * t + 1], indices[3 * t + 2];
    var v0, v1, v2 := vertices[c0], vertices[c1], vertices[c2];
    assert TriangleDeterminant(vs, indices, t) != 0.0;
    var basis := TriangleBasis(v0.position, v1.position, v2.position, v0.texCoords, v1.texCoords, v2.texCoords);
    assert basis == Basis(vs, indices, t);
    assert (3 * t + 1) / 3 == t && (3 * t + 2) / 3 == t;
    AddCorner(vertices, counts, vs, indices, 3 * t, basis.0, basis.1);
    AddCorner(vertices, counts, vs, indices, 3 * t + 1, basis.0, basis.1);
    AddCorner(vertices, counts, vs, indices, 3 * t + 2, basis.0, basis.1);
  }

  /** The tangent pass of `load_model`, in place on the vertex list. */
  method ComputeTangents(vertices: array<Vertex>, indices: seq<nat>)
    requires Triangulated(vertices[..], indices)
    requires forall v :: 0 <= v < vertices.Length ==> v in indices
    modifies vertices
    ensures forall v :: 0 <= v < vertices.Length ==> vertices[v] == Averaged(old(vertices[..]), indices, v)
    ensures forall v :: 0 <= v < vertices.Length ==>
              && vertices[v].position == old(vertices[v].position)
              && vertices[v].texCoords == old(vertices[v].texCoords)
              && vertices[v].normal == old(vertices[v].normal)
  {
    ghost var vs := vertices[..];
    var counts := new nat[vertices.Length](_ => 0);
    var t := 0;
    while t < |indices| / 3
      invariant 0 <= t <= |indices| / 3
      invariant Summed(vertices, counts, vs, indices, 3 * t)
    {
      AddTriangle(vertices, counts, vs, indices, t);
      t := t + 1;
    }
    var i := 0;
    while i < vertices.Length
      invariant 0 <= i <= vertices.Length
      invariant forall v :: 0 <= v < i ==> vertices[v] == Averaged(vs, indices, v)
      invariant forall v :: i <= v < vertices.Length ==>
                  && vertices[v] == vs[v].(tangent := TangentSum(vs, indices, |indices|, v),
                                           bitangent := BitangentSum(vs, indices, |indices|, v))
                  && counts[v] == ReferenceCount(indices, |indices|, v)
    {
      Referenced(indices, i);
      var denom := 1.0 / (counts[i] as real);
      vertices[i] := vertices[i].(tangent := Scale(vertices[i].tangent, denom),
                                  bitangent := Scale(vertices[i].bitangent, denom));
      i := i + 1;
    }
  }

  // ---------------------------------------------------------------------
  // Meshes and models.

  /** What the tangent pass needs of a parsed model. */
  predicate MeshInputOk(m: ObjMesh) {
    && AttributesCover(m.positions, m.texcoords, m.normals)
    && Triangulated(BuildVertices(m.positions, m.texcoords, m.normals), m.indices)
    && forall v :: 0 <= v < |m.positions| / 3 ==> v in m.indices
  }

  /** The mesh `load_model` builds from one parsed model. */
  function MeshFor(fileName: string, m: ObjMesh): Mesh
    requires MeshInputOk(m)
  {
    var vs := BuildVertices(m.positions, m.texcoords, m.normals);
    Mesh(fileName, seq(|vs|, v requires 0 <= v < |vs| => Averaged(vs, m.indices, v)),
         m.indices, AsU32(|m.indices|), m.materialId.UnwrapOr(0))
  }

  /** A mesh is named after the model file, holds the parser's indices, counts
      them (cut to 32 bits), falls back to material 0, and its vertex i takes
      positions[3i..3i+3], texcoords[2i..2i+2] and normals[3i..3i+3]. */
  lemma MeshContents(fileName: string, m: ObjMesh)
    requires MeshInputOk(m)
    ensures var mesh := MeshFor(fileName, m);
            && mesh.name == fileName
            && mesh.indices == m.indices
            && mesh.numElements as int == |m.indices| % U32_MODULUS
            && (m.materialId.Some? ==> mesh.material == m.materialId.value)
            && (m.materialId.None? ==> mesh.material == 0)
            && |mesh.vertices| == |m.positions| / 3
            && forall i :: 0 <= i < |mesh.vertices| ==>
                 && mesh.vertices[i].position == Vec3(m.positions[3 * i], m.positions[3 * i + 1], m.positions[3 * i + 2])
                 && mesh.vertices[i].texCoords == Vec2(m.texcoords[2 * i], m.texcoords[2 * i + 1])
                 && mesh.vertices[i].normal == Vec3(m.normals[3 * i], m.normals[3 * i + 1], m.normals[3 * i + 2])
  {}

  /** A mesh vertex's tangent (bitangent) is the sum of the tangents
      (bitangents) of the triangles at its index-list occurrences, over the
      number of occurrences. */
  lemma MeshTangentsAveraged(fileName: string, m: ObjMesh, v: nat)
    requires MeshInputOk(m) && v < |m.positions| / 3
    ensures var vs := BuildVertices(m.positions, m.texcoords, m.normals);
            var count := multiset(m.indices)[v] as real;
            && count > 0.0
            && MeshFor(fileName, m).vertices[v].tangent == Scale(TangentSum(vs, m.indices, |m.indices|, v), 1.0 / count)
            && MeshFor(fileName, m).vertices[v].bitangent == Scale(BitangentSum(vs, m.indices, |m.indices|, v), 1.0 / count)
  {
    ReferenceCountIsOccurrences(m.indices, |m.indices|, v);
    assert m.indices[..|m.indices|] == m.indices;
    Referenced(m.indices, v);
  }

  /** One parsed model through vertex building and the tangent pass. */
  method LoadMesh(fileName: string, m: ObjMesh) returns (mesh: Mesh)
    requires MeshInputOk(m)
    ensures mesh == MeshFor(fileName, m)
  {
    var vs := BuildVertices(m.positions, m.texcoords, m.normals);
    var vertices := new Vertex[|vs|](i requires 0 <= i < |vs| => vs[i]);
    assert vertices[..] == vs;
    ComputeTangents(vertices, m.indices);
    mesh := Mesh(fileName, vertices[..], m.indices, AsU32(|m.indices|), m.materialId.UnwrapOr(0));
    assert mesh.vertices == MeshFor(fileName, m).vertices;
  }

  /** What `load_model` returns, given the parser's models and materials for
      the selected text and which texture sources `Texture::from_bytes`
      accepts. */
  function ModelFor(archive: seq<Entry>, fileName: string, models: seq<ObjMesh>, decodes: TextureSource -> bool, objMaterials: seq<ObjMaterial>):
    Result<Model, LoadError>
    requires forall i :: 0 <= i < |models| ==> MeshInputOk(models[i])
  {
    if Selected(archive, InFolder("res", fileName)) == [] then Failure(ModelNotFound(fileName))
    else match MaterialsFor(archive, decodes, objMaterials)
      case Failure(e) => Failure(e)
      case Success(materials) =>
        Success(Model(seq(|models|, i requires 0 <= i < |models| => MeshFor(fileName, models[i])), materials))
  }

  /** `load_model`: the model text must be found and non-empty, every material
      must load, and then each parsed model becomes a mesh. */
  method LoadModel(archive: seq<Entry>, fileName: string, models: seq<ObjMesh>, decodes: TextureSource -> bool, objMaterials: seq<ObjMaterial>)
    returns (r: Result<Model, LoadError>)
    requires forall i :: 0 <= i < |models| ==> MeshInputOk(models[i])
    ensures r == ModelFor(archive, fileName, models, decodes, objMaterials)
  {
    var text := LoadModelText(archive, fileName);
    if text.Failure? {
      return Failure(text.error);
    }
    var materials := LoadMaterials(archive, decodes, objMaterials);
    if materials.Failure? {
      return Failure(materials.error);
    }
    var meshes: seq<Mesh> := [];
    var i := 0;
    while i < |models|
      invariant 0 <= i <= |models|
      invariant |meshes| == i
      invariant forall k :: 0 <= k < i ==> meshes[k] == MeshFor(fileName, models[k])
    {
      var mesh := LoadMesh(fileName, models[i]);
      meshes := meshes + [mesh];
      i := i + 1;
    }
    assert meshes == seq(|models|, k requires 0 <= k < |models| => MeshFor(fileName, models[k]));
    return Success(Model(meshes, materials.value));
  }

  /** The model loads exactly when its text is non-empty and every material
      names both textures and both decode; it then has one mesh per parsed
      model and one material per parsed material. */
  lemma ModelLoads(archive: seq<Entry>, fileName: string, models: seq<ObjMesh>, decodes: TextureSource -> bool, objMaterials: seq<ObjMaterial>)
    requires forall i :: 0 <= i < |models| ==> MeshInputOk(models[i])
    ensures ModelFor(archive, fileName, models, decodes, objMaterials).Success?
            <==> Selected(archive, InFolder("res", fileName)) != []
                 && forall i :: 0 <= i < |objMaterials| ==> Loadable(archive, decodes, objMaterials[i])
    ensures ModelFor(archive, fileName, models, decodes, objMaterials).Success? ==>
              && |ModelFor(archive, fileName, models, decodes, objMaterials).value.meshes| == |models|
              && |ModelFor(archive, fileName, models, decodes, objMaterials).value.materials| == |objMaterials|
  {
    MaterialsSucceed(archive, decodes, objMaterials);
  }
}
