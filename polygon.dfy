/** The mesh of a regular polygon, `From<RegularPolygon> for Mesh`
    (src/types.rs:963-1028): one vertex per side and a fan of triangles
    around vertex 0. Vertex positions and texture coordinates come from
    sines and cosines and are not modelled: each is represented by the step
    `i` of the angle `FRAC_PI_2 - i * TAU / sides` it is computed from. */
module Polygon {
  import opened Wrappers
  import opened Vectors

  datatype RegularPolygon = RegularPolygon(radius: real, sides: nat)

  /** The attribute buffers and the index buffer of the mesh. */
  datatype Mesh = Mesh(positions: seq<nat>, normals: seq<Vec3>, uvs: seq<nat>, indices: seq<nat>)

  /** The `debug_assert!` that refuses fewer than three sides. */
  datatype MeshPanic = TooFewSides

  const Normal := Vec3(0.0, 0.0, 1.0)

  /** Triangle `k` of the fan, `[0, k + 1, k]`. */
  function Triangle(k: nat): seq<nat> { [0, k + 1, k] }

  /** Builds the mesh as the source does, pushing one vertex per side and then
      one triangle for every `k` in `1..sides - 1`. There are `sides`
      positions, normals and uvs; the index buffer holds `3 * (sides - 2)`
      entries, its `k`-th triangle is `[0, k + 1, k]`, so every triangle has
      vertex 0 and every index names an existing vertex. */
  method FromPolygon(polygon: RegularPolygon) returns (r: Result<Mesh, MeshPanic>)
    ensures r.Err? <==> polygon.sides <= 2
    ensures r.Ok? ==> var m := r.value;
      && |m.positions| == polygon.sides && |m.normals| == polygon.sides && |m.uvs| == polygon.sides
      && (forall i :: 0 <= i < polygon.sides ==> m.positions[i] == i && m.uvs[i] == i && m.normals[i] == Normal)
      && |m.indices| == 3 * (polygon.sides - 2)
      && (forall k :: 1 <= k < polygon.sides - 1 ==> m.indices[3 * (k - 1)..3 * k] == Triangle(k))
      && (forall t :: 0 <= t < |m.indices| ==> m.indices[t] < polygon.sides)
      && (forall t :: 0 <= t < |m.indices| && t % 3 == 0 ==> m.indices[t] == 0)
  {
    var sides := polygon.sides;
    if sides <= 2 {
      return Err(TooFewSides);
    }
    var positions: seq<nat> := [];
    var normals: seq<Vec3> := [];
    var uvs: seq<nat> := [];
    for i := 0 to sides
      invariant |positions| == i && |normals| == i && |uvs| == i
      invariant forall j :: 0 <= j < i ==> positions[j] == j && uvs[j] == j && normals[j] == Normal
    {
      positions := positions + [i];
      normals := normals + [Normal];
      uvs := uvs + [i];
    }
    var indices: seq<nat> := [];
    for i := 1 to sides - 1
      invariant |indices| == 3 * (i - 1)
      invariant forall k :: 1 <= k < i ==> indices[3 * (k - 1)..3 * k] == Triangle(k)
      invariant forall t :: 0 <= t < |indices| ==> indices[t] < sides
      invariant forall t :: 0 <= t < |indices| && t % 3 == 0 ==> indices[t] == 0
    {
      ghost var before := indices;
      indices := indices + Triangle(i);
      forall k | 1 <= k < i + 1
        ensures indices[3 * (k - 1)..3 * k] == Triangle(k)
      {
        if k < i {
          assert indices[3 * (k - 1)..3 * k] == before[3 * (k - 1)..3 * k];
        }
      }
    }
    return Ok(Mesh(positions, normals, uvs, indices));
  }
}
