/**
  The mesh merger (VFXMan of LYF): it gathers the AR meshes within a radius
  of the camera, nearest first, and concatenates them into one mesh for the
  point-cloud effect. Meshes are appended in order until the next one would
  push the vertex count over a cap; each mesh's triangle indices are shifted
  by the number of vertices appended before it, and every vertex gets a
  normal and a UV (up and zero when the source mesh has too few).

  Where a mesh sits in the world is abstracted: `placed(id, v)` is vertex `v`
  of filter `id` in the merged mesh's coordinates, `turned(id, n)` the
  normalised world direction of normal `n`, and `distance(id)` the distance
  from the camera to the mesh's centre.
*/
module MeshMerge {
  import opened EngineMath
  import opened Wrappers

  type FilterId = nat

  /** A mesh: vertex, normal and UV arrays and a triangle index list. */
  datatype MeshData = MeshData(vertices: seq<Vec3>, normals: seq<Vec3>, uvs: seq<Vec2>, triangles: seq<int>)

  const EmptyMesh := MeshData([], [], [], [])

  /** A MeshFilter of the AR mesh manager, whose mesh may be null. */
  datatype MeshFilter = MeshFilter(id: FilterId, mesh: Option<MeshData>)

  /** Every triangle index of the mesh names one of its own vertices. */
  predicate IndicesWithin(m: MeshData) {
    forall k :: 0 <= k < |m.triangles| ==> 0 <= m.triangles[k] < |m.vertices|
  }

  // ------------------------------------------------------------ nearby meshes

  /** The filters GetNearbyMeshes keeps, in list order: not null, with a mesh, within the radius. */
  function WithinRadius(filters: seq<Option<MeshFilter>>, distance: FilterId -> real, mergeRadius: real): seq<MeshFilter> {
    if |filters| == 0 then []
    else
      var last := filters[|filters| - 1];
      WithinRadius(filters[..|filters| - 1], distance, mergeRadius)
      + (if last.Some? && last.value.mesh.Some? && distance(last.value.id) <= mergeRadius then [last.value] else [])
  }

  /** A filter is kept exactly when it is listed, has a mesh and lies within the radius. */
  lemma {:induction false} WithinRadiusMembers(filters: seq<Option<MeshFilter>>, distance: FilterId -> real, mergeRadius: real, f: MeshFilter)
    ensures f in WithinRadius(filters, distance, mergeRadius) <==>
            (exists i :: 0 <= i < |filters| && filters[i] == Some(f)) && f.mesh.Some? && distance(f.id) <= mergeRadius
  {
    if |filters| > 0 {
      var init := filters[..|filters| - 1];
      WithinRadiusMembers(init, distance, mergeRadius, f);
      if exists i :: 0 <= i < |init| && init[i] == Some(f) {
        var i :| 0 <= i < |init| && init[i] == Some(f);
        assert filters[i] == Some(f);
      }
      if exists i :: 0 <= i < |filters| && filters[i] == Some(f) {
        var i :| 0 <= i < |filters| && filters[i] == Some(f);
        if i < |init| {
          assert init[i] == Some(f);
        }
      }
    }
  }

  /** Nearest first: distances never decrease along the list. */
  predicate SortedByDistance(s: seq<MeshFilter>, distance: FilterId -> real) {
    forall i, j :: 0 <= i < j < |s| ==> distance(s[i].id) <= distance(s[j].id)
  }

  /** Putting `x` between the entries no farther and the entries farther keeps the list sorted, and adds `x` once. */
  lemma InsertSorted(sorted: seq<MeshFilter>, j: int, x: MeshFilter, distance: FilterId -> real)
    requires 0 <= j <= |sorted|
    requires SortedByDistance(sorted, distance)
    requires forall k :: 0 <= k < j ==> distance(sorted[k].id) <= distance(x.id)
    requires forall k :: j <= k < |sorted| ==> distance(x.id) < distance(sorted[k].id)
    ensures SortedByDistance(sorted[..j] + [x] + sorted[j..], distance)
    ensures multiset(sorted[..j] + [x] + sorted[j..]) == multiset(sorted) + multiset{x}
  {
    var r := sorted[..j] + [x] + sorted[j..];
    forall a, b | 0 <= a < b < |r| ensures distance(r[a].id) <= distance(r[b].id) {
      if b < j {
        assert r[a] == sorted[a] && r[b] == sorted[b];
      } else if b == j {
        assert r[a] == sorted[a];
      } else if a == j {
        assert r[b] == sorted[b - 1];
      } else if a < j {
        assert r[a] == sorted[a] && r[b] == sorted[b - 1];
      } else {
        assert r[a] == sorted[a - 1] && r[b] == sorted[b - 1];
      }
    }
    assert sorted == sorted[..j] + sorted[j..];
  }

  /** Where `x` goes in a sorted list: after every entry no farther than `x`, before every farther one. */
  method InsertionPoint(sorted: seq<MeshFilter>, x: MeshFilter, distance: FilterId -> real) returns (j: int)
    requires SortedByDistance(sorted, distance)
    ensures 0 <= j <= |sorted|
    ensures forall k :: 0 <= k < j ==> distance(sorted[k].id) <= distance(x.id)
    ensures forall k :: j <= k < |sorted| ==> distance(x.id) < distance(sorted[k].id)
  {
    j := 0;
    while j < |sorted| && distance(sorted[j].id) <= distance(x.id)
      invariant 0 <= j <= |sorted|
      invariant forall k :: 0 <= k < j ==> distance(sorted[k].id) <= distance(x.id)
    {
      j := j + 1;
    }
    forall k | j <= k < |sorted| ensures distance(x.id) < distance(sorted[k].id) {
      assert distance(sorted[j].id) <= distance(sorted[k].id);
    }
  }

  /** The nearby list sorted by distance: List.Sort with the distance comparison, here as an insertion sort. */
  method SortByDistance(items: seq<MeshFilter>, distance: FilterId -> real) returns (sorted: seq<MeshFilter>)
    ensures SortedByDistance(sorted, distance)
    ensures multiset(sorted) == multiset(items)
  {
    sorted := [];
    for i := 0 to |items|
      invariant SortedByDistance(sorted, distance)
      invariant multiset(sorted) == multiset(items[..i])
    {
      var x := items[i];
      var j := InsertionPoint(sorted, x, distance);
      InsertSorted(sorted, j, x, distance);
      assert items[..i + 1] == items[..i] + [x];
      sorted := sorted[..j] + [x] + sorted[j..];
    }
    assert items[..|items|] == items;
  }

  /** GetNearbyMeshes: the filters with a mesh within the radius, nearest first. */
  method GetNearbyMeshes(filters: seq<Option<MeshFilter>>, distance: FilterId -> real, mergeRadius: real)
    returns (nearby: seq<MeshFilter>)
    ensures multiset(nearby) == multiset(WithinRadius(filters, distance, mergeRadius))
    ensures SortedByDistance(nearby, distance)
  {
    var kept := [];
    for i := 0 to |filters|
      invariant kept == WithinRadius(filters[..i], distance, mergeRadius)
    {
      assert filters[..i + 1][..i] == filters[..i];
      var meshFilter := filters[i];
      if meshFilter.None? || meshFilter.value.mesh.None? {
        continue;
      }
      if distance(meshFilter.value.id) <= mergeRadius {
        kept := kept + [meshFilter.value];
      }
    }
    assert filters[..|filters|] == filters;
    nearby := SortByDistance(kept, distance);
  }

  // ------------------------------------------------------------ merging

  /** The lists CombineMeshes builds, the running vertex offset, and whether the cap stopped it. */
  datatype Merge = Merge(vertices: seq<Vec3>, normals: seq<Vec3>, uvs: seq<Vec2>, triangles: seq<int>,
                         offset: int, stopped: bool)

  const Start := Merge([], [], [], [], 0, false)

  /** The vertices of a mesh in the merged mesh's coordinates. */
  function PlacedVertices(id: FilterId, m: MeshData, placed: (FilterId, Vec3) -> Vec3): (vs: seq<Vec3>)
    ensures |vs| == |m.vertices|
  {
    seq(|m.vertices|, k requires 0 <= k < |m.vertices| => placed(id, m.vertices[k]))
  }

  /** One normal per vertex: the turned source normal where there is one, else up. */
  function VertexNormals(id: FilterId, m: MeshData, turned: (FilterId, Vec3) -> Vec3): (ns: seq<Vec3>)
    ensures |ns| == |m.vertices|
    ensures forall k :: 0 <= k < |m.vertices| && |m.normals| <= k ==> ns[k] == Up3
  {
    seq(|m.vertices|, k requires 0 <= k < |m.vertices| => if k < |m.normals| then turned(id, m.normals[k]) else Up3)
  }

  /** One UV per vertex: the source UV where there is one, else zero. */
  function VertexUVs(m: MeshData): (us: seq<Vec2>)
    ensures |us| == |m.vertices|
    ensures forall k :: 0 <= k < |m.vertices| && |m.uvs| <= k ==> us[k] == Zero2
  {
    seq(|m.vertices|, k requires 0 <= k < |m.vertices| => if k < |m.uvs| then m.uvs[k] else Zero2)
  }

  /** A triangle list with every index shifted by `offset`. */
  function Rebased(triangles: seq<int>, offset: int): (r: seq<int>)
    ensures |r| == |triangles|
    ensures forall k :: 0 <= k < |r| ==> r[k] == triangles[k] + offset
  {
    seq(|triangles|, k requires 0 <= k < |triangles| => triangles[k] + offset)
  }

  /**
    One pass of CombineMeshes' loop: nothing after the cap stopped the loop;
    a null mesh is skipped; a mesh that would push the vertex count over the
    cap stops the loop; any other mesh is appended.
  */
  function Step(s: Merge, f: MeshFilter, maxVertices: int,
                placed: (FilterId, Vec3) -> Vec3, turned: (FilterId, Vec3) -> Vec3): Merge
  {
    if s.stopped || f.mesh.None? then s
    else
      var m := f.mesh.value;
      if |s.vertices| + |m.vertices| > maxVertices then s.(stopped := true)
      else Merge(s.vertices + PlacedVertices(f.id, m, placed),
                 s.normals + VertexNormals(f.id, m, turned),
                 s.uvs + VertexUVs(m),
                 s.triangles + Rebased(m.triangles, s.offset),
                 s.offset + |m.vertices|,
                 false)
  }

  /** CombineMeshes' loop over the whole list. */
  function MergeAll(filters: seq<MeshFilter>, maxVertices: int,
                    placed: (FilterId, Vec3) -> Vec3, turned: (FilterId, Vec3) -> Vec3): Merge
  {
    if |filters| == 0 then Start
    else Step(MergeAll(filters[..|filters| - 1], maxVertices, placed, turned), filters[|filters| - 1],
              maxVertices, placed, turned)
  }

  /**
    The merged lists stay aligned: one normal and one UV per vertex, and the
    offset is the number of vertices appended so far, so every mesh's indices
    are shifted by the vertices appended before it. The vertex count never
    exceeds the cap.
  */
  lemma {:induction false} MergeAligned(filters: seq<MeshFilter>, maxVertices: int,
                                         placed: (FilterId, Vec3) -> Vec3, turned: (FilterId, Vec3) -> Vec3)
    ensures var r := MergeAll(filters, maxVertices, placed, turned);
      && |r.normals| == |r.vertices| && |r.uvs| == |r.vertices|
      && r.offset == |r.vertices|
      && (|r.vertices| == 0 || |r.vertices| <= maxVertices)
  {
    if |filters| > 0 {
      MergeAligned(filters[..|filters| - 1], maxVertices, placed, turned);
    }
  }

  /** When every source mesh indexes its own vertices, every merged index names a merged vertex. */
  lemma {:induction false} MergeIndicesInRange(filters: seq<MeshFilter>, maxVertices: int,
                                                placed: (FilterId, Vec3) -> Vec3, turned: (FilterId, Vec3) -> Vec3)
    requires forall i :: 0 <= i < |filters| && filters[i].mesh.Some? ==> IndicesWithin(filters[i].mesh.value)
    ensures var r := MergeAll(filters, maxVertices, placed, turned);
      forall k :: 0 <= k < |r.triangles| ==> 0 <= r.triangles[k] < |r.vertices|
  {
    if |filters| > 0 {
      var init := filters[..|filters| - 1];
      MergeIndicesInRange(init, maxVertices, placed, turned);
      MergeAligned(init, maxVertices, placed, turned);
      var s := MergeAll(init, maxVertices, placed, turned);
      var r := MergeAll(filters, maxVertices, placed, turned);
      var f := filters[|filters| - 1];
      if !s.stopped && f.mesh.Some? && |s.vertices| + |f.mesh.value.vertices| <= maxVertices {
        var m := f.mesh.value;
        forall k | 0 <= k < |r.triangles|
          ensures 0 <= r.triangles[k] < |r.vertices|
        {
          if k >= |s.triangles| {
            assert r.triangles[k] == m.triangles[k - |s.triangles|] + s.offset;
          }
        }
      }
    }
  }

  /** When every source mesh has whole triangles, so has the merged mesh: the triangle count loses nothing to truncation. */
  lemma {:induction false} MergeWholeTriangles(filters: seq<MeshFilter>, maxVertices: int,
                                                placed: (FilterId, Vec3) -> Vec3, turned: (FilterId, Vec3) -> Vec3)
    requires forall i :: 0 <= i < |filters| && filters[i].mesh.Some? ==> |filters[i].mesh.value.triangles| % 3 == 0
    ensures |MergeAll(filters, maxVertices, placed, turned).triangles| % 3 == 0
  {
    if |filters| > 0 {
      MergeWholeTriangles(filters[..|filters| - 1], maxVertices, placed, turned);
    }
  }

  /** After the break no later mesh is considered: once stopped, further meshes change nothing. */
  lemma {:induction false} StopIsFinal(filters: seq<MeshFilter>, rest: seq<MeshFilter>, maxVertices: int,
                                       placed: (FilterId, Vec3) -> Vec3, turned: (FilterId, Vec3) -> Vec3)
    requires MergeAll(filters, maxVertices, placed, turned).stopped
    ensures MergeAll(filters + rest, maxVertices, placed, turned) == MergeAll(filters, maxVertices, placed, turned)
  {
    if |rest| > 0 {
      var init := rest[..|rest| - 1];
      StopIsFinal(filters, init, maxVertices, placed, turned);
      assert (filters + rest)[..|filters + rest| - 1] == filters + init;
      assert MergeAll(filters + rest, maxVertices, placed, turned)
          == Step(MergeAll(filters + init, maxVertices, placed, turned), rest[|rest| - 1], maxVertices, placed, turned);
    } else {
      assert filters + rest == filters;
    }
  }

  /** Meshes are appended in list order: what later meshes add comes after what the earlier ones produced. */
  lemma {:induction false} MergeExtends(filters: seq<MeshFilter>, rest: seq<MeshFilter>, maxVertices: int,
                                        placed: (FilterId, Vec3) -> Vec3, turned: (FilterId, Vec3) -> Vec3)
    ensures var s := MergeAll(filters, maxVertices, placed, turned);
      var r := MergeAll(filters + rest, maxVertices, placed, turned);
      && s.vertices <= r.vertices && s.normals <= r.normals && s.uvs <= r.uvs && s.triangles <= r.triangles
  {
    if |rest| > 0 {
      var init := rest[..|rest| - 1];
      MergeExtends(filters, init, maxVertices, placed, turned);
      assert (filters + rest)[..|filters + rest| - 1] == filters + init;
      assert MergeAll(filters + rest, maxVertices, placed, turned)
          == Step(MergeAll(filters + init, maxVertices, placed, turned), rest[|rest| - 1], maxVertices, placed, turned);
    } else {
      assert filters + rest == filters;
    }
  }

  /** The per-vertex loop of CombineMeshes: each vertex placed, with its normal (or up) and UV (or zero). */
  method AppendVertices(vertices: seq<Vec3>, normals: seq<Vec3>, uvs: seq<Vec2>, id: FilterId, mesh: MeshData,
                        placed: (FilterId, Vec3) -> Vec3, turned: (FilterId, Vec3) -> Vec3)
    returns (vs: seq<Vec3>, ns: seq<Vec3>, us: seq<Vec2>)
    ensures vs == vertices + PlacedVertices(id, mesh, placed)
    ensures ns == normals + VertexNormals(id, mesh, turned)
    ensures us == uvs + VertexUVs(mesh)
  {
    vs, ns, us := vertices, normals, uvs;
    for i := 0 to |mesh.vertices|
      invariant vs == vertices + PlacedVertices(id, mesh, placed)[..i]
      invariant ns == normals + VertexNormals(id, mesh, turned)[..i]
      invariant us == uvs + VertexUVs(mesh)[..i]
    {
      assert PlacedVertices(id, mesh, placed)[..i + 1] == PlacedVertices(id, mesh, placed)[..i] + [placed(id, mesh.vertices[i])];
      vs := vs + [placed(id, mesh.vertices[i])];
      if |mesh.normals| > i {
        assert VertexNormals(id, mesh, turned)[..i + 1] == VertexNormals(id, mesh, turned)[..i] + [turned(id, mesh.normals[i])];
        ns := ns + [turned(id, mesh.normals[i])];
      } else {
        assert VertexNormals(id, mesh, turned)[..i + 1] == VertexNormals(id, mesh, turned)[..i] + [Up3];
        ns := ns + [Up3];
      }
      if |mesh.uvs| > i {
        assert VertexUVs(mesh)[..i + 1] == VertexUVs(mesh)[..i] + [mesh.uvs[i]];
        us := us + [mesh.uvs[i]];
      } else {
        assert VertexUVs(mesh)[..i + 1] == VertexUVs(mesh)[..i] + [Zero2];
        us := us + [Zero2];
      }
    }
    assert PlacedVertices(id, mesh, placed)[..|mesh.vertices|] == PlacedVertices(id, mesh, placed);
    assert VertexNormals(id, mesh, turned)[..|mesh.vertices|] == VertexNormals(id, mesh, turned);
    assert VertexUVs(mesh)[..|mesh.vertices|] == VertexUVs(mesh);
  }

  /** The per-index loop of CombineMeshes: each index shifted by the vertices merged before the mesh. */
  method AppendTriangles(triangles: seq<int>, source: seq<int>, vertexOffset: int) returns (ts: seq<int>)
    ensures |ts| == |triangles| + |source|
    ensures ts[..|triangles|] == triangles
    ensures forall k :: 0 <= k < |source| ==> ts[|triangles| + k] == source[k] + vertexOffset
  {
    ts := triangles;
    for i := 0 to |source|
      invariant |ts| == |triangles| + i
      invariant ts[..|triangles|] == triangles
      invariant forall k :: 0 <= k < i ==> ts[|triangles| + k] == source[k] + vertexOffset
    {
      ts := ts + [source[i] + vertexOffset];
    }
  }

  /** The mesh CombineMeshes leaves: the merged lists, or the cleared mesh when no vertex was merged. */
  function CombinedMesh(r: Merge): (m: MeshData)
    ensures |r.vertices| == 0 ==> m == EmptyMesh
    ensures |r.vertices| > 0 ==> m.vertices == r.vertices && m.triangles == r.triangles
  {
    if |r.vertices| > 0 then MeshData(r.vertices, r.normals, r.uvs, r.triangles) else EmptyMesh
  }

  /** GetCombinedMeshInfo: the vertex and triangle counts of the combined mesh, zero when there is none. */
  function MeshInfo(combined: Option<MeshData>): (info: (int, int))
    ensures combined.None? ==> info == (0, 0)
    ensures combined.Some? ==> info.0 == |combined.value.vertices| && info.1 * 3 <= |combined.value.triangles| < info.1 * 3 + 3
  {
    if combined.Some? then (|combined.value.vertices|, |combined.value.triangles| / 3) else (0, 0)
  }

  /** The combined mesh's counts: at most the cap in vertices, and exactly a third of the indices in triangles when the sources have whole triangles. */
  lemma MergedInfo(filters: seq<MeshFilter>, maxVertices: int,
                   placed: (FilterId, Vec3) -> Vec3, turned: (FilterId, Vec3) -> Vec3)
    requires forall i :: 0 <= i < |filters| && filters[i].mesh.Some? ==> |filters[i].mesh.value.triangles| % 3 == 0
    ensures var m := CombinedMesh(MergeAll(filters, maxVertices, placed, turned));
      var info := MeshInfo(Some(m));
      && 0 <= info.0 <= MaxInt(maxVertices, 0)
      && info.1 * 3 == |m.triangles|
  {
    MergeAligned(filters, maxVertices, placed, turned);
    MergeWholeTriangles(filters, maxVertices, placed, turned);
  }

  // ------------------------------------------------------------ the merger

  class MeshMerger {
    /** combinedMesh: none until Start creates it. */
    var combined: Option<MeshData>
    const maxVertices: int
    var mergeRadius: real

    constructor (maxVertices: int, mergeRadius: real)
      ensures combined.None? && this.maxVertices == maxVertices && this.mergeRadius == mergeRadius
    {
      combined := None;
      this.maxVertices, this.mergeRadius := maxVertices, mergeRadius;
    }

    /** The part of Start that creates the (empty) combined mesh. */
    method CreateCombinedMesh()
      modifies this`combined
      ensures combined == Some(EmptyMesh)
    {
      combined := Some(EmptyMesh);
    }

    /**
      CombineMeshes: append the meshes in order, skipping null meshes and
      stopping at the first one that would exceed the cap, then clear the
      combined mesh and set the lists when there is at least one vertex.
    */
    method CombineMeshes(filters: seq<MeshFilter>, placed: (FilterId, Vec3) -> Vec3, turned: (FilterId, Vec3) -> Vec3)
      requires combined.Some?
      modifies this`combined
      ensures combined == Some(CombinedMesh(MergeAll(filters, maxVertices, placed, turned)))
      ensures |combined.value.vertices| <= MaxInt(maxVertices, 0)
      ensures |combined.value.normals| == |combined.value.vertices| && |combined.value.uvs| == |combined.value.vertices|
    {
      var vertices: seq<Vec3> := [];
      var triangles: seq<int> := [];
      var normals: seq<Vec3> := [];
      var uvs: seq<Vec2> := [];
      var vertexOffset := 0;
      ghost var stopped := false;
      for n := 0 to |filters|
        invariant Merge(vertices, normals, uvs, triangles, vertexOffset, stopped)
                  == MergeAll(filters[..n], maxVertices, placed, turned)
        invariant !stopped
      {
        assert filters[..n + 1][..n] == filters[..n];
        var meshFilter := filters[n];
        if meshFilter.mesh.None? {
          continue;
        }
        var mesh := meshFilter.mesh.value;
        if |vertices| + |mesh.vertices| > maxVertices {
          stopped := true;
          StopIsFinal(filters[..n + 1], filters[n + 1..], maxVertices, placed, turned);
          assert filters[..n + 1] + filters[n + 1..] == filters;
          break;
        }
        vertices, normals, uvs := AppendVertices(vertices, normals, uvs, meshFilter.id, mesh, placed, turned);
        ghost var earlier := triangles;
        triangles := AppendTriangles(triangles, mesh.triangles, vertexOffset);
        assert triangles == earlier + Rebased(mesh.triangles, vertexOffset);
        vertexOffset := vertexOffset + |mesh.vertices|;
      }
      if !stopped {
        assert filters[..|filters|] == filters;
      }
      MergeAligned(filters, maxVertices, placed, turned);
      if |vertices| > 0 {
        combined := Some(MeshData(vertices, normals, uvs, triangles));
      } else {
        combined := Some(EmptyMesh);
      }
    }

    /**
      UpdateCombinedMesh: nothing without a mesh manager and camera or
      without a nearby mesh; otherwise merge the nearby meshes, nearest first.
      The nearby list is returned so the result can be stated.
    */
    method UpdateCombinedMesh(available: bool, filters: seq<Option<MeshFilter>>, distance: FilterId -> real,
                              placed: (FilterId, Vec3) -> Vec3, turned: (FilterId, Vec3) -> Vec3)
      returns (nearby: seq<MeshFilter>)
      requires combined.Some?
      modifies this`combined
      ensures available ==> multiset(nearby) == multiset(WithinRadius(filters, distance, mergeRadius))
      ensures available ==> SortedByDistance(nearby, distance)
      ensures !available || |nearby| == 0 ==> combined == old(combined)
      ensures available && |nearby| > 0 ==> combined == Some(CombinedMesh(MergeAll(nearby, maxVertices, placed, turned)))
    {
      nearby := [];
      if !available {
        return;
      }
      nearby := GetNearbyMeshes(filters, distance, mergeRadius);
      if |nearby| == 0 {
        return;
      }
      CombineMeshes(nearby, placed, turned);
    }

    /** SetMergeRadius: the new radius, then a merge with it. */
    method SetMergeRadius(radius: real, available: bool, filters: seq<Option<MeshFilter>>, distance: FilterId -> real,
                          placed: (FilterId, Vec3) -> Vec3, turned: (FilterId, Vec3) -> Vec3)
      returns (nearby: seq<MeshFilter>)
      requires combined.Some?
      modifies this`combined, this`mergeRadius
      ensures mergeRadius == radius
      ensures available ==> multiset(nearby) == multiset(WithinRadius(filters, distance, radius))
      ensures available ==> SortedByDistance(nearby, distance)
      ensures !available || |nearby| == 0 ==> combined == old(combined)
      ensures available && |nearby| > 0 ==> combined == Some(CombinedMesh(MergeAll(nearby, maxVertices, placed, turned)))
    {
      mergeRadius := radius;
      nearby := UpdateCombinedMesh(available, filters, distance, placed, turned);
    }

    /** GetCombinedMeshInfo. */
    function CombinedMeshInfo(): (info: (int, int))
      reads this
      ensures info == MeshInfo(combined)
    {
      MeshInfo(combined)
    }
  }
}
