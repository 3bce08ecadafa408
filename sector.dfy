/**
 * The area-sweep mesh of Kepler's second law: a bounded, append-only vertex
 * buffer whose index buffer is a triangle fan around vertex 0 (the star).
 * Vertex coordinates are opaque (type parameter V); the engine mesh calls that
 * follow every update are not modelled.
 */
module SectorMesh {

  /** Number of fan triangles over n vertices: one for every vertex after the second. */
  function TriangleCount(n: nat): nat
  {
    if n >= 2 then n - 2 else 0
  }

  /**
   * The index buffer that appending n vertices one by one produces: the k-th
   * appended vertex (k >= 2) contributes the triangle (0, k, k - 1).
   */
  function FanIndices(n: nat): (r: seq<int>)
    ensures |r| == 3 * TriangleCount(n)
    ensures forall i :: 0 <= i < |r| ==> 0 <= r[i] < n
  {
    if n <= 2 then [] else FanIndices(n - 1) + [0, n - 1, n - 2]
  }

  /** The j-th triangle of the fan is exactly (0, j + 2, j + 1). */
  lemma {:induction false} FanTriangleAt(n: nat, j: nat)
    requires j < TriangleCount(n)
    ensures 3 * j + 3 <= |FanIndices(n)|
    ensures FanIndices(n)[3 * j .. 3 * j + 3] == [0, j + 2, j + 1]
  {
    if j < TriangleCount(n - 1) {
      FanTriangleAt(n - 1, j);
      assert FanIndices(n)[3 * j .. 3 * j + 3] == FanIndices(n - 1)[3 * j .. 3 * j + 3];
    } else {
      assert j == n - 3;
      assert FanIndices(n)[3 * j .. 3 * j + 3] == [0, n - 1, n - 2];
    }
  }

  /** Triangles already emitted never change: a shorter fan is a prefix of a longer one. */
  lemma {:induction false} FanIndicesPrefix(m: nat, n: nat)
    requires m <= n
    ensures FanIndices(m) <= FanIndices(n)
  {
    if m < n {
      FanIndicesPrefix(m, n - 1);
      if n > 2 {
        assert FanIndices(n - 1) <= FanIndices(n);
      }
    }
  }

  /**
   * Sector.cs. The buffers are the lists the source appends to in place; the
   * capacity is the inspector value read when the component wakes up.
   */
  class Sector<V> {
    const maxNumVertices: nat
    var vertexBuffer: seq<V>
    var triangleBuffer: seq<int>
    var currentVertexIndex: int

    /** The counter mirrors the vertex count, which stays under the cap, and the index buffer is the fan. */
    ghost predicate Valid()
      reads this
    {
      && currentVertexIndex == |vertexBuffer|
      && |vertexBuffer| <= maxNumVertices
      && triangleBuffer == FanIndices(|vertexBuffer|)
    }

    /** Awake: both buffers empty, counter 0. */
    constructor (maxNumVertices: nat)
      ensures Valid()
      ensures this.maxNumVertices == maxNumVertices
      ensures vertexBuffer == [] && triangleBuffer == [] && currentVertexIndex == 0
    {
      this.maxNumVertices := maxNumVertices;
      vertexBuffer := [];
      triangleBuffer := [];
      currentVertexIndex := 0;
    }

    /** The PositionCount property: the counter, which is the number of stored vertices and at most the cap. */
    function PositionCount(): (n: int)
      reads this
      requires Valid()
      ensures n == |vertexBuffer| && 0 <= n <= maxNumVertices
    {
      currentVertexIndex
    }

    /** The most recently appended vertex, at the last counted position. */
    function GetLastPosition(): (v: V)
      reads this
      requires Valid()
      requires |vertexBuffer| > 0
      ensures v == vertexBuffer[PositionCount() - 1]
    {
      vertexBuffer[|vertexBuffer| - 1]
    }

    /**
     * Appends a vertex unless the buffer is full; every vertex after the second
     * adds the fan triangle (0, k, k - 1). On a full buffer nothing changes.
     */
    method AddVertex(vertex: V)
      requires Valid()
      modifies this
      ensures Valid()
      ensures old(currentVertexIndex) >= maxNumVertices ==>
        vertexBuffer == old(vertexBuffer) && triangleBuffer == old(triangleBuffer)
        && currentVertexIndex == old(currentVertexIndex)
      ensures old(currentVertexIndex) < maxNumVertices ==>
        && vertexBuffer == old(vertexBuffer) + [vertex]
        && currentVertexIndex == old(currentVertexIndex) + 1
        && triangleBuffer == old(triangleBuffer) +
             (if old(currentVertexIndex) >= 2
              then [0, old(currentVertexIndex), old(currentVertexIndex) - 1] else [])
        && GetLastPosition() == vertex
    {
      if currentVertexIndex >= maxNumVertices {
        return;
      }
      vertexBuffer := vertexBuffer + [vertex];
      if currentVertexIndex >= 2 {
        triangleBuffer := triangleBuffer + [0, currentVertexIndex, currentVertexIndex - 1];
      }
      currentVertexIndex := currentVertexIndex + 1;
    }

    /** Closes the fan by appending a copy of vertex 1 (the first point on the orbit). */
    method CloseSector()
      requires Valid()
      requires |vertexBuffer| >= 2
      modifies this
      ensures Valid()
      ensures old(currentVertexIndex) >= maxNumVertices ==>
        vertexBuffer == old(vertexBuffer) && triangleBuffer == old(triangleBuffer)
        && currentVertexIndex == old(currentVertexIndex)
      ensures old(currentVertexIndex) < maxNumVertices ==>
        && vertexBuffer == old(vertexBuffer) + [old(vertexBuffer)[1]]
        && GetLastPosition() == vertexBuffer[1]
        && triangleBuffer == old(triangleBuffer) +
             [0, old(currentVertexIndex), old(currentVertexIndex) - 1]
    {
      AddVertex(vertexBuffer[1]);
    }

    /** Empties both buffers and resets the counter, so that AddVertex accepts vertices again. */
    method Clear()
      requires Valid()
      modifies this
      ensures Valid()
      ensures vertexBuffer == [] && triangleBuffer == [] && currentVertexIndex == 0
      ensures maxNumVertices > 0 ==> PositionCount() < maxNumVertices
    {
      vertexBuffer := [];
      triangleBuffer := [];
      currentVertexIndex := 0;
    }
  }
}
