/**
 * The single-triangle mesh used to illustrate the swept area: three vertex
 * slots that can be overwritten one at a time, and a constant index order.
 * The engine mesh calls that follow every update are not modelled.
 */
module TriangleMesh {

  /** The index order of the triangle, set once when the component wakes up. */
  const TriangleOrder: seq<int> := [0, 2, 1]

  /**
   * The vertex buffer after SetVertex(index, p): slot index takes p when the
   * index passes the range guard 0 <= index <= 2 and the buffer holds that slot;
   * every other slot keeps its value.
   */
  function Overwrite<V>(buf: seq<V>, index: int, p: V): (r: seq<V>)
    ensures |r| == |buf|
    ensures forall j :: 0 <= j < |buf| ==> r[j] == (if j == index && j <= 2 then p else buf[j])
  {
    if index < 0 || index > 2 then buf
    else if |buf| > index then buf[index := p]
    else buf
  }

  /** Setting the same slot to the same point twice is the same as setting it once. */
  lemma OverwriteIdempotent<V>(buf: seq<V>, index: int, p: V)
    ensures Overwrite(Overwrite(buf, index, p), index, p) == Overwrite(buf, index, p)
  {
  }

  /** Two writes to different slots commute: each write touches only its own slot. */
  lemma OverwriteCommutes<V>(buf: seq<V>, i: int, p: V, j: int, q: V)
    requires i != j
    ensures Overwrite(Overwrite(buf, i, p), j, q) == Overwrite(Overwrite(buf, j, q), i, p)
  {
    var left := Overwrite(Overwrite(buf, i, p), j, q);
    var right := Overwrite(Overwrite(buf, j, q), i, p);
    assert |left| == |right|;
    forall k | 0 <= k < |left| ensures left[k] == right[k] {
    }
  }

  /** Triangle.cs: a length-3 vertex array and the constant index buffer. */
  class Triangle<V> {
    var vertexBuffer: array<V>
    var triangleBuffer: seq<int>

    ghost predicate Valid()
      reads this
    {
      vertexBuffer.Length == 3 && triangleBuffer == TriangleOrder
    }

    /** Awake: three copies of the zero vector and the index order [0, 2, 1]. */
    constructor (zero: V)
      ensures Valid() && fresh(vertexBuffer)
      ensures vertexBuffer[..] == [zero, zero, zero]
      ensures triangleBuffer == [0, 2, 1]
    {
      vertexBuffer := new V[3](_ => zero);
      triangleBuffer := TriangleOrder;
    }

    /** Overwrites one slot behind the range guard; the index buffer and the other slots stay. */
    method SetVertex(index: int, position: V)
      requires Valid()
      modifies vertexBuffer
      ensures Valid()
      ensures vertexBuffer[..] == Overwrite(old(vertexBuffer[..]), index, position)
      ensures 0 <= index <= 2 ==> vertexBuffer[index] == position
      ensures forall j :: 0 <= j < 3 && j != index ==> vertexBuffer[j] == old(vertexBuffer[j])
    {
      if index < 0 || index > 2 {
        return;
      }
      if vertexBuffer.Length > index {
        vertexBuffer[index] := position;
      }
    }

    /** Clears only the engine mesh: neither buffer changes. */
    method Clear()
      requires Valid()
      ensures Valid()
      ensures vertexBuffer[..] == old(vertexBuffer[..]) && triangleBuffer == old(triangleBuffer)
    {
    }
  }
}
