/**
 * The instanced mesh that draws every phalanx: a fixed number of matrix slots,
 * allocated once, and the version counter of its instance buffer.
 */
module Instancing {
  import opened Joints

  class InstancedMesh {
    /** The number of instance slots, fixed at allocation. */
    const count: nat
    /** The instance matrices; a new buffer is all zeros. */
    const instanceMatrix: array<Matrix>
    /** Bumped by every `instanceMatrix.needsUpdate = true`; tells the renderer to re-upload. */
    var version: nat

    ghost predicate Valid() {
      instanceMatrix.Length == count
    }

    constructor (count: nat)
      ensures Valid() && this.count == count && fresh(instanceMatrix)
      ensures forall k :: 0 <= k < count ==> instanceMatrix[k] == Zero
      ensures version == 0
    {
      this.count := count;
      instanceMatrix := new Matrix[count](_ => Zero);
      version := 0;
    }

    /** setMatrixAt(index, m): writes slot index; a write past the last slot is dropped. */
    method SetMatrixAt(index: nat, m: Matrix)
      requires Valid()
      modifies instanceMatrix
      ensures forall k :: 0 <= k < count ==>
                instanceMatrix[k] == if k == index then m else old(instanceMatrix[k])
    {
      if index < instanceMatrix.Length {
        instanceMatrix[index] := m;
      }
    }

    /** instanceMatrix.needsUpdate = true */
    method MarkNeedsUpdate()
      modifies this
      ensures version == old(version) + 1
    {
      version := version + 1;
    }
  }
}
