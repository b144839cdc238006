/**
 * An instanced mesh as the scene uses it: a fixed-length batch of instance
 * matrices, written one index at a time by `setMatrixAt`, and a visibility
 * flag. The batch length is fixed when the mesh is created.
 */
module Instancing {
  import opened Geometry

  class InstancedMesh {
    const matrices: array<Transform>
    var visible: bool

    /** `new InstancedMesh(geometry, material, count)`: identity matrices, visible. */
    constructor (count: nat)
      ensures fresh(matrices) && matrices.Length == count
      ensures forall i :: 0 <= i < count ==> matrices[i] == Identity
      ensures visible
    {
      matrices := new Transform[count](_ => Identity);
      visible := true;
    }
  }
}
