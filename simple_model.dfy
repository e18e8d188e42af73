/**
 * The CPU-side model handed to the upload path: materials, mesh descriptors
 * and the two attribute pools (textured and untextured geometry).
 */
module SimpleModels {

  /** A single-precision float kept as its bit pattern: the core only copies floats. */
  datatype Float = Float(bits: bv32)

  /** The literal `0.0f`. */
  const Zero: Float := Float(0)

  datatype Vec2 = Vec2(x: Float, y: Float)
  datatype Vec3 = Vec3(x: Float, y: Float, z: Float)

  datatype Material = Material(diffuseColor: Vec3, diffuseTexturePath: string)

  /** One mesh: which pool it reads, its material and its vertex range. */
  datatype MeshInfo = MeshInfo(textured: bool, materialIndex: nat, vertexStartIndex: nat, vertexCount: nat)

  /** A pool of per-vertex attributes. */
  datatype Attributes = Attributes(positions: seq<Vec3>, texcoords: seq<Vec2>)

  datatype SimpleModel = SimpleModel(
    materials: seq<Material>,
    meshes: seq<MeshInfo>,
    dataTextured: Attributes,
    dataUntextured: Attributes)

  /** Textured meshes read the textured pool, the others the untextured one. */
  function PositionPool(model: SimpleModel, mesh: MeshInfo): seq<Vec3>
  {
    if mesh.textured then model.dataTextured.positions else model.dataUntextured.positions
  }

  /**
   * What the interleaving loop relies on without checking: the material exists
   * and the vertex range lies inside the pools it reads.
   */
  predicate MeshInRange(model: SimpleModel, mesh: MeshInfo)
  {
    && mesh.materialIndex < |model.materials|
    && mesh.vertexStartIndex + mesh.vertexCount <= |PositionPool(model, mesh)|
    && (mesh.textured ==> mesh.vertexStartIndex + mesh.vertexCount <= |model.dataTextured.texcoords|)
  }

  /** Every mesh of the model satisfies MeshInRange. */
  predicate ModelInRange(model: SimpleModel)
  {
    forall m :: 0 <= m < |model.meshes| ==> MeshInRange(model, model.meshes[m])
  }
}
