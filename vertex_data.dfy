/**
 * set_up_model: per mesh, interleave the attributes, create the staging and
 * device buffers, record and submit the upload, wait for it, attach the texture
 * of a textured mesh, and collect the meshes into a ModelPack. Any failing
 * driver call aborts the whole build.
 */
module VertexData {
  import opened Wrappers
  import opened SimpleModels
  import opened Interleave
  import opened Upload

  /** `sizeof(float)` and `sizeof(uint32_t)`. */
  const FloatSize: nat := 4
  const IndexSize: nat := 4

  /** The calls of one mesh's set-up that can fail, in the order they are made. */
  datatype Step =
    | CreateVertexBuffer | CreateVertexStaging | CreateIndexBuffer | CreateIndexStaging
    | MapVertexStaging | MapIndexStaging
    | CreateFence | CreateCommandPool | AllocCommandBuffer
    | BeginRecording | EndRecording | SubmitUpload | WaitUpload
    | AllocDescriptorSet | LoadTexture | CreateImageView
  {
    /** Position of the call within one mesh's set-up. */
    function Order(): nat
    {
      match this
      case CreateVertexBuffer => 0
      case CreateVertexStaging => 1
      case CreateIndexBuffer => 2
      case CreateIndexStaging => 3
      case MapVertexStaging => 4
      case MapIndexStaging => 5
      case CreateFence => 6
      case CreateCommandPool => 7
      case AllocCommandBuffer => 8
      case BeginRecording => 9
      case EndRecording => 10
      case SubmitUpload => 11
      case WaitUpload => 12
      case AllocDescriptorSet => 13
      case LoadTexture => 14
      case CreateImageView => 15
    }
  }

  /** Order boundaries: buffer creation and mapping, then the upload, then the texture. */
  const BuffersEnd: nat := 6
  const UploadEnd: nat := 13
  const TextureEnd: nat := 16

  /** The driver's answers: the calls that fail, by mesh ordinal and step. */
  datatype Driver = Driver(failing: set<(nat, Step)>)
  {
    predicate Fails(m: nat, s: Step)
    {
      (m, s) in failing
    }
  }

  /** The exception that ends the build: which mesh, which call. */
  datatype Error = Error(mesh: nat, step: Step)

  /** The descriptor set layout and sampler shared by all textured meshes. */
  datatype Context = Context(layout: nat, sampler: nat)

  datatype Image = Image(owner: nat, path: string)
  datatype ImageView = ImageView(image: Image)

  /** A combined image sampler in SHADER_READ_ONLY_OPTIMAL layout. */
  datatype CombinedImageSampler = CombinedImageSampler(view: ImageView, sampler: nat)

  /** A descriptor set and what its binding 0 has been written with. */
  datatype DescriptorSet = DescriptorSet(owner: nat, layout: nat, binding0: Option<CombinedImageSampler>)

  /** What create_descriptor_for_textured_mesh returns. */
  datatype Texture = Texture(descriptor: DescriptorSet, image: Image, view: ImageView)

  /**
   * A renderable mesh. The texture fields are None when absent: an empty image
   * and view, and a VK_NULL_HANDLE descriptor.
   */
  datatype Mesh = Mesh(
    vertices: Buffer,
    indices: Buffer,
    indexCount: U32,
    image: Option<Image>,
    view: Option<ImageView>,
    materialDescriptor: Option<DescriptorSet>)

  datatype ModelPack = ModelPack(meshes: seq<Mesh>)

  /** Every call whose position lies in [lo, hi) succeeds for mesh `m`. */
  predicate SucceedsIn(d: Driver, m: nat, lo: nat, hi: nat)
  {
    forall s: Step :: lo <= s.Order() < hi ==> !d.Fails(m, s)
  }

  /** `e` is the first call in [lo, hi) that fails for mesh `m`. */
  predicate FailsFirstIn(d: Driver, m: nat, lo: nat, hi: nat, e: Step)
  {
    lo <= e.Order() < hi && d.Fails(m, e) && SucceedsIn(d, m, lo, e.Order())
  }

  /** Where a mesh's set-up ends: the texture calls are made only for a textured mesh. */
  function StepsEnd(mesh: MeshInfo): nat
  {
    if mesh.textured then TextureEnd else UploadEnd
  }

  /** Every call the set-up of mesh `m` makes succeeds. */
  predicate MeshSucceeds(d: Driver, m: nat, mesh: MeshInfo)
  {
    SucceedsIn(d, m, 0, StepsEnd(mesh))
  }

  /** `e` is a call of mesh `m`'s set-up that fails after every earlier call succeeded. */
  predicate IsFirstFailure(d: Driver, m: nat, mesh: MeshInfo, e: Step)
  {
    FailsFirstIn(d, m, 0, StepsEnd(mesh), e)
  }

  lemma SucceedsInJoin(d: Driver, m: nat, lo: nat, mid: nat, hi: nat)
    requires lo <= mid <= hi
    ensures SucceedsIn(d, m, lo, hi) <==> SucceedsIn(d, m, lo, mid) && SucceedsIn(d, m, mid, hi)
  {
  }

  /** How many upload commands have taken effect when call `s` fails. */
  function CommandsBefore(s: Step): nat
  {
    if s.Order() <= BeginRecording.Order() then 0
    else if s == EndRecording then 5
    else if s == SubmitUpload then 6
    else if s == WaitUpload then 7
    else 8
  }

  /**
   * No upload command has taken effect exactly when the failing call comes no
   * later than vkBeginCommandBuffer; in particular when a buffer could not be
   * created or mapped.
   */
  lemma BufferFailureRecordsNothing(s: Step)
    ensures CommandsBefore(s) == 0 <==> s.Order() <= BeginRecording.Order()
    ensures s.Order() < BuffersEnd ==> CommandsBefore(s) == 0
  {
  }

  function VertexBytes(model: SimpleModel, mesh: MeshInfo): nat
    requires MeshInRange(model, mesh)
  {
    |Interleaved(model, mesh)| * FloatSize
  }

  function IndexBytes(mesh: MeshInfo): nat
  {
    |LocalIndices(mesh.vertexCount)| * IndexSize
  }

  /** The texture of mesh `m`: a descriptor set whose binding 0 samples a view of the loaded image. */
  function ExpectedTexture(m: nat, path: string, ctx: Context): Texture
  {
    var image := Image(m, path);
    var view := ImageView(image);
    Texture(DescriptorSet(m, ctx.layout, Some(CombinedImageSampler(view, ctx.sampler))), image, view)
  }

  /** The mesh that a successful set-up of mesh `m` produces. */
  function ExpectedMesh(model: SimpleModel, m: nat, ctx: Context): Mesh
    requires m < |model.meshes| && MeshInRange(model, model.meshes[m])
  {
    var mesh := model.meshes[m];
    var plain := Mesh(Buffer(m, VertexDevice, VertexBytes(model, mesh)),
                      Buffer(m, IndexDevice, IndexBytes(mesh)),
                      ToU32(|LocalIndices(mesh.vertexCount)|),
                      None, None, None);
    if mesh.textured then
      var t := ExpectedTexture(m, model.materials[mesh.materialIndex].diffuseTexturePath, ctx);
      plain.(image := Some(t.image), view := Some(t.view), materialDescriptor := Some(t.descriptor))
    else
      plain
  }

  /**
   * Buffer sizes follow the vector lengths: 32 bytes per vertex for the vertex
   * buffer, 4 per index for the index buffer; indexCount is the index count,
   * which equals vertexCount unless it wraps at 2^32.
   */
  lemma ExpectedMeshSizes(model: SimpleModel, m: nat, ctx: Context)
    requires m < |model.meshes| && MeshInRange(model, model.meshes[m])
    ensures var mesh := model.meshes[m];
            var r := ExpectedMesh(model, m, ctx);
            && r.vertices == Buffer(m, VertexDevice, 32 * mesh.vertexCount)
            && r.indices == Buffer(m, IndexDevice, 4 * mesh.vertexCount)
            && r.indexCount == mesh.vertexCount % U32_MOD
            && (mesh.vertexCount < U32_MOD ==> r.indexCount == mesh.vertexCount)
  {
    InterleavedLength(model, model.meshes[m]);
    LocalIndicesAt(model.meshes[m].vertexCount);
  }

  /**
   * A mesh has an image, a view and a descriptor exactly when it is textured;
   * then the descriptor's binding 0 samples that view with the shared sampler,
   * and the view is of the image loaded from the material's texture path.
   */
  lemma ExpectedMeshTexture(model: SimpleModel, m: nat, ctx: Context)
    requires m < |model.meshes| && MeshInRange(model, model.meshes[m])
    ensures var mesh := model.meshes[m];
            var r := ExpectedMesh(model, m, ctx);
            && (r.image.Some? <==> mesh.textured)
            && (r.view.Some? <==> mesh.textured)
            && (r.materialDescriptor.Some? <==> mesh.textured)
            && (mesh.textured ==>
                  && r.materialDescriptor.value.layout == ctx.layout
                  && r.materialDescriptor.value.binding0 == Some(CombinedImageSampler(r.view.value, ctx.sampler))
                  && r.view.value.image == r.image.value
                  && r.image.value.path == model.materials[mesh.materialIndex].diffuseTexturePath)
  {
  }

  /** The four buffers of one mesh's upload. */
  datatype StagedBuffers = StagedBuffers(vertexGPU: Buffer, vertexStaging: Buffer, indexGPU: Buffer, indexStaging: Buffer)

  /** The buffers created for mesh `m`, sized for its vertex and index blocks. */
  function StagedFor(m: nat, vertexBytes: nat, indexBytes: nat): StagedBuffers
  {
    StagedBuffers(Buffer(m, VertexDevice, vertexBytes), Buffer(m, VertexStaging, vertexBytes),
                  Buffer(m, IndexDevice, indexBytes), Buffer(m, IndexStaging, indexBytes))
  }

  /**
   * Lines 51-80 of set_up_model: create the device and staging buffers, map each
   * staging buffer and copy its block in.
   */
  method CreateStagedBuffers(m: nat, vertexBytes: nat, indexBytes: nat, d: Driver) returns (r: Result<StagedBuffers, Error>)
    ensures r.Ok? <==> SucceedsIn(d, m, 0, BuffersEnd)
    ensures r.Ok? ==> r.value == StagedFor(m, vertexBytes, indexBytes)
    ensures r.Err? ==> r.error.mesh == m && FailsFirstIn(d, m, 0, BuffersEnd, r.error.step)
  {
    if d.Fails(m, CreateVertexBuffer) { return Err(Error(m, CreateVertexBuffer)); }
    var vertexGPU := Buffer(m, VertexDevice, vertexBytes);
    if d.Fails(m, CreateVertexStaging) { return Err(Error(m, CreateVertexStaging)); }
    var vertexStaging := Buffer(m, VertexStaging, vertexBytes);
    if d.Fails(m, CreateIndexBuffer) { return Err(Error(m, CreateIndexBuffer)); }
    var indexGPU := Buffer(m, IndexDevice, indexBytes);
    if d.Fails(m, CreateIndexStaging) { return Err(Error(m, CreateIndexStaging)); }
    var indexStaging := Buffer(m, IndexStaging, indexBytes);
    if d.Fails(m, MapVertexStaging) { return Err(Error(m, MapVertexStaging)); }
    if d.Fails(m, MapIndexStaging) { return Err(Error(m, MapIndexStaging)); }
    r := Ok(StagedBuffers(vertexGPU, vertexStaging, indexGPU, indexStaging));
  }

  /**
   * Lines 87-151 of set_up_model: create the fence, the command pool and the
   * command buffer, record both copies with their barriers, end, submit and
   * wait. Returns the commands that took effect.
   */
  method UploadAndWait(m: nat, vertexBytes: nat, indexBytes: nat, b: StagedBuffers, d: Driver)
    returns (failure: Option<Error>, trace: seq<Command>)
    requires b == StagedFor(m, vertexBytes, indexBytes)
    ensures failure.None? <==> SucceedsIn(d, m, BuffersEnd, UploadEnd)
    ensures failure.Some? ==> failure.value.mesh == m && FailsFirstIn(d, m, BuffersEnd, UploadEnd, failure.value.step)
    ensures var full := UploadTrace(m, vertexBytes, indexBytes);
            trace == if failure.None? then full else full[..CommandsBefore(failure.value.step)]
  {
    ghost var full := UploadTrace(m, vertexBytes, indexBytes);
    trace := [];
    if d.Fails(m, CreateFence) { return Some(Error(m, CreateFence)), trace; }
    if d.Fails(m, CreateCommandPool) { return Some(Error(m, CreateCommandPool)), trace; }
    if d.Fails(m, AllocCommandBuffer) { return Some(Error(m, AllocCommandBuffer)), trace; }
    if d.Fails(m, BeginRecording) { return Some(Error(m, BeginRecording)), trace; }
    trace := trace + [Begin];
    trace := trace + [Copy(b.vertexStaging, b.vertexGPU, vertexBytes)];
    trace := trace + [TransferBarrier(b.vertexGPU, VertexAttributeRead)];
    trace := trace + [Copy(b.indexStaging, b.indexGPU, indexBytes)];
    trace := trace + [TransferBarrier(b.indexGPU, IndexRead)];
    assert trace == full[..5];
    if d.Fails(m, EndRecording) { return Some(Error(m, EndRecording)), trace; }
    trace := trace + [End];
    assert trace == full[..6];
    if d.Fails(m, SubmitUpload) { return Some(Error(m, SubmitUpload)), trace; }
    trace := trace + [Submit];
    assert trace == full[..7];
    if d.Fails(m, WaitUpload) { return Some(Error(m, WaitUpload)), trace; }
    trace := trace + [Wait];
    failure := None;
  }

  /**
   * create_descriptor_for_textured_mesh: allocate the set, load the image,
   * create its view, write binding 0.
   */
  method CreateDescriptorForTexturedMesh(m: nat, path: string, ctx: Context, d: Driver) returns (r: Result<Texture, Error>)
    ensures r.Ok? <==> SucceedsIn(d, m, UploadEnd, TextureEnd)
    ensures r.Ok? ==> r.value == ExpectedTexture(m, path, ctx)
    ensures r.Ok? ==> && r.value.descriptor.binding0 == Some(CombinedImageSampler(r.value.view, ctx.sampler))
                      && r.value.view.image == r.value.image && r.value.image.path == path
    ensures r.Err? ==> r.error.mesh == m && FailsFirstIn(d, m, UploadEnd, TextureEnd, r.error.step)
  {
    if d.Fails(m, AllocDescriptorSet) {
      return Err(Error(m, AllocDescriptorSet));
    }
    var descriptors := DescriptorSet(m, ctx.layout, None);
    if d.Fails(m, LoadTexture) {
      return Err(Error(m, LoadTexture));
    }
    var image := Image(m, path);
    if d.Fails(m, CreateImageView) {
      return Err(Error(m, CreateImageView));
    }
    var imageView := ImageView(image);
    descriptors := descriptors.(binding0 := Some(CombinedImageSampler(imageView, ctx.sampler)));
    r := Ok(Texture(descriptors, image, imageView));
  }

  /**
   * The body of set_up_model's loop for mesh `m`. Also returns the upload
   * commands that took effect: all eight on success, a prefix on failure
   * (none when a buffer could not be created or mapped, see
   * BufferFailureRecordsNothing). The eight commands form a safe upload exactly
   * when the mesh has vertices: an empty mesh gives zero-byte copies.
   */
  method SetUpMesh(model: SimpleModel, m: nat, ctx: Context, d: Driver) returns (r: Result<Mesh, Error>, trace: seq<Command>)
    requires m < |model.meshes| && MeshInRange(model, model.meshes[m])
    ensures r.Ok? <==> MeshSucceeds(d, m, model.meshes[m])
    ensures r.Ok? ==> r.value == ExpectedMesh(model, m, ctx)
    ensures r.Ok? && model.meshes[m].vertexCount > 0 ==> SafeUpload(trace)
    ensures r.Ok? && model.meshes[m].vertexCount == 0 ==> !OrderedUpload(trace)
    ensures r.Err? ==> r.error.mesh == m && IsFirstFailure(d, m, model.meshes[m], r.error.step)
    ensures var full := UploadTrace(m, VertexBytes(model, model.meshes[m]), IndexBytes(model.meshes[m]));
            trace == if r.Ok? then full else full[..CommandsBefore(r.error.step)]
  {
    var mesh := model.meshes[m];
    var vertexData, indexData := InterleaveMesh(model, mesh);
    var vertexBytes := |vertexData| * FloatSize;
    var indexBytes := |indexData| * IndexSize;
    SucceedsInJoin(d, m, 0, BuffersEnd, UploadEnd);
    SucceedsInJoin(d, m, 0, UploadEnd, TextureEnd);

    var buffers := CreateStagedBuffers(m, vertexBytes, indexBytes, d);
    if buffers.Err? {
      return Err(buffers.error), [];
    }
    var failure;
    failure, trace := UploadAndWait(m, vertexBytes, indexBytes, buffers.value, d);
    if failure.Some? {
      return Err(failure.value), trace;
    }
    InterleavedLength(model, mesh);
    LocalIndicesAt(mesh.vertexCount);
    if mesh.vertexCount > 0 {
      UploadTraceSafe(m, vertexBytes, indexBytes);
    } else {
      ZeroByteUploadUnordered(m, vertexBytes, indexBytes);
    }

    var meshData := Mesh(buffers.value.vertexGPU, buffers.value.indexGPU, ToU32(|indexData|), None, None, None);
    if mesh.textured {
      var texPath := model.materials[mesh.materialIndex].diffuseTexturePath;
      var tex := CreateDescriptorForTexturedMesh(m, texPath, ctx, d);
      if tex.Err? {
        return Err(tex.error), trace;
      }
      meshData := meshData.(materialDescriptor := Some(tex.value.descriptor), image := Some(tex.value.image), view := Some(tex.value.view));
    }
    r := Ok(meshData);
  }

  /**
   * set_up_model: one mesh per input mesh, in input order, or the error of the
   * first failing call and no ModelPack at all.
   */
  method SetUpModel(model: SimpleModel, ctx: Context, d: Driver) returns (r: Result<ModelPack, Error>)
    requires ModelInRange(model)
    ensures r.Ok? <==> forall k :: 0 <= k < |model.meshes| ==> MeshSucceeds(d, k, model.meshes[k])
    ensures r.Ok? ==> && |r.value.meshes| == |model.meshes|
                      && forall k :: 0 <= k < |model.meshes| ==> r.value.meshes[k] == ExpectedMesh(model, k, ctx)
    ensures r.Err? ==> && r.error.mesh < |model.meshes|
                       && (forall k :: 0 <= k < r.error.mesh ==> MeshSucceeds(d, k, model.meshes[k]))
                       && IsFirstFailure(d, r.error.mesh, model.meshes[r.error.mesh], r.error.step)
  {
    var meshes: seq<Mesh> := [];
    for m := 0 to |model.meshes|
      invariant |meshes| == m
      invariant forall k :: 0 <= k < m ==> MeshSucceeds(d, k, model.meshes[k])
      invariant forall k :: 0 <= k < m ==> meshes[k] == ExpectedMesh(model, k, ctx)
    {
      var meshData, _ := SetUpMesh(model, m, ctx, d);
      if meshData.Err? {
        return Err(meshData.error);
      }
      meshes := meshes + [meshData.value];
    }
    r := Ok(ModelPack(meshes));
  }
}
