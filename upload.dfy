/**
 * The transfer recorded and submitted once for each mesh: a copy from each staging buffer
 * into its device-local buffer, each followed by a buffer barrier, then end,
 * submit and a blocking fence wait.
 */
module Upload {

  /** The four buffers created per mesh (vertex_data.cpp lines 51-61). */
  datatype BufferRole =
    | VertexDevice   // VERTEX_BUFFER | TRANSFER_DST, GPU_ONLY
    | VertexStaging  // TRANSFER_SRC, CPU_TO_GPU
    | IndexDevice    // INDEX_BUFFER | TRANSFER_DST, GPU_ONLY
    | IndexStaging   // TRANSFER_SRC, CPU_TO_GPU

  /** A buffer handle: the mesh that owns it, what it is for and its size in bytes. */
  datatype Buffer = Buffer(owner: nat, role: BufferRole, sizeBytes: nat)

  datatype Access = TransferRead | TransferWrite | VertexAttributeRead | IndexRead
  datatype Stage = TransferStage | VertexInputStage

  /** What takes effect on the upload command buffer and the graphics queue. */
  datatype Command =
    | Begin
    | Copy(src: Buffer, dst: Buffer, size: nat)
    | Barrier(buffer: Buffer, srcAccess: Access, dstAccess: Access, srcStage: Stage, dstStage: Stage)
    | End
    | Submit
    | Wait

  /** The access through which rendering consumes a buffer of this role. */
  function ConsumerAccess(role: BufferRole): Access
  {
    match role
    case VertexDevice => VertexAttributeRead
    case IndexDevice => IndexRead
    case VertexStaging => TransferRead
    case IndexStaging => TransferRead
  }

  /** A barrier that makes the transfer writes to `dst` visible to the vertex-input stage. */
  function TransferBarrier(dst: Buffer, dstAccess: Access): Command
  {
    Barrier(dst, TransferWrite, dstAccess, TransferStage, VertexInputStage)
  }

  /** `b` is a barrier on the destination of copy `c`, from transfer write to vertex input. */
  predicate BarrierAfterCopy(c: Command, b: Command)
    requires c.Copy?
  {
    && b.Barrier? && b.buffer == c.dst
    && b.srcAccess == TransferWrite && b.srcStage == TransferStage && b.dstStage == VertexInputStage
  }

  /**
   * An ordered upload: recording begins, then only copies and barriers, every
   * copy moves a non-empty range that lies inside both buffers (Vulkan requires
   * a copy size greater than 0) and is immediately followed by a barrier on its
   * destination, then End, Submit and Wait, in that order.
   */
  predicate OrderedUpload(t: seq<Command>)
  {
    && |t| >= 4
    && t[0] == Begin
    && t[|t| - 3] == End && t[|t| - 2] == Submit && t[|t| - 1] == Wait
    && (forall i :: 0 < i < |t| - 3 ==> t[i].Copy? || t[i].Barrier?)
    && (forall i :: 0 <= i < |t| && t[i].Copy? ==>
          && 0 < t[i].size <= t[i].src.sizeBytes && t[i].size <= t[i].dst.sizeBytes
          && i + 1 < |t| && BarrierAfterCopy(t[i], t[i + 1]))
  }

  /**
   * A safe upload: ordered, and each barrier after a copy makes the written
   * data visible to the access through which rendering reads the destination.
   */
  predicate SafeUpload(t: seq<Command>)
  {
    && OrderedUpload(t)
    && (forall i :: 0 <= i < |t| - 1 && t[i].Copy? ==>
          t[i + 1].Barrier? && t[i + 1].dstAccess == ConsumerAccess(t[i].dst.role))
  }

  /**
   * The trace set_up_model records for mesh `m`, with the index barrier as
   * written at vertex_data.cpp lines 120-124 (destination access
   * VERTEX_ATTRIBUTE_READ).
   */
  function UploadTraceAsWritten(m: nat, vertexBytes: nat, indexBytes: nat): (t: seq<Command>)
    ensures |t| == 8
  {
    [Begin,
     Copy(Buffer(m, VertexStaging, vertexBytes), Buffer(m, VertexDevice, vertexBytes), vertexBytes),
     TransferBarrier(Buffer(m, VertexDevice, vertexBytes), VertexAttributeRead),
     Copy(Buffer(m, IndexStaging, indexBytes), Buffer(m, IndexDevice, indexBytes), indexBytes),
     TransferBarrier(Buffer(m, IndexDevice, indexBytes), VertexAttributeRead),
     End, Submit, Wait]
  }

  /** As written, the index barrier does not cover the index reads of rendering. */
  lemma UploadTraceAsWrittenUnsafe(m: nat, vertexBytes: nat, indexBytes: nat)
    ensures !SafeUpload(UploadTraceAsWritten(m, vertexBytes, indexBytes))
  {
    var t := UploadTraceAsWritten(m, vertexBytes, indexBytes);
    assert t[3].Copy? && t[4].dstAccess != ConsumerAccess(t[3].dst.role);
  }

  /**
   * As written, the recording is ordered: each copy is immediately followed by
   * a barrier on the same destination buffer, all before End, then Submit,
   * then Wait, provided neither block is empty.
   */
  lemma UploadTraceAsWrittenOrdered(m: nat, vertexBytes: nat, indexBytes: nat)
    requires vertexBytes > 0 && indexBytes > 0
    ensures OrderedUpload(UploadTraceAsWritten(m, vertexBytes, indexBytes))
  {
  }

  /**
   * The trace of mesh `m` with the index barrier's destination access set to
   * INDEX_READ, the access index fetches are made through.
   */
  function UploadTrace(m: nat, vertexBytes: nat, indexBytes: nat): (t: seq<Command>)
    ensures |t| == 8
  {
    [Begin,
     Copy(Buffer(m, VertexStaging, vertexBytes), Buffer(m, VertexDevice, vertexBytes), vertexBytes),
     TransferBarrier(Buffer(m, VertexDevice, vertexBytes), VertexAttributeRead),
     Copy(Buffer(m, IndexStaging, indexBytes), Buffer(m, IndexDevice, indexBytes), indexBytes),
     TransferBarrier(Buffer(m, IndexDevice, indexBytes), IndexRead),
     End, Submit, Wait]
  }

  /** The corrected trace is a safe upload when neither block is empty. */
  lemma UploadTraceSafe(m: nat, vertexBytes: nat, indexBytes: nat)
    requires vertexBytes > 0 && indexBytes > 0
    ensures SafeUpload(UploadTrace(m, vertexBytes, indexBytes))
  {
  }

  /** An empty block gives a zero-byte copy, so no upload trace of it is ordered. */
  lemma ZeroByteUploadUnordered(m: nat, vertexBytes: nat, indexBytes: nat)
    requires vertexBytes == 0 || indexBytes == 0
    ensures !OrderedUpload(UploadTrace(m, vertexBytes, indexBytes))
    ensures !OrderedUpload(UploadTraceAsWritten(m, vertexBytes, indexBytes))
  {
    var t := UploadTrace(m, vertexBytes, indexBytes);
    var w := UploadTraceAsWritten(m, vertexBytes, indexBytes);
    if vertexBytes == 0 {
      assert t[1].Copy? && t[1].size == 0;
      assert w[1].Copy? && w[1].size == 0;
    } else {
      assert t[3].Copy? && t[3].size == 0;
      assert w[3].Copy? && w[3].size == 0;
    }
  }

  /** The two traces differ only in the index barrier's destination access. */
  lemma UploadTraceDifference(m: nat, vertexBytes: nat, indexBytes: nat)
    ensures var fixed := UploadTrace(m, vertexBytes, indexBytes);
            var asWritten := UploadTraceAsWritten(m, vertexBytes, indexBytes);
            && |fixed| == |asWritten|
            && (forall i :: 0 <= i < |fixed| && i != 4 ==> fixed[i] == asWritten[i])
            && fixed[4] == asWritten[4].(dstAccess := IndexRead)
  {
  }
}
