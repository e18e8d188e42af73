# CPU-side mesh assembly of `set_up_model`

This project models `set_up_model` in `cw1/vertex_data.cpp`, which turns a
`SimpleModel` into a `ModelPack`. For each input mesh it:

1. interleaves the mesh's vertex range into a float block with eight floats per
   vertex (position, material diffuse colour, texcoord or `(0,0)`), and builds a
   dense index block `0, 1, …`;
2. creates a device-local buffer and a staging buffer for each block, then maps
   each staging buffer and fills it;
3. records an upload that is submitted once (begin, copy + barrier for the vertex buffer,
   copy + barrier for the index buffer, end), submits it and waits on a fence;
4. for a textured mesh, allocates a descriptor set, loads the texture, creates
   its view and writes binding 0;
5. appends the resulting `Mesh` to the `ModelPack`.

Any failing call throws, and the whole build stops without a `ModelPack`.
The model reports such a failure as an error value naming the mesh and the call.

Modules:

- `Wrappers` (`wrappers.dfy`): `Option` and `Result`.
- `SimpleModels` (`simple_model.dfy`): the input model. Floats are kept as
  opaque 32-bit patterns, because they are only copied.
- `Interleave` (`interleave.dfy`): the interleaving loop as a method.
  `InterleaveMesh` is proved equal to the specification functions `Interleaved`
  and `LocalIndices`. Lemmas about those functions state the layout.
- `Upload` (`upload.dfy`): the upload as a trace of commands, both as written
  and with the index barrier corrected. `OrderedUpload` is the order a correct
  upload follows, with non-empty in-bounds copies. `SafeUpload` adds that each
  barrier covers the access rendering reads the buffer through.
- `VertexData` (`vertex_data.dfy`): the phases of `set_up_model` as methods,
  the texture step, the per-mesh body and the loop over meshes.

Driver and GPU calls are not modelled. Each call that can fail is a `Step`. A
`Driver` value is a parameter that says which `(mesh ordinal, Step)` pairs fail.
A `Buffer` is named by the mesh that owns it, its role and its size in bytes.
`std::uint32_t` values (the running index, `indexCount`) wrap at 2^32, and the
model writes that wrap out.

## Model

| member | source | states |
|---|---|---|
| `Interleave.InterleaveMesh` | cw1/vertex_data.cpp:21-47 | the loop's vertex block is `Interleaved(model, mesh)` and its index block is `LocalIndices(vertexCount)` |
| `Interleave.Encode` | cw1/vertex_data.cpp:29-44 | a vertex occupies exactly `VertexStride` = 8 floats |
| `Interleave.Decode` | cw1/vertex_data.hpp:17 | reading an 8-float block as position, colour, texcoord and encoding it again gives the same block |
| `Interleave.DecodeEncode` | cw1/vertex_data.hpp:17 | decoding an encoded vertex gives the vertex back |
| `Interleave.InterleavedPrefixLength` | cw1/vertex_data.cpp:27-44 | after n vertices the block holds 8·n floats |
| `Interleave.InterleavedPrefixBlock` | cw1/vertex_data.cpp:27-44 | later vertices do not disturb earlier blocks: block k of every longer prefix encodes vertex vertexStartIndex+k |
| `Interleave.InterleavedLength` | cw1/vertex_data.cpp:27-44 | the vertex block has exactly 8·vertexCount floats |
| `Interleave.InterleavedLayout` | cw1/vertex_data.cpp:24-44 | for local vertex k: floats 8k..8k+2 are the position at absolute index vertexStartIndex+k of the textured or untextured pool, as `textured` selects; 8k+3..8k+5 are the material's diffuse colour; 8k+6, 8k+7 are the texcoord at that same absolute index, or both zero for an untextured mesh |
| `Interleave.DecodeInterleaved` | cw1/vertex_data.cpp:27-44 | reading local vertex k back out of the block gives the source vertex's attributes |
| `Interleave.ColorConstant` | cw1/vertex_data.cpp:26-34 | any two vertices of a mesh carry the same colour triplet |
| `Interleave.LocalIndicesAt` | cw1/vertex_data.cpp:23-46 | the index block has vertexCount entries and entry k is k mod 2^32 |
| `Interleave.LocalIndicesDense` | cw1/vertex_data.cpp:45-46 | when vertexCount ≤ 2^32 the index block is exactly 0, 1, …, vertexCount-1, with no gaps and no index used twice |
| `Interleave.TriangleScenario` | cw1/vertex_data.cpp:27-46 | an untextured red triangle interleaves to the expected 24 floats and indices 0, 1, 2 |
| `Upload.UploadTraceAsWritten` | cw1/vertex_data.cpp:99-151 | the upload as written takes effect as eight commands |
| `Upload.UploadTraceAsWrittenOrdered` | cw1/vertex_data.cpp:99-151 | when both blocks are non-empty, the upload as written is ordered: Begin first; then only copies and barriers; each copy non-empty, in bounds and immediately followed by a barrier on its destination from transfer write at the transfer stage to vertex input; then End, Submit, Wait |
| `Upload.UploadTrace` | cw1/vertex_data.cpp:99-151 | the corrected upload, with INDEX_READ as the index barrier's destination access, takes effect as eight commands |
| `Upload.UploadTraceSafe` | cw1/vertex_data.cpp:99-151 | when both blocks are non-empty, the corrected upload is safe: ordered as above, and each barrier turns the transfer write into the read through which rendering consumes its buffer (vertex-attribute read, index read) |
| `Upload.ZeroByteUploadUnordered` | cw1/vertex_data.cpp:105-116 | an empty vertex or index block makes a zero-byte copy, so neither the written nor the corrected trace is ordered |
| `Upload.UploadTraceAsWrittenUnsafe` | cw1/vertex_data.cpp:120-124 | as written, the index buffer's barrier is not safe, because its destination access is vertex-attribute read and not index read |
| `Upload.UploadTraceDifference` | cw1/vertex_data.cpp:109-124 | the corrected trace differs from the written one only in the index barrier's destination access |
| `VertexData.ExpectedMeshSizes` | cw1/vertex_data.cpp:51-61 | the vertex buffer has 32·vertexCount bytes and the index buffer 4·vertexCount bytes; `indexCount` (line 156) is vertexCount mod 2^32, so it equals vertexCount below 2^32 |
| `VertexData.ExpectedMeshTexture` | cw1/vertex_data.cpp:157-162 | image, view and descriptor are present iff the mesh is textured; otherwise the descriptor stays null. When textured, binding 0 of the descriptor samples that view with the shared sampler, and the view is of the image loaded from the material's texture path |
| `VertexData.CreateStagedBuffers` | cw1/vertex_data.cpp:51-80 | succeeds iff the four buffer creations and two mappings succeed; then returns the four buffers sized for the blocks; otherwise returns the first failing call |
| `VertexData.UploadAndWait` | cw1/vertex_data.cpp:87-151 | succeeds iff fence, pool, command buffer, begin, end, submit and wait all succeed; otherwise reports the first failure. The commands that took effect are the full trace, or the prefix recorded before the failing call |
| `VertexData.CreateDescriptorForTexturedMesh` | cw1/vertex_data.cpp:170-197 | succeeds iff allocation, image load and view creation succeed; then binding 0 samples the view of the image loaded from the given path; otherwise reports the first failing call |
| `VertexData.BufferFailureRecordsNothing` | cw1/vertex_data.cpp:51-99 | no upload command has taken effect iff the failing call comes no later than `vkBeginCommandBuffer`, so none when a buffer could not be created or mapped |
| `VertexData.SetUpMesh` | cw1/vertex_data.cpp:19-164 | a mesh is produced iff every call its set-up makes succeeds, and it is then the expected mesh. Its upload trace is the corrected trace, which is safe exactly when the mesh has vertices. Otherwise the error names the first failing call, and the trace is the prefix recorded before that call |
| `VertexData.SetUpModel` | cw1/vertex_data.cpp:14-168 | a ModelPack is returned iff every mesh's set-up succeeds; it then holds one mesh per input mesh, in input order, each the expected mesh. Otherwise only the error is returned: it names the first failing mesh, all earlier meshes succeeded, and it names that mesh's first failing call |

## Left out

- The Vulkan and VMA calls are not modelled. This covers buffer and fence creation, the command pool, `vmaMapMemory`/`memcpy`/`vmaUnmapMemory`, `vkCmdCopyBuffer`, `buffer_barrier`, `vkQueueSubmit` and `vkWaitForFences`. Each is reduced to success or failure decided by the `Driver` parameter, plus the command it adds to the trace.
- Buffer contents are not modelled: the staging-to-device round trip and the bytes copied by `memcpy` cannot be observed without a device.
- Image loading, view creation and the descriptor write are reduced to their failure points and to the handles they link together. The descriptor set that stays allocated when a later texture call fails is not tracked.
- Resource lifetimes are not modelled. This covers the labutils RAII destructors, release of the staging buffers, pool and fence on every exit path, and the meshes already built when a later mesh fails.
- The GPU/host concurrency behind the fence wait is not modelled, nor is the wait's timeout. The wait is one step that succeeds or fails.
- Floating point is not modelled: floats are opaque bit patterns, only copied.
- `std::size_t` arithmetic (`vertexStartIndex + vertexCount`, the byte sizes) is unbounded. A 64-bit wrap needs blocks larger than addressable memory.
- Error messages and `VkResult` codes: an error is reduced to the mesh ordinal and the failing `Step`.
- `VertexData.UploadAndWait`: the clean `SubmitUpload` error is the intended behaviour. As written, line 139 passes the `std::string` from `lut::to_string(res)` to a `%s` format without `.c_str()`, so building that message is undefined behaviour.
- `cw1/simple_model.hpp` is not part of this model. The field names of the input model are taken from their uses in `cw1/vertex_data.cpp`.
- Building the same model twice gives the same content, because every member is a deterministic function of its inputs. The model does not give distinct resource handles to two builds.
- `Upload.UploadTrace`, `VertexData.SetUpMesh`, `VertexData.UploadAndWait`: these use the corrected index barrier (see Findings), not the one written at lines 120-124.
- `VertexData.SetUpMesh`: for an empty mesh (vertexCount 0) the model lets the zero-byte buffer creations (lines 51-61) and zero-byte copies (lines 105, 116) succeed when the `Driver` says so. Vulkan requires buffer and copy sizes greater than 0, and VMA rejects a zero-size buffer, so the source most likely throws at line 51. The model promises a safe trace only when vertexCount > 0, and `Upload.ZeroByteUploadUnordered` shows why.

## Findings

| source | as written | input that shows it | evidently intended | confidence | as-written member | corrected member |
|---|---|---|---|---|---|---|
| cw1/vertex_data.cpp:120-124 | the barrier after the index-buffer copy has destination access `VK_ACCESS_VERTEX_ATTRIBUTE_READ_BIT`, and index fetches are not in that access scope | any mesh: entry 4 of the upload trace does not guard the copy at entry 3 | destination access `VK_ACCESS_INDEX_READ_BIT` for the index buffer | not executed; the barrier's type and accesses are as written | `Upload.UploadTraceAsWrittenUnsafe` | `Upload.UploadTraceSafe` |
