# Accelerated buffer building, modelled in Dafny

This project models two pieces of the accelerated rendering core:

- **Index generation** (`IntIndexUtils`). For a primitive mode, a start index and a vertex count, it reserves room in a client index buffer and fills that room with 32-bit vertex indices:
  - quads become two triangles, `b, b+1, b+2, b+2, b+3, b`;
  - lines become six-index groups with a vertex stride of 3, `b, b+1, b+2, b+2, b+3, b+1`;
  - every other mode gets sequential indices.
- **The vertex consumer** (`AcceleratedBufferBuilder`). It writes what follows into a `BufferSet`:
  - vertex records: position, UV0 and normal;
  - varying records: five 32-bit words each, namely selection id, sharing id, color, light and overlay;
  - sharing records: the pose's 4x4 transform, its 3x4 normal matrix, the sharing flags and a mesh word.

  It also asks the element writer for indices each time a primitive is complete, keeps a one-entry cache of the last pose, and takes in whole meshes, either copied from the client or already resident on the server.

Files:

- `java_types.dfy`: the Java `int` range, two's complement bits, truncating division, and `null` as `Option`.
- `vertex_formats.dfy`: the primitive modes and their `primitiveLength`.
- `client_buffers.dfy`: the client index buffer. It has a bump reservation pointer, raw word stores into a word-addressed map, and `Overlay`, a function giving the memory after a run of consecutive stores.
- `int_index_utils.dfy`: the index sequences as functions. `putQuadIndices`, `putLineIndices` and `putSequentialIndices` are methods with loops, and `putIndices` is a method that dispatches to them on the mode. Each is proved to leave exactly `Overlay(old memory, reservation, sequence)`.
- `colors.dfy`: byte and short packing into a little-endian word, and the ARGB-to-ABGR conversion.
- `buffers.dfy`: the record types and the `BufferSet` and `ElementBuffer` the builder writes into, as abstract bump allocators with event logs.
- `buffer_builders.dfy`: the builder class. Its invariant `Valid()` is split into `Layout()`, `Counted()` and `Shared()`. It also holds the specification functions for element counting, mesh varying stores and the pose cache.

## Model

| member | source | states |
|---|---|---|
| IntIndexUtils.GroupVertices | src/main/java/com/github/argon4w/acceleratedrendering/core/utils/IntIndexUtils.java:28-33 | A quad group uses exactly the quad's four vertices `b..b+3`. So does a line group. The line group's fifth index is the first vertex of the next group (stride 3). |
| IntIndexUtils.QuadIndicesGroup | src/main/java/com/github/argon4w/acceleratedrendering/core/utils/IntIndexUtils.java:24-34 | The quad sequence has `6 * quadCount` words. Words `6i..6i+5` are the two triangles of the quad based at `startIndex + 4i`. |
| IntIndexUtils.QuadIndicesRange | src/main/java/com/github/argon4w/acceleratedrendering/core/utils/IntIndexUtils.java:24-34 | Every quad index lies in `[startIndex, startIndex + 4 * quadCount)`. |
| IntIndexUtils.LineIndicesGroup | src/main/java/com/github/argon4w/acceleratedrendering/core/utils/IntIndexUtils.java:44-54 | Words `6i..6i+5` of the line sequence are the group `b, b+1, b+2, b+2, b+3, b+1` with `b = startIndex + 3i`. |
| IntIndexUtils.SequentialIndicesAt | src/main/java/com/github/argon4w/acceleratedrendering/core/utils/IntIndexUtils.java:64-66 | The sequential sequence has `count` words, and word `i` is `startIndex + i`. |
| IntIndexUtils.QuadIndicesStep | src/main/java/com/github/argon4w/acceleratedrendering/core/utils/IntIndexUtils.java:25-33 | One loop iteration's six stores turn the memory holding quads `0..i-1` into the memory holding quads `0..i`. |
| IntIndexUtils.LineIndicesStep | src/main/java/com/github/argon4w/acceleratedrendering/core/utils/IntIndexUtils.java:45-53 | One loop iteration's six stores turn the memory holding groups `0..i-1` into the memory holding groups `0..i`. |
| IntIndexUtils.SequentialIndicesStep | src/main/java/com/github/argon4w/acceleratedrendering/core/utils/IntIndexUtils.java:65 | One store turns the memory holding indices `0..i-1` into the memory holding indices `0..i`. |
| IntIndexUtils.PutQuadGroup | src/main/java/com/github/argon4w/acceleratedrendering/core/utils/IntIndexUtils.java:28-33 | The six stores of one quad leave `QuadStores` of the old memory and change nothing else. |
| IntIndexUtils.PutLineGroup | src/main/java/com/github/argon4w/acceleratedrendering/core/utils/IntIndexUtils.java:48-53 | The six stores of one line group leave `LineStores` of the old memory and change nothing else. |
| IntIndexUtils.PutQuadIndices | src/main/java/com/github/argon4w/acceleratedrendering/core/utils/IntIndexUtils.java:17-35 | A count of 0 reserves and writes nothing. Otherwise it makes one reservation of `6 * quadCount` words and writes the quad sequence from its start. |
| IntIndexUtils.PutLineIndices | src/main/java/com/github/argon4w/acceleratedrendering/core/utils/IntIndexUtils.java:37-55 | A count of 0 reserves and writes nothing. Otherwise it reserves `6 * lineCount` words and writes `lineCount + 1` line groups from the reservation's start. |
| IntIndexUtils.PutSequentialIndices | src/main/java/com/github/argon4w/acceleratedrendering/core/utils/IntIndexUtils.java:57-67 | A count of 0 reserves and writes nothing. Otherwise it makes one reservation of `vertexCount` words holding `startIndex, startIndex+1, ...`. |
| IntIndexUtils.PutIndices | src/main/java/com/github/argon4w/acceleratedrendering/core/utils/IntIndexUtils.java:9-15 | Dispatch on the mode. Quads get `vertexCount / 4` quad groups and lines get `vertexCount / 2` line groups, a partial primitive being dropped. Every other mode gets `vertexCount` sequential indices. The result depends only on mode, start index and count, and there is at most one reservation. |
| IntIndexUtils.WrittenIndicesLength | src/main/java/com/github/argon4w/acceleratedrendering/core/utils/IntIndexUtils.java:22-62 | The words written equal the words reserved for every mode. The exception is lines with a non-zero count, which write 6 words more. |
| IntIndexUtils.LineOverrun | src/main/java/com/github/argon4w/acceleratedrendering/core/utils/IntIndexUtils.java:42-44 | After `putLineIndices`, the reserved words hold exactly `lineCount` groups. The 6 words just past the reservation hold group `lineCount`. |
| IntIndexUtils.IndexCountsPinned | src/main/java/com/github/argon4w/acceleratedrendering/core/utils/IntIndexUtils.java:9-67 | The small cases pinned down. Four quad vertices give `b, b+1, b+2, b+2, b+3, b`. A count of 0 writes nothing in every mode. One line writes 12 words into 6 reserved; two lines write 18 words into 12 reserved. |
| Colors.PackBytesStoresEachByte | src/main/java/com/github/argon4w/acceleratedrendering/core/buffers/builders/AcceleratedBufferBuilder.java:143-146 | In the color word `setColor` leaves, byte `k` is the `k`-th channel stored: red, green, blue, alpha. |
| Colors.PackShortsStoresEachShort | src/main/java/com/github/argon4w/acceleratedrendering/core/buffers/builders/AcceleratedBufferBuilder.java:177-178 | In the word `setUv1`/`setUv2` leaves, the low half is `u` and the high half is `v`. |
| Colors.ColorEncodingsAgree | src/main/java/com/github/argon4w/acceleratedrendering/core/buffers/builders/AcceleratedBufferBuilder.java:291 | Converting a packed ARGB color gives the word with red, green, blue, alpha at increasing addresses, the layout `setColor` writes. |
| Colors.ColorWordsAgree | src/main/java/com/github/argon4w/acceleratedrendering/core/buffers/builders/AcceleratedBufferBuilder.java:143-146 | For the same channels, the full `addVertex` and `setColor` leave the same Java `int` in the color word. |
| Buffers.WordAddressInjective | src/main/java/com/github/argon4w/acceleratedrendering/core/buffers/builders/AcceleratedBufferBuilder.java:122-123 | Distinct (record, word) pairs of the five-word varying layout are distinct addresses, in both directions. |
| Buffers.ElementTotalAppend | src/main/java/com/github/argon4w/acceleratedrendering/core/buffers/builders/AcceleratedBufferBuilder.java:76-83 | One more element call adds exactly its own size to the vertices covered. |
| BufferBuilders.AfterVerticesClosedForm | src/main/java/com/github/argon4w/acceleratedrendering/core/buffers/builders/AcceleratedBufferBuilder.java:106-112 | After `n` vertices from an `elementCount` of `e < p`, with `q` emissions and `r` pending, `e + n == p * q + r` and `0 <= r < p`. |
| BufferBuilders.AfterVerticesFromZero | src/main/java/com/github/argon4w/acceleratedrendering/core/buffers/builders/AcceleratedBufferBuilder.java:106-112 | From a fresh builder, `n` vertices leave `elementCount == n % p` after exactly `n / p` emissions. |
| BufferBuilders.SelectionIdsAt | src/main/java/com/github/argon4w/acceleratedrendering/core/buffers/builders/AcceleratedBufferBuilder.java:359-361 | After the mesh loop, varying record `first + i`, for `i < size`, holds selection id `i`. |
| BufferBuilders.SelectionIdsElsewhere | src/main/java/com/github/argon4w/acceleratedrendering/core/buffers/builders/AcceleratedBufferBuilder.java:359-361 | The mesh loop leaves every other word as it was. |
| BufferBuilders.MeshFirstRecord | src/main/java/com/github/argon4w/acceleratedrendering/core/buffers/builders/AcceleratedBufferBuilder.java:354-361 | In a mesh of `size > 0`, the first varying record holds selection id 0, the sharing id, the converted color, the light and the overlay. |
| BufferBuilders.MeshLaterRecord | src/main/java/com/github/argon4w/acceleratedrendering/core/buffers/builders/AcceleratedBufferBuilder.java:354-361 | In a mesh, every later record `first + i` gets only selection id `i`. Its other four words keep what they held. |
| BufferBuilders.EmptyMeshWritesNextRecord | src/main/java/com/github/argon4w/acceleratedrendering/core/buffers/builders/AcceleratedBufferBuilder.java:345-357 | A mesh of size 0 reserves no varying record. It still writes sharing id, color, light and overlay into the record the next reservation will hand out. |
| BufferBuilders.NoCacheHitAfterEnd | src/main/java/com/github/argon4w/acceleratedrendering/core/buffers/builders/AcceleratedBufferBuilder.java:298-303 | With nothing cached, as `endTransform` leaves it, no pose is a cache hit. So the next `beginTransform` takes a fresh record. |
| BufferBuilders.AcceleratedBufferBuilder.constructor | src/main/java/com/github/argon4w/acceleratedrendering/core/buffers/builders/AcceleratedBufferBuilder.java:46-74 | The offsets come from the buffer set's layout and `polygonSize` from the mode. The counters start at 0. The cursors, sharing state and cache start empty. The invariant holds. |
| BufferBuilders.AcceleratedBufferBuilder.PutElements | src/main/java/com/github/argon4w/acceleratedrendering/core/buffers/builders/AcceleratedBufferBuilder.java:76-83 | Leases `size` element slots and logs one element call with the builder's mode, the leased slot and `size`. |
| BufferBuilders.AcceleratedBufferBuilder.CountVertex | src/main/java/com/github/argon4w/acceleratedrendering/core/buffers/builders/AcceleratedBufferBuilder.java:106-112 | `vertexCount` grows by 1 and `elementCount` goes to `NextElementCount`. Exactly one element call of `polygonSize` is logged when the primitive completes, none otherwise. `0 <= elementCount < polygonSize` is kept. |
| BufferBuilders.AcceleratedBufferBuilder.AddVertex | src/main/java/com/github/argon4w/acceleratedrendering/core/buffers/builders/AcceleratedBufferBuilder.java:100-126 | Counting as `CountVertex`. Then a fresh vertex record holding the position, which becomes the setters' target and is logged as an extra vertex. Then a fresh varying record with selection id 0 and the current sharing id. The invariant is kept. |
| BufferBuilders.AcceleratedBufferBuilder.AddPoseVertex | src/main/java/com/github/argon4w/acceleratedrendering/core/buffers/builders/AcceleratedBufferBuilder.java:85-98 | `beginTransform` then `addVertex`, composed. The vertex is counted as by `CountVertex`, with the same element call logged. It gets a fresh vertex record, which becomes the setters' target, and a fresh varying record holding selection id 0 and the current sharing id; no other varying word changes. The current sharing record holds the pose's transform. On a cache hit the sharing id and record are unchanged and nothing is reserved. On a miss the next sharing id is taken and exactly one `PoseRecord` is appended. |
| BufferBuilders.AcceleratedBufferBuilder.SetColor | src/main/java/com/github/argon4w/acceleratedrendering/core/buffers/builders/AcceleratedBufferBuilder.java:128-149 | Without a color slot it is a no-op, even with no vertex. With a slot and no vertex it ends in `IllegalState` and writes nothing. Otherwise it writes the packed bytes into word 2 of the current varying record, and nothing else. |
| BufferBuilders.AcceleratedBufferBuilder.SetUv | src/main/java/com/github/argon4w/acceleratedrendering/core/buffers/builders/AcceleratedBufferBuilder.java:151-165 | The same absence-then-state order. Otherwise it stores `(u, v)` as the current vertex record's UV0 and changes nothing else. |
| BufferBuilders.AcceleratedBufferBuilder.SetUv1 | src/main/java/com/github/argon4w/acceleratedrendering/core/buffers/builders/AcceleratedBufferBuilder.java:167-181 | The same order. Otherwise it writes the two shorts into word 4 (overlay) of the current varying record. |
| BufferBuilders.AcceleratedBufferBuilder.SetUv2 | src/main/java/com/github/argon4w/acceleratedrendering/core/buffers/builders/AcceleratedBufferBuilder.java:183-197 | The same order. Otherwise it writes the two shorts into word 3 (light) of the current varying record. |
| BufferBuilders.AcceleratedBufferBuilder.SetNormal | src/main/java/com/github/argon4w/acceleratedrendering/core/buffers/builders/AcceleratedBufferBuilder.java:226-245 | The same order. Otherwise it stores the normal in the current vertex record. |
| BufferBuilders.AcceleratedBufferBuilder.SetPoseNormal | src/main/java/com/github/argon4w/acceleratedrendering/core/buffers/builders/AcceleratedBufferBuilder.java:199-224 | Without a sharing record it stores the library-transformed normal. With one, it rewrites that record's normal matrix exactly when the pose's differs from the cached one, then stores the normal as given. |
| BufferBuilders.AcceleratedBufferBuilder.AddFullVertex | src/main/java/com/github/argon4w/acceleratedrendering/core/buffers/builders/AcceleratedBufferBuilder.java:247-294 | Counting as `CountVertex`. One fresh vertex record with the position, UV0 only with a UV0 slot, and the normal only with a normal slot. One fresh varying record: selection 0, sharing -1, ABGR color, light, overlay. The setters' target records are not changed. |
| BufferBuilders.AcceleratedBufferBuilder.BeginTransform | src/main/java/com/github/argon4w/acceleratedrendering/core/buffers/builders/AcceleratedBufferBuilder.java:296-322 | A cache hit changes nothing and reserves nothing. A miss caches the pose, takes the next sharing id, and appends one sharing record holding transform, normal matrix, flags and mesh -1. It logs that record's extra area. |
| BufferBuilders.AcceleratedBufferBuilder.EndTransform | src/main/java/com/github/argon4w/acceleratedrendering/core/buffers/builders/AcceleratedBufferBuilder.java:324-330 | Clears the cached pose, the sharing id and the sharing record, and keeps the invariant. |
| BufferBuilders.AcceleratedBufferBuilder.PutMeshVaryings | src/main/java/com/github/argon4w/acceleratedrendering/core/buffers/builders/AcceleratedBufferBuilder.java:354-361 | The four header stores followed by the selection-id loop leave exactly `SelectionIds(MeshHeader(old memory))`. |
| BufferBuilders.AcceleratedBufferBuilder.AddClientMesh | src/main/java/com/github/argon4w/acceleratedrendering/core/buffers/builders/AcceleratedBufferBuilder.java:332-362 | One element call of `size` and `vertexCount += size`, with `elementCount` unchanged. There are `size` fresh vertex and varying records and one copy of `size * vertexSize` bytes into the first vertex record. The varying words are as `PutMeshVaryings` gives them. |
| BufferBuilders.AcceleratedBufferBuilder.AddServerMesh | src/main/java/com/github/argon4w/acceleratedrendering/core/buffers/builders/AcceleratedBufferBuilder.java:364-390 | As `AddClientMesh` but with no copy. The current sharing record's mesh word becomes `offset / vertexSize`, truncating as Java does. |
| BufferBuilders.AcceleratedBufferBuilder.GetVertexCount | src/main/java/com/github/argon4w/acceleratedrendering/core/buffers/builders/AcceleratedBufferBuilder.java:402-404 | The count equals the vertex records this builder reserved. It also equals the vertices covered by its element calls plus those pending in the primitive under construction. |

## Left out

- Raw memory. Records are addressed by index, not by byte address:
  - vertex records and sharing records are values in sequences;
  - varying words are a map from word address to the Java `int` stored;
  - the client index buffer is counted in 4-byte words.

  Reallocation, alignment and the pools behind `BufferSet` are not part of this model.
- Foreign calls are recorded as events, not performed: `IntElementUtils.putElements`, `addExtraVertex`, `addExtraSharings` and `ByteUtils.putByteBuffer`. Their bodies are not part of this model.
- Floats and matrices are opaque bit patterns compared with `==`:
  - `ByteUtils.putNormal`'s byte encoding of a normal is not modelled, and the normal is stored as given;
  - `putMatrix4f`/`putMatrix3x4f` store the matrix as a value.
  - JOML's `equals` compares `Float.floatToIntBits`, which folds every NaN bit pattern into one value. Comparing raw bits does not, so for a pose whose matrices hold NaNs with different bit patterns, `BeginTransform` (cache test) and `SetPoseNormal` (normal-matrix test) report a mismatch where the source reports a match.
- `FastColor.ABGR32.fromArgb32` is modelled as the red/blue byte swap it performs. Memory is taken as little-endian.
- `CoreFeature.shouldCacheSamePose()` is a global setting. It becomes the `cacheSamePose` parameter.
- The library's `VertexConsumer.setNormal(Pose, ...)` default, used when no sharing record is current: its transformed normal is the `transformed` parameter.
- `isAccelerated`, `getRenderTypes` and `getElementBuffer` are constant or identity accessors.
- IntIndexUtils.PutQuadIndices: negative counts and indices that overflow a Java `int` are excluded by `requires`. The source would reserve a negative size and wrap the indices around.
- IntIndexUtils.PutLineIndices: negative counts and indices that overflow a Java `int` are excluded by `requires`.
- IntIndexUtils.PutSequentialIndices: negative counts and indices that overflow a Java `int` are excluded by `requires`.
- IntIndexUtils.PutIndices: `requires` excludes a negative `vertexCount` and indices that overflow a Java `int` (`IndicesFit`). For a negative count the source either truncates it to a group count of 0 and returns (QUADS with -3 to -1, LINES with -1), or reserves a negative size. The model does not promise what a negative count does.
- BufferBuilders.AcceleratedBufferBuilder.AddVertex: `vertexCount` below `Integer.MAX_VALUE` is required, so the model does not show the wrap-around of the Java counter.
- BufferBuilders.AcceleratedBufferBuilder.AddPoseVertex: `vertexCount` below `Integer.MAX_VALUE` is required.
- BufferBuilders.AcceleratedBufferBuilder.AddFullVertex: `vertexCount` below `Integer.MAX_VALUE` is required.
- BufferBuilders.AcceleratedBufferBuilder.AddClientMesh: requires `size >= 0` and a `vertexCount` that does not overflow. The source passes a negative size on to the allocators unchecked.
- BufferBuilders.AcceleratedBufferBuilder.AddServerMesh: requires a current sharing record (`transform != -1`). Without one, the source stores the mesh word at a raw address computed from -1, which has no counterpart among indexed records.
- BufferBuilders.AcceleratedBufferBuilder.SetPoseNormal: like the source, it does not update `cachedNormal`. The model states that and nothing about later calls.
- `getElement` is modelled as a bump allocator of element slots, because its body is not part of this model.
- The builder's invariant speaks of the records this builder reserved. Records reserved through the same `BufferSet` by other builders are not modelled.
