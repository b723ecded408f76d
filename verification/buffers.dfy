/** The storage an `AcceleratedBufferBuilder` writes into: a `BufferSet`
    (vertex, varying and sharing records handed out by bump reservations)
    and an `ElementBuffer` (the index storage). Both are abstract models:
    their own classes are not part of this model, so this module states only
    what the builder relies on. Records are addressed by index rather than by
    byte address; the varying records, whose words the builder writes one by
    one, are kept as 32-bit words addressed like raw memory. */
module Buffers {
  import opened JavaTypes
  import opened VertexFormats

  /** A Java `float`, as the bits `memPutFloat` stores: floats are only
      stored, never computed with. */
  type Float32 = bv32

  datatype Vec2 = Vec2(u: Float32, v: Float32)
  datatype Vec3 = Vec3(x: Float32, y: Float32, z: Float32)

  /** JOML matrices, compared by bit-pattern equality of their elements
      (JOML's `equals` also identifies distinct NaN patterns; this does not). */
  datatype Matrix4f = Matrix4f(elements: seq<Float32>)
  datatype Matrix3f = Matrix3f(elements: seq<Float32>)

  /** The sentinel `getOffset` returns for an attribute the format lacks. */
  const Absent: int := -1

  /** The byte offset of each attribute in a vertex record, or `Absent`. */
  datatype VertexLayout = VertexLayout(position: int, color: int, uv0: int, uv1: int, uv2: int, normal: int)

  /** A vertex record: the attributes written into it so far (`None`:
      nothing has been written there). */
  datatype Vertex = Vertex(position: Option<Vec3>, uv0: Option<Vec2>, normal: Option<Vec3>)

  const BlankVertex := Vertex(None, None, None)

  /** A sharing record: the transform at byte 0, the 3x4 normal matrix at
      byte 64, the flags word at byte 112 and the mesh word at byte 116. */
  datatype Sharing = Sharing(transform: Option<Matrix4f>, normal: Option<Matrix3f>, flags: Option<int>, mesh: Option<int>)

  const BlankSharing := Sharing(None, None, None, None)

  /** A varying record is five 32-bit words: selection id, sharing id, color,
      light, overlay. Each word is kept as the Java `int` it holds. */
  const VaryingSize: int := 5
  const SelectionWord: int := 0
  const SharingWord: int := 1
  const ColorWord: int := 2
  const LightWord: int := 3
  const OverlayWord: int := 4

  /** The word address of word `word` of varying record `record`. */
  function WordAddress(record: int, word: int): int {
    VaryingSize * record + word
  }

  /** Distinct (record, word) pairs name distinct words. */
  lemma WordAddressInjective(r1: int, w1: int, r2: int, w2: int)
    requires 0 <= w1 < VaryingSize && 0 <= w2 < VaryingSize
    ensures WordAddress(r1, w1) == WordAddress(r2, w2) <==> r1 == r2 && w1 == w2
  {
    if r1 < r2 {
      assert WordAddress(r1, w1) < WordAddress(r2, w2);
    } else if r2 < r1 {
      assert WordAddress(r2, w2) < WordAddress(r1, w1);
    }
  }

  /** The five words of varying record `record` as memory `m` holds them. */
  datatype Varying = Varying(selection: Option<int>, sharing: Option<int>, color: Option<int>, light: Option<int>, overlay: Option<int>)

  function Word(m: map<int, int>, address: int): Option<int> {
    if address in m then Some(m[address]) else None
  }

  function VaryingRecord(m: map<int, int>, record: int): Varying {
    Varying(Word(m, WordAddress(record, SelectionWord)), Word(m, WordAddress(record, SharingWord)),
            Word(m, WordAddress(record, ColorWord)), Word(m, WordAddress(record, LightWord)),
            Word(m, WordAddress(record, OverlayWord)))
  }

  /** One `IntElementUtils.putElements` call: `size` vertices of `mode`
      starting at the leased element slot `element`. */
  datatype ElementCall = ElementCall(mode: Mode, element: nat, size: nat)

  /** One `ByteUtils.putByteBuffer` call: `length` bytes of `data` copied to
      the vertex records starting at `vertex`. */
  datatype MeshCopy = MeshCopy(data: seq<bv8>, vertex: nat, length: int)

  /** The number of vertices a run of element calls covers. */
  function ElementTotal(calls: seq<ElementCall>): nat
    decreases |calls|
  {
    if calls == [] then 0 else ElementTotal(calls[..|calls| - 1]) + calls[|calls| - 1].size
  }

  /** One more call covers its own vertices on top of the earlier ones. */
  lemma ElementTotalAppend(calls: seq<ElementCall>, from: nat, call: ElementCall)
    requires from <= |calls|
    ensures ElementTotal((calls + [call])[from..]) == ElementTotal(calls[from..]) + call.size
  {
    assert (calls + [call])[from..] == calls[from..] + [call];
    assert (calls[from..] + [call])[..|calls[from..]|] == calls[from..];
  }

  /** The index storage: the element calls made against it, in order. */
  class ElementBuffer {
    var calls: seq<ElementCall>

    constructor ()
      ensures calls == []
    {
      calls := [];
    }

    /** `IntElementUtils.putElements`, recorded rather than performed: its
        body is not part of this model. */
    method PutElements(mode: Mode, element: nat, size: nat)
      modifies this`calls
      ensures calls == old(calls) + [ElementCall(mode, element, size)]
    {
      calls := calls + [ElementCall(mode, element, size)];
    }
  }

  type PositiveInt = x: int | x > 0 witness 1

  /** A `BufferSet`: every reservation is a bump of a counter, so records
      reserved by different calls never overlap and come in issuance order. */
  class BufferSet {
    /** `getOffset` of each attribute. */
    const layout: VertexLayout
    /** `getVertexSize`: bytes per vertex record. */
    const vertexSize: PositiveInt
    /** `getSharingFlags`. */
    const sharingFlags: int

    /** The vertex records reserved so far. */
    var vertices: seq<Vertex>
    /** The varying records reserved so far, and the varying memory. Words
        may lie past the reservation: nothing stops a store there. */
    var varyingCount: nat
    var varyings: map<int, int>
    /** The sharing records reserved so far. */
    var sharings: seq<Sharing>
    /** Sharing ids handed out by `getSharing`. */
    var sharingIds: nat
    /** Element slots leased by `getElement`. */
    var elements: nat
    /** The `addExtraVertex` and `addExtraSharings` logs, and the bulk copies
        made into the vertex records. */
    var extraVertices: seq<nat>
    var extraSharings: seq<nat>
    var meshCopies: seq<MeshCopy>

    constructor (layout: VertexLayout, vertexSize: PositiveInt, sharingFlags: int)
      ensures this.layout == layout && this.vertexSize == vertexSize && this.sharingFlags == sharingFlags
      ensures vertices == [] && varyingCount == 0 && varyings == map[] && sharings == []
      ensures sharingIds == 0 && elements == 0
      ensures extraVertices == [] && extraSharings == [] && meshCopies == []
    {
      this.layout := layout;
      this.vertexSize := vertexSize;
      this.sharingFlags := sharingFlags;
      vertices := [];
      varyingCount := 0;
      varyings := map[];
      sharings := [];
      sharingIds := 0;
      elements := 0;
      extraVertices := [];
      extraSharings := [];
      meshCopies := [];
    }

    /** `reserveVertex`: one fresh vertex record, after all earlier ones. */
    method ReserveVertex() returns (vertex: nat)
      modifies this`vertices
      ensures vertex == |old(vertices)|
      ensures vertices == old(vertices) + [BlankVertex]
    {
      vertex := |vertices|;
      vertices := vertices + [BlankVertex];
    }

    /** `reservePolygons`: `count` consecutive fresh vertex records. */
    method ReservePolygons(count: nat) returns (first: nat)
      modifies this`vertices
      ensures first == |old(vertices)|
      ensures vertices == old(vertices) + seq(count, _ => BlankVertex)
    {
      first := |vertices|;
      vertices := vertices + seq(count, _ => BlankVertex);
    }

    /** `reserveVarying`: one fresh varying record. Its memory is not cleared. */
    method ReserveVarying() returns (varying: nat)
      modifies this`varyingCount
      ensures varying == old(varyingCount)
      ensures varyingCount == old(varyingCount) + 1
    {
      varying := varyingCount;
      varyingCount := varyingCount + 1;
    }

    /** `reserveVaryings`: `count` consecutive fresh varying records. */
    method ReserveVaryings(count: nat) returns (first: nat)
      modifies this`varyingCount
      ensures first == old(varyingCount)
      ensures varyingCount == old(varyingCount) + count
    {
      first := varyingCount;
      varyingCount := varyingCount + count;
    }

    /** `reserveSharing`: one fresh sharing record. */
    method ReserveSharing() returns (sharing: nat)
      modifies this`sharings
      ensures sharing == |old(sharings)|
      ensures sharings == old(sharings) + [BlankSharing]
    {
      sharing := |sharings|;
      sharings := sharings + [BlankSharing];
    }

    /** `getSharing`: the next sharing id. */
    method GetSharing() returns (id: nat)
      modifies this`sharingIds
      ensures id == old(sharingIds)
      ensures sharingIds == old(sharingIds) + 1
    {
      id := sharingIds;
      sharingIds := sharingIds + 1;
    }

    /** `getElement`: a lease of index storage for `size` vertices. */
    method GetElement(size: nat) returns (element: nat)
      modifies this`elements
      ensures element == old(elements)
      ensures elements == old(elements) + size
    {
      element := elements;
      elements := elements + size;
    }

    /** `addExtraVertex`, recorded: its body is not part of this model. */
    method AddExtraVertex(vertex: nat)
      modifies this`extraVertices
      ensures extraVertices == old(extraVertices) + [vertex]
    {
      extraVertices := extraVertices + [vertex];
    }

    /** `addExtraSharings`, recorded with the sharing record whose extra
        area (the bytes after the mesh word) it is given. */
    method AddExtraSharings(sharing: nat)
      modifies this`extraSharings
      ensures extraSharings == old(extraSharings) + [sharing]
    {
      extraSharings := extraSharings + [sharing];
    }

    /** `ByteUtils.putByteBuffer` into the vertex records, recorded. */
    method PutByteBuffer(data: seq<bv8>, vertex: nat, length: int)
      modifies this`meshCopies
      ensures meshCopies == old(meshCopies) + [MeshCopy(data, vertex, length)]
    {
      meshCopies := meshCopies + [MeshCopy(data, vertex, length)];
    }
  }
}
