/** `AcceleratedBufferBuilder`: the vertex consumer that writes vertices,
    their varying records and their shared transforms into a `BufferSet`,
    and asks for indices every time a primitive is complete. */
module BufferBuilders {
  import opened JavaTypes
  import opened VertexFormats
  import opened Colors
  import opened Buffers

  /** How a setter ends: it returns the builder, or it throws
      `IllegalStateException` because no vertex is being built. */
  datatype Outcome = Done | IllegalState

  /** Whether one more vertex completes the primitive under construction. */
  predicate CompletesPolygon(elementCount: nat, polygonSize: nat) {
    elementCount + 1 >= polygonSize
  }

  /** `elementCount` after one more vertex: it counts up and falls back to 0
      when the primitive is complete. */
  function NextElementCount(elementCount: nat, polygonSize: nat): nat {
    if CompletesPolygon(elementCount, polygonSize) then 0 else elementCount + 1
  }

  /** `elementCount`, and the number of completed primitives, after `n`
      more vertices. */
  function AfterVertices(elementCount: nat, polygonSize: nat, n: nat): (nat, nat)
    decreases n
  {
    if n == 0 then (elementCount, 0)
    else
      var (e, completed) := AfterVertices(elementCount, polygonSize, n - 1);
      (NextElementCount(e, polygonSize), completed + if CompletesPolygon(e, polygonSize) then 1 else 0)
  }

  /** After `n` vertices from a count `e < p`, `e + n` vertices have been
      counted: `q` primitives completed and `r` vertices pending, with
      `e + n == p * q + r` and `r < p`; that is, `q` and `r` are the quotient
      and remainder of `e + n` by `p`. */
  lemma {:induction false} AfterVerticesClosedForm(e: nat, p: nat, n: nat)
    requires e < p
    ensures var (r, q) := AfterVertices(e, p, n); e + n == p * q + r && 0 <= r < p
    decreases n
  {
    if n > 0 {
      AfterVerticesClosedForm(e, p, n - 1);
      var (r, q) := AfterVertices(e, p, n - 1);
      if r + 1 >= p {
        assert p * (q + 1) == p * q + p;
      }
    }
  }

  /** A positive multiple of `p` is at least `p`. */
  lemma {:induction false} MultipleAtLeast(p: int, d: int)
    requires 0 < p && 1 <= d
    ensures p * d >= p
    decreases d
  {
    if d > 1 {
      MultipleAtLeast(p, d - 1);
      assert p * d == p * (d - 1) + p;
    }
  }

  /** Quotient and remainder are the only pair with `n == p * q + r` and
      `0 <= r < p`. */
  lemma DivModUnique(n: int, p: int, q: int, r: int)
    requires 0 < p && n == p * q + r && 0 <= r < p
    ensures q == n / p && r == n % p
  {
    var d := q - n / p;
    assert p * d == p * q - p * (n / p);
    if d >= 1 {
      MultipleAtLeast(p, d);
    } else if d <= -1 {
      MultipleAtLeast(p, -d);
    }
  }

  /** From a fresh builder, `n` vertices leave `n % p` pending and have
      completed `n / p` primitives, one element call each. */
  lemma AfterVerticesFromZero(p: nat, n: nat)
    requires 0 < p
    ensures AfterVertices(0, p, n) == (n % p, n / p)
  {
    AfterVerticesClosedForm(0, p, n);
    var (r, q) := AfterVertices(0, p, n);
    DivModUnique(n, p, q, r);
  }

  /** The varying words whose selection ids a mesh of `count` vertices
      stores: record `first + i` gets id `i`. */
  function SelectionIds(m: map<int, int>, first: int, count: nat): map<int, int>
    decreases count
  {
    if count == 0 then m
    else SelectionIds(m, first, count - 1)[WordAddress(first + count - 1, SelectionWord) := count - 1]
  }

  /** The words a mesh stores once, in its first varying record. */
  function MeshHeader(m: map<int, int>, first: int, sharing: int, color: int, light: int, overlay: int): map<int, int> {
    m[WordAddress(first, SharingWord) := sharing]
     [WordAddress(first, ColorWord) := AbgrFromArgb(color)]
     [WordAddress(first, LightWord) := light]
     [WordAddress(first, OverlayWord) := overlay]
  }

  /** Record `first + i`, for `i < count`, holds selection id `i`. */
  lemma {:induction false} SelectionIdsAt(m: map<int, int>, first: int, count: nat, i: nat)
    requires i < count
    ensures Word(SelectionIds(m, first, count), WordAddress(first + i, SelectionWord)) == Some(i)
    decreases count
  {
    if i < count - 1 {
      SelectionIdsAt(m, first, count - 1, i);
      WordAddressInjective(first + i, SelectionWord, first + count - 1, SelectionWord);
    }
  }

  /** Every other word is left as it was. */
  lemma {:induction false} SelectionIdsElsewhere(m: map<int, int>, first: int, count: nat, record: int, word: int)
    requires 0 <= word < VaryingSize
    requires word != SelectionWord || record < first || first + count <= record
    ensures Word(SelectionIds(m, first, count), WordAddress(record, word)) == Word(m, WordAddress(record, word))
    decreases count
  {
    if count > 0 {
      SelectionIdsElsewhere(m, first, count - 1, record, word);
      WordAddressInjective(record, word, first + count - 1, SelectionWord);
    }
  }

  /** The first varying record of a mesh of `size > 0` vertices holds
      selection id 0 and the sharing id, color, light and overlay. */
  lemma MeshFirstRecord(m: map<int, int>, first: int, size: nat, sharing: int, color: int, light: int, overlay: int)
    requires 0 < size
    ensures var w := SelectionIds(MeshHeader(m, first, sharing, color, light, overlay), first, size);
      VaryingRecord(w, first) == Varying(Some(0), Some(sharing), Some(AbgrFromArgb(color)), Some(light), Some(overlay))
  {
    var h := MeshHeader(m, first, sharing, color, light, overlay);
    SelectionIdsAt(h, first, size, 0);
    SelectionIdsElsewhere(h, first, size, first, SharingWord);
    SelectionIdsElsewhere(h, first, size, first, ColorWord);
    SelectionIdsElsewhere(h, first, size, first, LightWord);
    SelectionIdsElsewhere(h, first, size, first, OverlayWord);
  }

  /** Every later record `first + i` gets only its selection id `i`: its
      other words stay as they were. */
  lemma MeshLaterRecord(m: map<int, int>, first: int, size: nat, sharing: int, color: int, light: int, overlay: int, i: nat)
    requires 0 < i < size
    ensures var w := SelectionIds(MeshHeader(m, first, sharing, color, light, overlay), first, size);
      VaryingRecord(w, first + i) == VaryingRecord(m, first + i).(selection := Some(i))
  {
    var h := MeshHeader(m, first, sharing, color, light, overlay);
    SelectionIdsAt(h, first, size, i);
    SelectionIdsElsewhere(h, first, size, first + i, SharingWord);
    SelectionIdsElsewhere(h, first, size, first + i, ColorWord);
    SelectionIdsElsewhere(h, first, size, first + i, LightWord);
    SelectionIdsElsewhere(h, first, size, first + i, OverlayWord);
  }

  /** A mesh of no vertices reserves no varying record, yet still stores its
      sharing id, color, light and overlay into the record `first` that the
      next reservation will hand out. */
  lemma EmptyMeshWritesNextRecord(m: map<int, int>, first: int, sharing: int, color: int, light: int, overlay: int)
    ensures var w := SelectionIds(MeshHeader(m, first, sharing, color, light, overlay), first, 0);
      VaryingRecord(w, first)
      == Varying(Word(m, WordAddress(first, SelectionWord)), Some(sharing), Some(AbgrFromArgb(color)), Some(light), Some(overlay))
  {
    WordAddressInjective(first, SelectionWord, first, SharingWord);
    WordAddressInjective(first, SelectionWord, first, ColorWord);
    WordAddressInjective(first, SelectionWord, first, LightWord);
    WordAddressInjective(first, SelectionWord, first, OverlayWord);
  }

  /** Whether `beginTransform` finds the pose it was given already cached. */
  predicate CacheHit(cacheSamePose: bool, cachedTransform: Option<Matrix4f>, cachedNormal: Option<Matrix3f>,
                     transformMatrix: Matrix4f, normalMatrix: Matrix3f) {
    cacheSamePose && cachedTransform == Some(transformMatrix) && cachedNormal == Some(normalMatrix)
  }

  /** The sharing record `beginTransform` writes for a pose. */
  function PoseRecord(transformMatrix: Matrix4f, normalMatrix: Matrix3f, sharingFlags: int): Sharing {
    Sharing(Some(transformMatrix), Some(normalMatrix), Some(sharingFlags), Some(-1))
  }

  /** With nothing cached, no pose is a cache hit: after `endTransform`,
      the next `beginTransform` always takes a fresh sharing record. */
  lemma NoCacheHitAfterEnd(cacheSamePose: bool, transformMatrix: Matrix4f, normalMatrix: Matrix3f)
    ensures !CacheHit(cacheSamePose, None, None, transformMatrix, normalMatrix)
  {
  }

  class AcceleratedBufferBuilder {
    const elementBuffer: ElementBuffer
    const bufferSet: BufferSet
    /** The render type's primitive mode and its `primitiveLength`. */
    const mode: Mode
    const polygonSize: int

    const posOffset: int
    const colorOffset: int
    const uv0Offset: int
    const uv1Offset: int
    const uv2Offset: int
    const normalOffset: int

    /** Vertices of the primitive under construction, and vertices in all. */
    var elementCount: int
    var vertexCount: int
    /** The vertex and varying record the setters write to, or -1. */
    var vertex: int
    var varying: int
    /** The current sharing record and sharing id, or -1. */
    var transform: int
    var sharing: int
    /** The pose the current sharing record was written for, or `None`. */
    var cachedTransform: Option<Matrix4f>
    var cachedNormal: Option<Matrix3f>

    /** Where this builder's records and element calls begin. */
    ghost const firstVertex: nat
    ghost const firstVarying: nat
    ghost const firstCall: nat

    /** The offsets and the primitive length are those of the format and
        the mode. */
    ghost predicate Layout() {
      && polygonSize == mode.PrimitiveLength()
      && posOffset == bufferSet.layout.position && colorOffset == bufferSet.layout.color
      && uv0Offset == bufferSet.layout.uv0 && uv1Offset == bufferSet.layout.uv1
      && uv2Offset == bufferSet.layout.uv2 && normalOffset == bufferSet.layout.normal
    }

    /** Every vertex the builder has counted has one vertex record and one
        varying record, and is either covered by an element call or pending
        in the primitive under construction. The setters' target records
        are both present or both absent. */
    ghost predicate Counted()
      reads this`elementCount, this`vertexCount, this`vertex, this`varying,
        bufferSet`vertices, bufferSet`varyingCount, elementBuffer`calls
    {
      && 0 <= elementCount < polygonSize
      && 0 <= vertexCount <= MaxInt32
      && firstVertex + vertexCount == |bufferSet.vertices|
      && firstVarying + vertexCount == bufferSet.varyingCount
      && firstCall <= |elementBuffer.calls|
      && ElementTotal(elementBuffer.calls[firstCall..]) + elementCount == vertexCount
      && (vertex == -1 <==> varying == -1)
      && (vertex != -1 ==> firstVertex <= vertex < |bufferSet.vertices| && firstVarying <= varying < bufferSet.varyingCount)
    }

    /** The sharing record, the sharing id and the cached pose are all
        present or all absent, and the sharing record holds the cached
        transform. */
    ghost predicate Shared()
      reads this`transform, this`sharing, this`cachedTransform, this`cachedNormal, bufferSet`sharings, bufferSet`sharingIds
    {
      && (transform == -1 <==> sharing == -1)
      && (transform == -1 <==> cachedTransform == None)
      && (transform == -1 <==> cachedNormal == None)
      && (transform != -1 ==>
            && 0 <= transform < |bufferSet.sharings|
            && 0 <= sharing < bufferSet.sharingIds
            && bufferSet.sharings[transform].transform == cachedTransform)
    }

    /** The builder's invariant. */
    ghost predicate Valid()
      reads this, bufferSet`vertices, bufferSet`varyingCount, bufferSet`sharings, bufferSet`sharingIds, elementBuffer`calls
    {
      Layout() && Counted() && Shared()
    }

    constructor (elementBuffer: ElementBuffer, bufferSet: BufferSet, mode: Mode)
      ensures Valid()
      ensures this.elementBuffer == elementBuffer && this.bufferSet == bufferSet && this.mode == mode
      ensures elementCount == 0 && vertexCount == 0
      ensures vertex == -1 && varying == -1 && transform == -1 && sharing == -1
      ensures cachedTransform == None && cachedNormal == None
    {
      this.elementBuffer := elementBuffer;
      this.bufferSet := bufferSet;
      this.mode := mode;
      polygonSize := mode.PrimitiveLength();
      posOffset := bufferSet.layout.position;
      colorOffset := bufferSet.layout.color;
      uv0Offset := bufferSet.layout.uv0;
      uv1Offset := bufferSet.layout.uv1;
      uv2Offset := bufferSet.layout.uv2;
      normalOffset := bufferSet.layout.normal;
      elementCount := 0;
      vertexCount := 0;
      vertex := -1;
      varying := -1;
      transform := -1;
      sharing := -1;
      cachedTransform := None;
      cachedNormal := None;
      firstVertex := |bufferSet.vertices|;
      firstVarying := bufferSet.varyingCount;
      firstCall := |elementBuffer.calls|;
    }

    /** `putElements`: leases index storage for `size` vertices and hands it
        to the element writer. */
    method PutElements(size: nat)
      modifies bufferSet`elements, elementBuffer`calls
      ensures elementBuffer.calls == old(elementBuffer.calls) + [ElementCall(mode, old(bufferSet.elements), size)]
      ensures bufferSet.elements == old(bufferSet.elements) + size
    {
      var element := bufferSet.GetElement(size);
      elementBuffer.PutElements(mode, element, size);
    }

    /** The counting both `addVertex` overloads begin with: one more vertex,
        and an element call of a whole primitive when it completes one. */
    method CountVertex()
      requires Valid() && vertexCount < MaxInt32
      modifies this`vertexCount, this`elementCount, bufferSet`elements, elementBuffer`calls
      ensures vertexCount == old(vertexCount) + 1
      ensures elementCount == NextElementCount(old(elementCount), polygonSize)
      ensures elementBuffer.calls == old(elementBuffer.calls)
        + if CompletesPolygon(old(elementCount), polygonSize) then [ElementCall(mode, old(bufferSet.elements), polygonSize)] else []
      ensures bufferSet.elements == old(bufferSet.elements) + if CompletesPolygon(old(elementCount), polygonSize) then polygonSize else 0
      ensures firstVertex + vertexCount == |bufferSet.vertices| + 1
      ensures firstVarying + vertexCount == bufferSet.varyingCount + 1
      ensures firstCall <= |elementBuffer.calls|
      ensures ElementTotal(elementBuffer.calls[firstCall..]) + elementCount == vertexCount
      ensures 0 <= elementCount < polygonSize
    {
      ghost var calls := elementBuffer.calls;
      vertexCount := vertexCount + 1;
      elementCount := elementCount + 1;
      if elementCount >= polygonSize {
        PutElements(polygonSize);
        ElementTotalAppend(calls, firstCall, ElementCall(mode, old(bufferSet.elements), polygonSize));
        elementCount := 0;
      }
    }

    /** A fresh vertex record holding `record`, logged as an extra vertex. */
    method PutVertex(record: Vertex) returns (vertex: nat)
      modifies bufferSet`vertices, bufferSet`extraVertices
      ensures vertex == |old(bufferSet.vertices)|
      ensures bufferSet.vertices == old(bufferSet.vertices) + [record]
      ensures bufferSet.extraVertices == old(bufferSet.extraVertices) + [vertex]
    {
      vertex := bufferSet.ReserveVertex();
      bufferSet.vertices := bufferSet.vertices[vertex := record];
      bufferSet.AddExtraVertex(vertex);
    }

    /** A fresh varying record with selection id 0 and sharing id `sharing`. */
    method PutVarying(sharing: int) returns (varying: nat)
      modifies bufferSet`varyingCount, bufferSet`varyings
      ensures varying == old(bufferSet.varyingCount) && bufferSet.varyingCount == varying + 1
      ensures bufferSet.varyings
        == old(bufferSet.varyings)[WordAddress(varying, SelectionWord) := 0][WordAddress(varying, SharingWord) := sharing]
    {
      varying := bufferSet.ReserveVarying();
      bufferSet.varyings := bufferSet.varyings[WordAddress(varying, SelectionWord) := 0][WordAddress(varying, SharingWord) := sharing];
    }

    /** A fresh varying record with all five words, and no sharing record. */
    method PutFullVarying(color: int, light: int, overlay: int) returns (varying: nat)
      modifies bufferSet`varyingCount, bufferSet`varyings
      ensures varying == old(bufferSet.varyingCount) && bufferSet.varyingCount == varying + 1
      ensures bufferSet.varyings == old(bufferSet.varyings)
        [WordAddress(varying, SelectionWord) := 0]
        [WordAddress(varying, SharingWord) := -1]
        [WordAddress(varying, ColorWord) := AbgrFromArgb(color)]
        [WordAddress(varying, LightWord) := light]
        [WordAddress(varying, OverlayWord) := overlay]
    {
      varying := bufferSet.ReserveVarying();
      bufferSet.varyings := bufferSet.varyings
        [WordAddress(varying, SelectionWord) := 0]
        [WordAddress(varying, SharingWord) := -1]
        [WordAddress(varying, ColorWord) := AbgrFromArgb(color)]
        [WordAddress(varying, LightWord) := light]
        [WordAddress(varying, OverlayWord) := overlay];
    }

    /** `addVertex(x, y, z)`: starts a vertex at the given position. Its
        records become the setters' targets; its varying record gets
        selection id 0 and the current sharing id. */
    method AddVertex(x: Float32, y: Float32, z: Float32)
      requires Valid() && vertexCount < MaxInt32
      modifies this`vertexCount, this`elementCount, this`vertex, this`varying,
        bufferSet`elements, bufferSet`vertices, bufferSet`extraVertices, bufferSet`varyingCount, bufferSet`varyings,
        elementBuffer`calls
      ensures Valid()
      ensures vertexCount == old(vertexCount) + 1
      ensures elementCount == NextElementCount(old(elementCount), polygonSize)
      ensures elementBuffer.calls == old(elementBuffer.calls)
        + if CompletesPolygon(old(elementCount), polygonSize) then [ElementCall(mode, old(bufferSet.elements), polygonSize)] else []
      ensures bufferSet.elements == old(bufferSet.elements) + if CompletesPolygon(old(elementCount), polygonSize) then polygonSize else 0
      ensures vertex == |old(bufferSet.vertices)|
      ensures bufferSet.vertices == old(bufferSet.vertices) + [Vertex(Some(Vec3(x, y, z)), None, None)]
      ensures bufferSet.extraVertices == old(bufferSet.extraVertices) + [vertex]
      ensures varying == old(bufferSet.varyingCount) && bufferSet.varyingCount == varying + 1
      ensures bufferSet.varyings
        == old(bufferSet.varyings)[WordAddress(varying, SelectionWord) := 0][WordAddress(varying, SharingWord) := sharing]
    {
      CountVertex();
      vertex := PutVertex(Vertex(Some(Vec3(x, y, z)), None, None));
      varying := PutVarying(sharing);
    }

    /** `addVertex(pose, x, y, z)`: `beginTransform` with the pose, then
        `addVertex(x, y, z)`. The new vertex counts toward the primitive and
        becomes the setters' target; its varying record holds the current
        sharing id, and the current sharing record holds the pose's
        transform. */
    method AddPoseVertex(transformMatrix: Matrix4f, normalMatrix: Matrix3f, cacheSamePose: bool, x: Float32, y: Float32, z: Float32)
      requires Valid() && vertexCount < MaxInt32
      modifies this`vertexCount, this`elementCount, this`vertex, this`varying,
        this`cachedTransform, this`cachedNormal, this`sharing, this`transform,
        bufferSet`elements, bufferSet`vertices, bufferSet`extraVertices, bufferSet`varyingCount, bufferSet`varyings,
        bufferSet`sharingIds, bufferSet`sharings, bufferSet`extraSharings,
        elementBuffer`calls
      ensures Valid()
      ensures vertexCount == old(vertexCount) + 1
      ensures elementCount == NextElementCount(old(elementCount), polygonSize)
      ensures elementBuffer.calls == old(elementBuffer.calls)
        + if CompletesPolygon(old(elementCount), polygonSize) then [ElementCall(mode, old(bufferSet.elements), polygonSize)] else []
      ensures bufferSet.elements == old(bufferSet.elements) + if CompletesPolygon(old(elementCount), polygonSize) then polygonSize else 0
      ensures vertex == |old(bufferSet.vertices)|
      ensures bufferSet.vertices == old(bufferSet.vertices) + [Vertex(Some(Vec3(x, y, z)), None, None)]
      ensures bufferSet.extraVertices == old(bufferSet.extraVertices) + [vertex]
      ensures varying == old(bufferSet.varyingCount) && bufferSet.varyingCount == varying + 1
      ensures bufferSet.varyings
        == old(bufferSet.varyings)[WordAddress(varying, SelectionWord) := 0][WordAddress(varying, SharingWord) := sharing]
      ensures VaryingRecord(bufferSet.varyings, varying).selection == Some(0)
      ensures VaryingRecord(bufferSet.varyings, varying).sharing == Some(sharing)
      ensures cachedTransform == Some(transformMatrix) && cachedNormal == Some(normalMatrix)
      ensures transform != -1 && bufferSet.sharings[transform].transform == Some(transformMatrix)
      ensures CacheHit(cacheSamePose, old(cachedTransform), old(cachedNormal), transformMatrix, normalMatrix) ==>
        && sharing == old(sharing) && transform == old(transform)
        && bufferSet.sharingIds == old(bufferSet.sharingIds) && bufferSet.sharings == old(bufferSet.sharings)
        && bufferSet.extraSharings == old(bufferSet.extraSharings)
      ensures !CacheHit(cacheSamePose, old(cachedTransform), old(cachedNormal), transformMatrix, normalMatrix) ==>
        && sharing == old(bufferSet.sharingIds) && bufferSet.sharingIds == old(bufferSet.sharingIds) + 1
        && transform == |old(bufferSet.sharings)|
        && bufferSet.sharings == old(bufferSet.sharings) + [PoseRecord(transformMatrix, normalMatrix, bufferSet.sharingFlags)]
        && bufferSet.extraSharings == old(bufferSet.extraSharings) + [transform]
    {
      BeginTransform(transformMatrix, normalMatrix, cacheSamePose);
      AddVertex(x, y, z);
      WordAddressInjective(varying, SelectionWord, varying, SharingWord);
    }

    /** `setColor`: with a color slot and a vertex, stores the four channels
        as bytes into the color word of the current varying record. */
    method SetColor(red: int, green: int, blue: int, alpha: int) returns (outcome: Outcome)
      requires Valid()
      modifies bufferSet`varyings
      ensures Valid()
      ensures outcome == if colorOffset != Absent && vertex == -1 then IllegalState else Done
      ensures bufferSet.varyings
        == if colorOffset != Absent && vertex != -1
           then old(bufferSet.varyings)[WordAddress(varying, ColorWord) := PackedColor(red, green, blue, alpha)]
           else old(bufferSet.varyings)
    {
      if colorOffset == Absent {
        return Done;
      }
      if vertex == -1 {
        return IllegalState;
      }
      bufferSet.varyings := bufferSet.varyings[WordAddress(varying, ColorWord) := PackedColor(red, green, blue, alpha)];
      return Done;
    }

    /** `setUv`: with a UV0 slot and a vertex, stores the coordinates into
        the current vertex record. */
    method SetUv(u: Float32, v: Float32) returns (outcome: Outcome)
      requires Valid()
      modifies bufferSet`vertices
      ensures Valid()
      ensures outcome == if uv0Offset != Absent && vertex == -1 then IllegalState else Done
      ensures bufferSet.vertices
        == if uv0Offset != Absent && vertex != -1
           then old(bufferSet.vertices)[vertex := old(bufferSet.vertices)[vertex].(uv0 := Some(Vec2(u, v)))]
           else old(bufferSet.vertices)
    {
      if uv0Offset == Absent {
        return Done;
      }
      if vertex == -1 {
        return IllegalState;
      }
      bufferSet.vertices := bufferSet.vertices[vertex := bufferSet.vertices[vertex].(uv0 := Some(Vec2(u, v)))];
      return Done;
    }

    /** `setUv1`: with a UV1 slot and a vertex, stores the two shorts into
        the overlay word of the current varying record. */
    method SetUv1(u: int, v: int) returns (outcome: Outcome)
      requires Valid()
      modifies bufferSet`varyings
      ensures Valid()
      ensures outcome == if uv1Offset != Absent && vertex == -1 then IllegalState else Done
      ensures bufferSet.varyings
        == if uv1Offset != Absent && vertex != -1
           then old(bufferSet.varyings)[WordAddress(varying, OverlayWord) := ShortsWord(u, v)]
           else old(bufferSet.varyings)
    {
      if uv1Offset == Absent {
        return Done;
      }
      if vertex == -1 {
        return IllegalState;
      }
      bufferSet.varyings := bufferSet.varyings[WordAddress(varying, OverlayWord) := ShortsWord(u, v)];
      return Done;
    }

    /** `setUv2`: with a UV2 slot and a vertex, stores the two shorts into
        the light word of the current varying record. */
    method SetUv2(u: int, v: int) returns (outcome: Outcome)
      requires Valid()
      modifies bufferSet`varyings
      ensures Valid()
      ensures outcome == if uv2Offset != Absent && vertex == -1 then IllegalState else Done
      ensures bufferSet.varyings
        == if uv2Offset != Absent && vertex != -1
           then old(bufferSet.varyings)[WordAddress(varying, LightWord) := ShortsWord(u, v)]
           else old(bufferSet.varyings)
    {
      if uv2Offset == Absent {
        return Done;
      }
      if vertex == -1 {
        return IllegalState;
      }
      bufferSet.varyings := bufferSet.varyings[WordAddress(varying, LightWord) := ShortsWord(u, v)];
      return Done;
    }

    /** `setNormal(x, y, z)`: with a normal slot and a vertex, stores the
        normal into the current vertex record. */
    method SetNormal(x: Float32, y: Float32, z: Float32) returns (outcome: Outcome)
      requires Valid()
      modifies bufferSet`vertices
      ensures Valid()
      ensures outcome == if normalOffset != Absent && vertex == -1 then IllegalState else Done
      ensures bufferSet.vertices
        == if normalOffset != Absent && vertex != -1
           then old(bufferSet.vertices)[vertex := old(bufferSet.vertices)[vertex].(normal := Some(Vec3(x, y, z)))]
           else old(bufferSet.vertices)
    {
      if normalOffset == Absent {
        return Done;
      }
      if vertex == -1 {
        return IllegalState;
      }
      bufferSet.vertices := bufferSet.vertices[vertex := bufferSet.vertices[vertex].(normal := Some(Vec3(x, y, z)))];
      return Done;
    }

    /** `setNormal(pose, x, y, z)`. Without a sharing record it stores the
        normal the library computes from the pose (`transformed`); with one,
        it rewrites the record's normal matrix when the pose's differs from
        the cached one, then stores the normal as given. */
    method SetPoseNormal(normalMatrix: Matrix3f, x: Float32, y: Float32, z: Float32, transformed: Vec3) returns (outcome: Outcome)
      requires Valid()
      modifies bufferSet`vertices, bufferSet`sharings
      ensures Valid()
      ensures outcome == if normalOffset != Absent && vertex == -1 then IllegalState else Done
      ensures var stored := if transform == -1 then transformed else Vec3(x, y, z);
        bufferSet.vertices
        == if normalOffset != Absent && vertex != -1
           then old(bufferSet.vertices)[vertex := old(bufferSet.vertices)[vertex].(normal := Some(stored))]
           else old(bufferSet.vertices)
      ensures bufferSet.sharings
        == if transform != -1 && cachedNormal != Some(normalMatrix)
           then old(bufferSet.sharings)[transform := old(bufferSet.sharings)[transform].(normal := Some(normalMatrix))]
           else old(bufferSet.sharings)
    {
      if transform == -1 {
        outcome := SetNormal(transformed.x, transformed.y, transformed.z);
        return;
      }
      if cachedNormal != Some(normalMatrix) {
        bufferSet.sharings := bufferSet.sharings[transform := bufferSet.sharings[transform].(normal := Some(normalMatrix))];
      }
      outcome := SetNormal(x, y, z);
    }

    /** `addVertex` with every attribute: a vertex that the setters never
        reach (its records are not made current), with no sharing record,
        and with UV and normal stored only where the format has them. */
    method AddFullVertex(x: Float32, y: Float32, z: Float32, color: int, u: Float32, v: Float32,
                         packedOverlay: int, packedLight: int, normalX: Float32, normalY: Float32, normalZ: Float32)
      requires Valid() && vertexCount < MaxInt32
      modifies this`vertexCount, this`elementCount,
        bufferSet`elements, bufferSet`vertices, bufferSet`extraVertices, bufferSet`varyingCount, bufferSet`varyings,
        elementBuffer`calls
      ensures Valid()
      ensures vertexCount == old(vertexCount) + 1
      ensures elementCount == NextElementCount(old(elementCount), polygonSize)
      ensures elementBuffer.calls == old(elementBuffer.calls)
        + if CompletesPolygon(old(elementCount), polygonSize) then [ElementCall(mode, old(bufferSet.elements), polygonSize)] else []
      ensures bufferSet.elements == old(bufferSet.elements) + if CompletesPolygon(old(elementCount), polygonSize) then polygonSize else 0
      ensures bufferSet.vertices == old(bufferSet.vertices) + [Vertex(
        Some(Vec3(x, y, z)),
        if uv0Offset != Absent then Some(Vec2(u, v)) else None,
        if normalOffset != Absent then Some(Vec3(normalX, normalY, normalZ)) else None)]
      ensures bufferSet.extraVertices == old(bufferSet.extraVertices) + [|old(bufferSet.vertices)|]
      ensures bufferSet.varyingCount == old(bufferSet.varyingCount) + 1
      ensures var r := old(bufferSet.varyingCount);
        bufferSet.varyings == old(bufferSet.varyings)
          [WordAddress(r, SelectionWord) := 0]
          [WordAddress(r, SharingWord) := -1]
          [WordAddress(r, ColorWord) := AbgrFromArgb(color)]
          [WordAddress(r, LightWord) := packedLight]
          [WordAddress(r, OverlayWord) := packedOverlay]
    {
      CountVertex();
      var vertex := PutVertex(Vertex(
        Some(Vec3(x, y, z)),
        if uv0Offset != Absent then Some(Vec2(u, v)) else None,
        if normalOffset != Absent then Some(Vec3(normalX, normalY, normalZ)) else None));
      var varying := PutFullVarying(color, packedLight, packedOverlay);
    }

    /** `beginTransform`: on a cache hit nothing changes; otherwise the pose
        is cached and a fresh sharing id and sharing record are taken, the
        record holding the pose, the flags and no mesh. */
    method BeginTransform(transformMatrix: Matrix4f, normalMatrix: Matrix3f, cacheSamePose: bool)
      requires Valid()
      modifies this`cachedTransform, this`cachedNormal, this`sharing, this`transform,
        bufferSet`sharingIds, bufferSet`sharings, bufferSet`extraSharings
      ensures Valid()
      ensures CacheHit(cacheSamePose, old(cachedTransform), old(cachedNormal), transformMatrix, normalMatrix) ==>
        && cachedTransform == old(cachedTransform) && cachedNormal == old(cachedNormal)
        && sharing == old(sharing) && transform == old(transform)
        && bufferSet.sharingIds == old(bufferSet.sharingIds) && bufferSet.sharings == old(bufferSet.sharings)
        && bufferSet.extraSharings == old(bufferSet.extraSharings)
      ensures !CacheHit(cacheSamePose, old(cachedTransform), old(cachedNormal), transformMatrix, normalMatrix) ==>
        && cachedTransform == Some(transformMatrix) && cachedNormal == Some(normalMatrix)
        && sharing == old(bufferSet.sharingIds) && bufferSet.sharingIds == old(bufferSet.sharingIds) + 1
        && transform == |old(bufferSet.sharings)|
        && bufferSet.sharings == old(bufferSet.sharings) + [PoseRecord(transformMatrix, normalMatrix, bufferSet.sharingFlags)]
        && bufferSet.extraSharings == old(bufferSet.extraSharings) + [transform]
    {
      if cacheSamePose && cachedTransform == Some(transformMatrix) && cachedNormal == Some(normalMatrix) {
        return;
      }
      cachedTransform := Some(transformMatrix);
      cachedNormal := Some(normalMatrix);
      sharing := bufferSet.GetSharing();
      transform := bufferSet.ReserveSharing();
      bufferSet.sharings := bufferSet.sharings[transform := PoseRecord(transformMatrix, normalMatrix, bufferSet.sharingFlags)];
      bufferSet.AddExtraSharings(transform);
    }

    /** `endTransform`: forgets the cached pose and the sharing record. */
    method EndTransform()
      requires Valid()
      modifies this`cachedTransform, this`cachedNormal, this`sharing, this`transform
      ensures Valid()
      ensures cachedTransform == None && cachedNormal == None && sharing == -1 && transform == -1
    {
      cachedTransform := None;
      cachedNormal := None;
      sharing := -1;
      transform := -1;
    }

    /** The varying stores both meshes end with: the sharing id, color,
        light and overlay into the first record, then selection id `i` into
        record `first + i` for every `i < size`. */
    method PutMeshVaryings(first: nat, size: nat, color: int, light: int, overlay: int)
      modifies bufferSet`varyings
      ensures bufferSet.varyings == SelectionIds(MeshHeader(old(bufferSet.varyings), first, sharing, color, light, overlay), first, size)
    {
      bufferSet.varyings := bufferSet.varyings[WordAddress(first, SharingWord) := sharing];
      bufferSet.varyings := bufferSet.varyings[WordAddress(first, ColorWord) := AbgrFromArgb(color)];
      bufferSet.varyings := bufferSet.varyings[WordAddress(first, LightWord) := light];
      bufferSet.varyings := bufferSet.varyings[WordAddress(first, OverlayWord) := overlay];
      ghost var header := bufferSet.varyings;
      for i := 0 to size
        invariant bufferSet.varyings == SelectionIds(header, first, i)
      {
        bufferSet.varyings := bufferSet.varyings[WordAddress(first + i, SelectionWord) := i];
      }
    }

    /** `addClientMesh`: `size` vertices copied from `vertexBuffer`, one
        element call for all of them, and one varying record each. */
    method AddClientMesh(vertexBuffer: seq<bv8>, size: int, color: int, light: int, overlay: int)
      requires Valid() && 0 <= size && vertexCount + size <= MaxInt32
      modifies this`vertexCount, bufferSet`elements, bufferSet`vertices, bufferSet`varyingCount, bufferSet`varyings,
        bufferSet`meshCopies, elementBuffer`calls
      ensures Valid()
      ensures vertexCount == old(vertexCount) + size
      ensures elementBuffer.calls == old(elementBuffer.calls) + [ElementCall(mode, old(bufferSet.elements), size)]
      ensures bufferSet.elements == old(bufferSet.elements) + size
      ensures bufferSet.vertices == old(bufferSet.vertices) + seq(size, _ => BlankVertex)
      ensures bufferSet.meshCopies
        == old(bufferSet.meshCopies) + [MeshCopy(vertexBuffer, |old(bufferSet.vertices)|, size * bufferSet.vertexSize)]
      ensures bufferSet.varyingCount == old(bufferSet.varyingCount) + size
      ensures bufferSet.varyings
        == SelectionIds(MeshHeader(old(bufferSet.varyings), old(bufferSet.varyingCount), sharing, color, light, overlay),
                        old(bufferSet.varyingCount), size)
    {
      ghost var calls := elementBuffer.calls;
      PutElements(size);
      ElementTotalAppend(calls, firstCall, ElementCall(mode, old(bufferSet.elements), size));
      vertexCount := vertexCount + size;
      var vertex := bufferSet.ReservePolygons(size);
      var varying := bufferSet.ReserveVaryings(size);
      var length := size * bufferSet.vertexSize;
      bufferSet.PutByteBuffer(vertexBuffer, vertex, length);
      PutMeshVaryings(varying, size, color, light, overlay);
    }

    /** `addServerMesh`: `size` vertices of a mesh already on the GPU at
        byte `offset`, one element call for all of them, one varying record
        each, and the mesh's first vertex stored in the current sharing
        record. */
    method AddServerMesh(offset: int, size: int, color: int, light: int, overlay: int)
      requires Valid() && 0 <= size && vertexCount + size <= MaxInt32 && transform != -1
      modifies this`vertexCount, bufferSet`elements, bufferSet`vertices, bufferSet`varyingCount, bufferSet`varyings,
        bufferSet`sharings, elementBuffer`calls
      ensures Valid()
      ensures vertexCount == old(vertexCount) + size
      ensures elementBuffer.calls == old(elementBuffer.calls) + [ElementCall(mode, old(bufferSet.elements), size)]
      ensures bufferSet.elements == old(bufferSet.elements) + size
      ensures bufferSet.vertices == old(bufferSet.vertices) + seq(size, _ => BlankVertex)
      ensures bufferSet.sharings
        == old(bufferSet.sharings)[transform := old(bufferSet.sharings)[transform].(mesh := Some(JavaDiv(offset, bufferSet.vertexSize)))]
      ensures bufferSet.varyingCount == old(bufferSet.varyingCount) + size
      ensures bufferSet.varyings
        == SelectionIds(MeshHeader(old(bufferSet.varyings), old(bufferSet.varyingCount), sharing, color, light, overlay),
                        old(bufferSet.varyingCount), size)
    {
      ghost var calls := elementBuffer.calls;
      PutElements(size);
      ElementTotalAppend(calls, firstCall, ElementCall(mode, old(bufferSet.elements), size));
      var _ := bufferSet.ReservePolygons(size);
      vertexCount := vertexCount + size;
      var varying := bufferSet.ReserveVaryings(size);
      bufferSet.sharings := bufferSet.sharings[transform := bufferSet.sharings[transform].(mesh := Some(JavaDiv(offset, bufferSet.vertexSize)))];
      PutMeshVaryings(varying, size, color, light, overlay);
    }

    /** `getVertexCount`: every vertex counted has its own vertex record,
        and is covered by an element call or pending in the primitive under
        construction. */
    function GetVertexCount(): (n: int)
      requires Valid()
      reads this, bufferSet`vertices, bufferSet`varyingCount, bufferSet`sharings, bufferSet`sharingIds, elementBuffer`calls
      ensures n == |bufferSet.vertices| - firstVertex
      ensures n == ElementTotal(elementBuffer.calls[firstCall..]) + elementCount
    {
      vertexCount
    }
  }
}
