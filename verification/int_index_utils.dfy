/** Index generation for a primitive mode (`IntIndexUtils`): each operation
    reserves room in a client buffer and fills it with 32-bit vertex indices.
    Every method is proved against a function giving the index sequence it
    writes; the lemmas below say what those sequences are. */
module IntIndexUtils {
  import opened JavaTypes
  import opened VertexFormats
  import opened ClientBuffers

  /** The six indices of one quad starting at vertex `b`: two triangles. */
  function QuadGroup(b: int): seq<int> {
    [b, b + 1, b + 2, b + 2, b + 3, b]
  }

  /** The six indices of one line group starting at vertex `b`. */
  function LineGroup(b: int): seq<int> {
    [b, b + 1, b + 2, b + 2, b + 3, b + 1]
  }

  /** A quad group uses exactly the quad's four vertices `b` to `b + 3`; so
      does a line group, whose last vertex, the stride being 3, is the first
      vertex of the next line group. */
  lemma GroupVertices(b: int)
    ensures forall x :: x in QuadGroup(b) <==> b <= x <= b + 3
    ensures forall x :: x in LineGroup(b) <==> b <= x <= b + 3
    ensures LineGroup(b)[4] == LineGroup(b + 3)[0]
  {
  }

  /** `quadCount` quad groups, the group of quad `i` based at `startIndex + 4 * i`. */
  function QuadIndices(startIndex: int, quadCount: nat): seq<int>
    decreases quadCount
  {
    if quadCount == 0 then []
    else QuadIndices(startIndex, quadCount - 1) + QuadGroup(startIndex + 4 * (quadCount - 1))
  }

  /** `groupCount` line groups, the group `i` based at `startIndex + 3 * i`. */
  function LineIndices(startIndex: int, groupCount: nat): seq<int>
    decreases groupCount
  {
    if groupCount == 0 then []
    else LineIndices(startIndex, groupCount - 1) + LineGroup(startIndex + 3 * (groupCount - 1))
  }

  /** The indices `startIndex`, `startIndex + 1`, ... of `count` vertices. */
  function SequentialIndices(startIndex: int, count: nat): seq<int>
    decreases count
  {
    if count == 0 then []
    else SequentialIndices(startIndex, count - 1) + [startIndex + count - 1]
  }

  lemma {:induction false} QuadIndicesLength(startIndex: int, quadCount: nat)
    ensures |QuadIndices(startIndex, quadCount)| == 6 * quadCount
    decreases quadCount
  {
    if quadCount > 0 {
      QuadIndicesLength(startIndex, quadCount - 1);
    }
  }

  /** Word `6 * i + k` of the quad indices is word `k` of quad `i`'s group. */
  lemma {:induction false} QuadIndicesAt(startIndex: int, quadCount: nat, i: nat, k: nat)
    requires i < quadCount && k < 6
    ensures |QuadIndices(startIndex, quadCount)| == 6 * quadCount
    ensures QuadIndices(startIndex, quadCount)[6 * i + k] == QuadGroup(startIndex + 4 * i)[k]
    decreases quadCount
  {
    QuadIndicesLength(startIndex, quadCount);
    QuadIndicesLength(startIndex, quadCount - 1);
    if i < quadCount - 1 {
      QuadIndicesAt(startIndex, quadCount - 1, i, k);
    }
  }

  /** Quad `i` occupies words `6 * i` to `6 * i + 5` and holds the two
      triangles of the quad based at `startIndex + 4 * i`. */
  lemma QuadIndicesGroup(startIndex: int, quadCount: nat, i: nat)
    requires i < quadCount
    ensures |QuadIndices(startIndex, quadCount)| == 6 * quadCount
    ensures QuadIndices(startIndex, quadCount)[6 * i .. 6 * i + 6] == QuadGroup(startIndex + 4 * i)
  {
    QuadIndicesLength(startIndex, quadCount);
    var group := QuadIndices(startIndex, quadCount)[6 * i .. 6 * i + 6];
    var expected := QuadGroup(startIndex + 4 * i);
    forall k | 0 <= k < 6
      ensures group[k] == expected[k]
    {
      QuadIndicesAt(startIndex, quadCount, i, k);
    }
  }

  /** Every quad index lies in `[startIndex, startIndex + 4 * quadCount)`. */
  lemma QuadIndicesRange(startIndex: int, quadCount: nat)
    ensures forall k :: 0 <= k < |QuadIndices(startIndex, quadCount)| ==>
      startIndex <= QuadIndices(startIndex, quadCount)[k] < startIndex + 4 * quadCount
  {
    var s := QuadIndices(startIndex, quadCount);
    QuadIndicesLength(startIndex, quadCount);
    forall k | 0 <= k < |s|
      ensures startIndex <= s[k] < startIndex + 4 * quadCount
    {
      var i := k / 6;
      QuadIndicesGroup(startIndex, quadCount, i);
      assert s[k] == s[6 * i .. 6 * i + 6][k - 6 * i];
    }
  }

  lemma {:induction false} LineIndicesLength(startIndex: int, groupCount: nat)
    ensures |LineIndices(startIndex, groupCount)| == 6 * groupCount
    decreases groupCount
  {
    if groupCount > 0 {
      LineIndicesLength(startIndex, groupCount - 1);
    }
  }

  /** Word `6 * i + k` of the line indices is word `k` of group `i`. */
  lemma {:induction false} LineIndicesAt(startIndex: int, groupCount: nat, i: nat, k: nat)
    requires i < groupCount && k < 6
    ensures |LineIndices(startIndex, groupCount)| == 6 * groupCount
    ensures LineIndices(startIndex, groupCount)[6 * i + k] == LineGroup(startIndex + 3 * i)[k]
    decreases groupCount
  {
    LineIndicesLength(startIndex, groupCount);
    LineIndicesLength(startIndex, groupCount - 1);
    if i < groupCount - 1 {
      LineIndicesAt(startIndex, groupCount - 1, i, k);
    }
  }

  /** Line group `i` occupies words `6 * i` to `6 * i + 5` and holds the
      group based at `startIndex + 3 * i`. */
  lemma LineIndicesGroup(startIndex: int, groupCount: nat, i: nat)
    requires i < groupCount
    ensures |LineIndices(startIndex, groupCount)| == 6 * groupCount
    ensures LineIndices(startIndex, groupCount)[6 * i .. 6 * i + 6] == LineGroup(startIndex + 3 * i)
  {
    LineIndicesLength(startIndex, groupCount);
    var group := LineIndices(startIndex, groupCount)[6 * i .. 6 * i + 6];
    var expected := LineGroup(startIndex + 3 * i);
    forall k | 0 <= k < 6
      ensures group[k] == expected[k]
    {
      LineIndicesAt(startIndex, groupCount, i, k);
    }
  }

  /** Element `i` of the sequential indices is `startIndex + i`. */
  lemma {:induction false} SequentialIndicesAt(startIndex: int, count: nat)
    ensures |SequentialIndices(startIndex, count)| == count
    ensures forall i :: 0 <= i < count ==> SequentialIndices(startIndex, count)[i] == startIndex + i
    decreases count
  {
    if count > 0 {
      SequentialIndicesAt(startIndex, count - 1);
    }
  }

  /** The six stores of one quad group at word `b`, first vertex `x`. */
  function QuadStores(w: map<int, int>, b: int, x: int): map<int, int> {
    w[b := x][b + 1 := x + 1][b + 2 := x + 2][b + 3 := x + 2][b + 4 := x + 3][b + 5 := x]
  }

  /** The six stores of one line group at word `b`, first vertex `x`. */
  function LineStores(w: map<int, int>, b: int, x: int): map<int, int> {
    w[b := x][b + 1 := x + 1][b + 2 := x + 2][b + 3 := x + 2][b + 4 := x + 3][b + 5 := x + 1]
  }

  /** Writing quad `i` extends the memory holding the first `i` quads by
      the six stores of the source's loop body. */
  lemma QuadIndicesStep(m: map<int, int>, at: int, startIndex: int, i: nat)
    ensures Overlay(m, at, QuadIndices(startIndex, i + 1))
      == QuadStores(Overlay(m, at, QuadIndices(startIndex, i)), at + i * 6, startIndex + i * 4)
  {
    var x := startIndex + 4 * i;
    QuadIndicesLength(startIndex, i);
    assert QuadIndices(startIndex, i + 1) == QuadIndices(startIndex, i) + [x, x + 1, x + 2, x + 2, x + 3, x];
    OverlayGroup(m, at, QuadIndices(startIndex, i), x, x + 1, x + 2, x + 2, x + 3, x);
  }

  /** Writing line group `i` extends the memory holding the first `i` groups
      by the six stores of the source's loop body. */
  lemma LineIndicesStep(m: map<int, int>, at: int, startIndex: int, i: nat)
    ensures Overlay(m, at, LineIndices(startIndex, i + 1))
      == LineStores(Overlay(m, at, LineIndices(startIndex, i)), at + i * 6, startIndex + i * 3)
  {
    var x := startIndex + 3 * i;
    LineIndicesLength(startIndex, i);
    assert LineIndices(startIndex, i + 1) == LineIndices(startIndex, i) + [x, x + 1, x + 2, x + 2, x + 3, x + 1];
    OverlayGroup(m, at, LineIndices(startIndex, i), x, x + 1, x + 2, x + 2, x + 3, x + 1);
  }

  /** Writing index `i` extends the memory holding the first `i` indices by one store. */
  lemma SequentialIndicesStep(m: map<int, int>, at: int, startIndex: int, i: nat)
    ensures Overlay(m, at, SequentialIndices(startIndex, i + 1))
      == Overlay(m, at, SequentialIndices(startIndex, i))[at + i := startIndex + i]
  {
    SequentialIndicesAt(startIndex, i);
    OverlaySnoc(m, at, SequentialIndices(startIndex, i), startIndex + i);
  }

  /** The body of `putQuadIndices`' loop: the six stores of one quad. */
  method PutQuadGroup(buffer: ClientBuffer, offset: int, index: int)
    modifies buffer`words
    ensures buffer.words == QuadStores(old(buffer.words), offset, index)
  {
    buffer.PutInt(offset + 0, index + 0);
    buffer.PutInt(offset + 1, index + 1);
    buffer.PutInt(offset + 2, index + 2);
    buffer.PutInt(offset + 3, index + 2);
    buffer.PutInt(offset + 4, index + 3);
    buffer.PutInt(offset + 5, index + 0);
  }

  /** The body of `putLineIndices`' loop: the six stores of one line group. */
  method PutLineGroup(buffer: ClientBuffer, offset: int, index: int)
    modifies buffer`words
    ensures buffer.words == LineStores(old(buffer.words), offset, index)
  {
    buffer.PutInt(offset + 0, index + 0);
    buffer.PutInt(offset + 1, index + 1);
    buffer.PutInt(offset + 2, index + 2);
    buffer.PutInt(offset + 3, index + 2);
    buffer.PutInt(offset + 4, index + 3);
    buffer.PutInt(offset + 5, index + 1);
  }

  /** `putQuadIndices`: two triangles for each of `quadCount` quads. */
  method PutQuadIndices(buffer: ClientBuffer, startIndex: int, quadCount: int)
    requires IsInt32(startIndex) && 0 <= quadCount
    requires startIndex + 4 * quadCount - 1 <= MaxInt32
    modifies buffer`words, buffer`reserved, buffer`reservations
    ensures buffer.reservations == old(buffer.reservations) + (if quadCount == 0 then [] else [6 * quadCount])
    ensures buffer.reserved == old(buffer.reserved) + 6 * quadCount
    ensures buffer.words == Overlay(old(buffer.words), old(buffer.reserved), QuadIndices(startIndex, quadCount))
  {
    if quadCount == 0 {
      return;
    }
    var address := buffer.Reserve(6 * quadCount);
    ghost var before := buffer.words;
    var i := 0;
    while i < quadCount
      invariant 0 <= i <= quadCount
      modifies buffer`words
      invariant buffer.words == Overlay(before, address, QuadIndices(startIndex, i))
    {
      var index := startIndex + i * 4;
      var offset := address + i * 6;
      PutQuadGroup(buffer, offset, index);
      QuadIndicesStep(before, address, startIndex, i);
      i := i + 1;
    }
  }

  /** `putLineIndices`: reserves `lineCount` groups but, its loop bound being
      inclusive, writes `lineCount + 1` of them. */
  method PutLineIndices(buffer: ClientBuffer, startIndex: int, lineCount: int)
    requires IsInt32(startIndex) && 0 <= lineCount
    requires lineCount == 0 || startIndex + 3 * lineCount + 3 <= MaxInt32
    modifies buffer`words, buffer`reserved, buffer`reservations
    ensures buffer.reservations == old(buffer.reservations) + (if lineCount == 0 then [] else [6 * lineCount])
    ensures buffer.reserved == old(buffer.reserved) + 6 * lineCount
    ensures buffer.words == Overlay(old(buffer.words), old(buffer.reserved),
                                    if lineCount == 0 then [] else LineIndices(startIndex, lineCount + 1))
  {
    if lineCount == 0 {
      return;
    }
    var address := buffer.Reserve(6 * lineCount);
    ghost var before := buffer.words;
    var i := 0;
    while i <= lineCount
      invariant 0 <= i <= lineCount + 1
      modifies buffer`words
      invariant buffer.words == Overlay(before, address, LineIndices(startIndex, i))
    {
      var index := startIndex + i * 3;
      var offset := address + i * 6;
      PutLineGroup(buffer, offset, index);
      LineIndicesStep(before, address, startIndex, i);
      i := i + 1;
    }
  }

  /** `putSequentialIndices`: one index per vertex, in order. */
  method PutSequentialIndices(buffer: ClientBuffer, startIndex: int, vertexCount: int)
    requires IsInt32(startIndex) && 0 <= vertexCount
    requires startIndex + vertexCount - 1 <= MaxInt32
    modifies buffer`words, buffer`reserved, buffer`reservations
    ensures buffer.reservations == old(buffer.reservations) + (if vertexCount == 0 then [] else [vertexCount])
    ensures buffer.reserved == old(buffer.reserved) + vertexCount
    ensures buffer.words == Overlay(old(buffer.words), old(buffer.reserved), SequentialIndices(startIndex, vertexCount))
  {
    if vertexCount == 0 {
      return;
    }
    var address := buffer.Reserve(vertexCount);
    ghost var before := buffer.words;
    var i := 0;
    while i < vertexCount
      invariant 0 <= i <= vertexCount
      modifies buffer`words
      invariant buffer.words == Overlay(before, address, SequentialIndices(startIndex, i))
    {
      buffer.PutInt(address + i, startIndex + i);
      SequentialIndicesStep(before, address, startIndex, i);
      i := i + 1;
    }
  }

  /** The words `putIndices` reserves for `vertexCount` vertices of `mode`. */
  function ReservedWords(mode: Mode, vertexCount: nat): nat {
    match mode
    case Quads => 6 * (vertexCount / Quads.PrimitiveLength())
    case Lines => 6 * (vertexCount / Lines.PrimitiveLength())
    case _ => vertexCount
  }

  /** The indices `putIndices` writes, from the start of its reservation, for
      `vertexCount` vertices of `mode`. */
  function WrittenIndices(mode: Mode, startIndex: int, vertexCount: nat): seq<int> {
    match mode
    case Quads => QuadIndices(startIndex, vertexCount / Quads.PrimitiveLength())
    case Lines =>
      var lineCount := vertexCount / Lines.PrimitiveLength();
      if lineCount == 0 then [] else LineIndices(startIndex, lineCount + 1)
    case _ => SequentialIndices(startIndex, vertexCount)
  }

  /** Every index `putIndices` writes fits in a Java `int`; a mode that
      writes nothing asks nothing more of the start index. */
  predicate IndicesFit(mode: Mode, startIndex: int, vertexCount: nat) {
    && IsInt32(startIndex)
    && match mode
       case Quads => startIndex + 4 * (vertexCount / Quads.PrimitiveLength()) - 1 <= MaxInt32
       case Lines =>
         var lineCount := vertexCount / Lines.PrimitiveLength();
         lineCount == 0 || startIndex + 3 * lineCount + 3 <= MaxInt32
       case _ => startIndex + vertexCount - 1 <= MaxInt32
  }

  /** `putIndices`: quads and lines by their group counts (integer division
      drops a partial primitive), every other mode sequentially. */
  method PutIndices(mode: Mode, buffer: ClientBuffer, startIndex: int, vertexCount: int)
    requires 0 <= vertexCount && IndicesFit(mode, startIndex, vertexCount)
    modifies buffer`words, buffer`reserved, buffer`reservations
    ensures buffer.reservations == old(buffer.reservations)
      + (if ReservedWords(mode, vertexCount) == 0 then [] else [ReservedWords(mode, vertexCount)])
    ensures buffer.reserved == old(buffer.reserved) + ReservedWords(mode, vertexCount)
    ensures buffer.words == Overlay(old(buffer.words), old(buffer.reserved), WrittenIndices(mode, startIndex, vertexCount))
  {
    match mode
    case Quads =>
      PutQuadIndices(buffer, startIndex, vertexCount / Quads.PrimitiveLength());
    case Lines =>
      PutLineIndices(buffer, startIndex, vertexCount / Lines.PrimitiveLength());
    case _ =>
      PutSequentialIndices(buffer, startIndex, vertexCount);
  }

  /** What `putIndices` writes fills its reservation exactly, except for
      lines, where one group more than was reserved is written. */
  lemma WrittenIndicesLength(mode: Mode, startIndex: int, vertexCount: nat)
    ensures |WrittenIndices(mode, startIndex, vertexCount)|
      == ReservedWords(mode, vertexCount) + (if mode.Lines? && vertexCount / 2 > 0 then 6 else 0)
  {
    match mode
    case Quads => QuadIndicesLength(startIndex, vertexCount / 4);
    case Lines => LineIndicesLength(startIndex, vertexCount / 2 + 1);
    case _ => SequentialIndicesAt(startIndex, vertexCount);
  }

  /** After `putLineIndices`, the reserved words hold `lineCount` groups and the
      six words just past the reservation hold one more group. */
  lemma LineOverrun(m: map<int, int>, address: int, startIndex: int, lineCount: nat)
    requires lineCount > 0
    ensures |LineIndices(startIndex, lineCount)| == 6 * lineCount
    ensures var w := Overlay(m, address, LineIndices(startIndex, lineCount + 1));
      forall a :: address <= a < address + 6 * lineCount ==>
        a in w && w[a] == LineIndices(startIndex, lineCount)[a - address]
    ensures var w := Overlay(m, address, LineIndices(startIndex, lineCount + 1));
      var end := address + 6 * lineCount;
      forall a :: end <= a < end + 6 ==>
        a in w && w[a] == LineGroup(startIndex + 3 * lineCount)[a - end]
  {
    var all := LineIndices(startIndex, lineCount + 1);
    assert all == LineIndices(startIndex, lineCount) + LineGroup(startIndex + 3 * lineCount);
    LineIndicesLength(startIndex, lineCount);
    forall a | address <= a < address + 6 * lineCount + 6
      ensures a in Overlay(m, address, all) && Overlay(m, address, all)[a] == all[a - address]
    {
      OverlayAt(m, address, all, a - address);
    }
  }

  /** Small cases pinned down: quads of four vertices, the empty input of
      every mode, and the written and reserved sizes for one and two lines. */
  lemma IndexCountsPinned(b: int)
    ensures WrittenIndices(Quads, b, 4) == [b, b + 1, b + 2, b + 2, b + 3, b]
    ensures forall mode: Mode :: WrittenIndices(mode, b, 0) == [] && ReservedWords(mode, 0) == 0
    ensures WrittenIndices(Lines, b, 2) == [b, b + 1, b + 2, b + 2, b + 3, b + 1, b + 3, b + 4, b + 5, b + 5, b + 6, b + 4]
    ensures ReservedWords(Lines, 2) == 6
    ensures |WrittenIndices(Lines, b, 4)| == 18 && ReservedWords(Lines, 4) == 12
  {
    LineIndicesLength(b, 3);
  }
}
