// Cursor bitmaps: the server's chunks and the client's reassembly of them.

module CursorShape {
  import opened Basics

  const CURSOR_CHUNK_MAX := 1024

  type U16 = n: int | 0 <= n < 0x1_0000

  // What a shape's every chunk repeats.
  datatype Head = Head(shapeId: U32, width: U16, height: U16, hotspotX: U16, hotspotY: U16, totalLen: U32)

  datatype Chunk = Chunk(head: Head, offset: U32, data: Bytes)

  datatype Complete = Complete(bgra: Bytes, width: nat, height: nat, hotspotX: nat, hotspotY: nat)

  const HIDDEN := Complete([], 0, 0, 0, 0)

  datatype Assembly = Assembly(
    shapeId: U32, buf: Bytes, got: nat, width: nat, height: nat, hotspotX: nat, hotspotY: nat)

  function Zeros(n: nat): (z: Bytes)
    ensures |z| == n
  {
    seq(n, i => 0)
  }

  function Begun(a: Assembly, c: Chunk): Assembly {
    if c.head.shapeId != a.shapeId || c.offset == 0 then
      Assembly(c.head.shapeId, Zeros(c.head.totalLen), 0, c.head.width, c.head.height, c.head.hotspotX, c.head.hotspotY)
    else a
  }

  // `data` cut to what lies inside the buffer.
  function Placed(buf: Bytes, offset: nat, data: Bytes): (r: Bytes)
    ensures |r| == |buf|
  {
    var end := Min(offset + |data|, |buf|);
    var start := Min(offset, end);
    buf[..start] + data[..end - start] + buf[end..]
  }

  function Fits(buf: Bytes, offset: nat, data: Bytes): nat {
    var end := Min(offset + |data|, |buf|);
    end - Min(offset, end)
  }

  function Push(a: Assembly, c: Chunk): (Assembly, Option<Complete>) {
    var b := Begun(a, c);
    if c.head.width == 0 then (b, Some(HIDDEN)) else Take(b, c.data, c.offset)
  }

  function Take(b: Assembly, data: Bytes, offset: nat): (Assembly, Option<Complete>) {
    var filled := b.(buf := Placed(b.buf, offset, data), got := b.got + Fits(b.buf, offset, data));
    if filled.got >= |filled.buf| && filled.buf != [] then
      (filled.(buf := []), Some(Complete(filled.buf, filled.width, filled.height, filled.hotspotX, filled.hotspotY)))
    else (filled, None)
  }

  class CursorReassembler {
    var shapeId: U32
    var buf: array<Byte>
    var got: nat
    var width: nat
    var height: nat
    var hotspotX: nat
    var hotspotY: nat

    ghost function State(): Assembly
      reads this, buf
    {
      Assembly(shapeId, buf[..], got, width, height, hotspotX, hotspotY)
    }

    constructor ()
      ensures fresh(buf) && State() == Assembly(0, [], 0, 0, 0, 0, 0)
    {
      shapeId, got, width, height, hotspotX, hotspotY := 0, 0, 0, 0, 0, 0;
      buf := new Byte[0];
    }

    static method CopyFrom(to: array<Byte>, start: nat, data: Bytes)
      requires start + |data| <= to.Length
      modifies to
      ensures to[..] == old(to[..start]) + data + old(to[start + |data|..])
    {
      for i := 0 to |data|
        invariant to[..start] == old(to[..start]) && to[start + |data|..] == old(to[start + |data|..])
        invariant to[start..start + i] == data[..i]
      {
        to[start + i] := data[i];
      }
      assert to[..] == to[..start] + to[start..start + |data|] + to[start + |data|..];
    }

    method Accept(c: Chunk) returns (shape: Option<Complete>)
      modifies this, buf
      ensures (State(), shape) == Push(old(State()), c)
      ensures buf == old(buf) || fresh(buf)
    {
      Begin(c);
      if c.head.width == 0 {
        return Some(HIDDEN);
      }
      hide Begun, Take;
      shape := TakeIn(c.data, c.offset);
    }

    method Begin(c: Chunk)
      modifies this
      ensures State() == Begun(old(State()), c)
      ensures buf == old(buf) || fresh(buf)
    {
      if c.head.shapeId != shapeId || c.offset == 0 {
        shapeId := c.head.shapeId;
        buf := new Byte[c.head.totalLen](_ => 0);
        got := 0;
        width, height := c.head.width, c.head.height;
        hotspotX, hotspotY := c.head.hotspotX, c.head.hotspotY;
        assert buf[..] == Zeros(c.head.totalLen);
      }
    }

    method TakeIn(data: Bytes, offset: nat) returns (shape: Option<Complete>)
      modifies this`buf, this`got, buf
      ensures (State(), shape) == Take(old(State()), data, offset)
      ensures buf == old(buf) || fresh(buf)
    {
      var end := Min(offset + |data|, buf.Length);
      var start := Min(offset, end);
      CopyFrom(buf, start, data[..end - start]);
      assert buf[..] == Placed(old(buf[..]), offset, data);
      hide Placed;
      got := got + end - start;
      if got >= buf.Length && buf.Length > 0 {
        shape := Some(Complete(buf[..], width, height, hotspotX, hotspotY));
        buf := new Byte[0];
        assert buf[..] == [];
      } else {
        shape := None;
        assert buf.Length == 0 <==> buf[..] == [];
      }
    }
  }

  // ---- chunking --------------------------------------------------------------

  datatype Shape = Shape(shapeId: U32, width: U16, height: U16, hotspotX: U16, hotspotY: U16, bgra: Bytes)

  function HeadOf(s: Shape): Head {
    Head(s.shapeId, s.width, s.height, s.hotspotX, s.hotspotY, |s.bgra| % U32_SPAN)
  }

  function ChunkAt(s: Shape, offset: nat): Chunk
    requires offset <= |s.bgra|
  {
    Chunk(HeadOf(s), offset % U32_SPAN, s.bgra[offset..Min(offset + CURSOR_CHUNK_MAX, |s.bgra|)])
  }

  function ChunksFrom(s: Shape, offset: nat): seq<Chunk>
    requires offset <= |s.bgra|
    decreases |s.bgra| - offset
  {
    var end := Min(offset + CURSOR_CHUNK_MAX, |s.bgra|);
    [ChunkAt(s, offset)] + if end >= |s.bgra| then [] else ChunksFrom(s, end)
  }

  lemma NextChunk(s: Shape, offset: nat)
    requires offset <= |s.bgra|
    ensures var end := Min(offset + CURSOR_CHUNK_MAX, |s.bgra|);
            ChunksFrom(s, offset)
            == [Chunk(HeadOf(s), offset % U32_SPAN, s.bgra[offset..end])]
               + if end >= |s.bgra| then [] else ChunksFrom(s, end)
  {
  }

  method ChunkShape(s: Shape) returns (chunks: seq<Chunk>)
    ensures chunks == ChunksFrom(s, 0)
  {
    hide ChunksFrom, ChunkAt, HeadOf;
    chunks := [];
    var offset := 0;
    while true
      invariant 0 <= offset <= |s.bgra| && (offset > 0 ==> offset < |s.bgra|)
      invariant chunks + ChunksFrom(s, offset) == ChunksFrom(s, 0)
      decreases |s.bgra| - offset
    {
      var end := Min(offset + CURSOR_CHUNK_MAX, |s.bgra|);
      var chunk := Chunk(HeadOf(s), offset % U32_SPAN, s.bgra[offset..end]);
      NextChunk(s, offset);
      if end < |s.bgra| {
        Regroup(chunks, [chunk], ChunksFrom(s, end));
      }
      chunks := chunks + [chunk];
      offset := end;
      if offset >= |s.bgra| {
        break;
      }
    }
  }

  // ---- the round trip --------------------------------------------------------

  function PushAll(a: Assembly, chunks: seq<Chunk>): (Assembly, seq<Option<Complete>>)
    decreases |chunks|
  {
    if chunks == [] then (a, [])
    else
      var (b, first) := Push(a, chunks[0]);
      var (c, rest) := PushAll(b, chunks[1..]);
      (c, [first] + rest)
  }

  // What the server sends: a bitmap of its own size, or that the cursor is hidden.
  predicate Sendable(s: Shape) {
    |s.bgra| < U32_SPAN && (s.width == 0 <==> s.bgra == [])
  }

  function Nones(n: nat): seq<Option<Complete>> {
    if n == 0 then [] else [None] + Nones(n - 1)
  }

  function CompleteOf(s: Shape): Complete {
    if s.width == 0 then HIDDEN else Complete(s.bgra, s.width, s.height, s.hotspotX, s.hotspotY)
  }

  // The bitmap filled up to `offset`.
  ghost predicate Filled(a: Assembly, s: Shape, offset: nat)
    requires offset <= |s.bgra|
  {
    a == Assembly(s.shapeId, s.bgra[..offset] + Zeros(|s.bgra| - offset), offset,
                  s.width, s.height, s.hotspotX, s.hotspotY)
  }

  lemma PushFills(a: Assembly, s: Shape, offset: nat)
    requires Sendable(s) && s.width != 0 && offset < |s.bgra|
    requires offset > 0 ==> Filled(a, s, offset)
    ensures var end := Min(offset + CURSOR_CHUNK_MAX, |s.bgra|);
            var (b, r) := Push(a, ChunkAt(s, offset));
            if end == |s.bgra| then r == Some(CompleteOf(s)) else r == None && Filled(b, s, end)
  {
    var c := ChunkAt(s, offset);
    BegunIsFilled(a, s, offset);
    ChunkCarries(s, offset);
    hide Begun, Take, Filled, ChunkAt, CompleteOf, Sendable;
    TakeFills(Begun(a, c), s, offset, Min(offset + CURSOR_CHUNK_MAX, |s.bgra|));
  }

  lemma ChunkCarries(s: Shape, offset: nat)
    requires Sendable(s) && offset <= |s.bgra|
    ensures var c := ChunkAt(s, offset);
            && c.head.width == s.width && c.offset == offset
            && c.data == s.bgra[offset..Min(offset + CURSOR_CHUNK_MAX, |s.bgra|)]
  {
  }

  lemma TakeFills(b: Assembly, s: Shape, offset: nat, end: nat)
    requires offset < end <= |s.bgra| && s.width != 0 && Filled(b, s, offset)
    ensures var (b', r) := Take(b, s.bgra[offset..end], offset);
            if end == |s.bgra| then r == Some(CompleteOf(s)) else r == None && Filled(b', s, end)
  {
    FillOne(s.bgra, offset, end);
    FitsWhole(b.buf, offset, s.bgra[offset..end]);
    hide Zeros, Placed, Fits;
  }

  lemma FitsWhole(buf: Bytes, offset: nat, data: Bytes)
    requires offset + |data| <= |buf|
    ensures Fits(buf, offset, data) == |data|
  {
  }

  lemma BegunIsFilled(a: Assembly, s: Shape, offset: nat)
    requires Sendable(s) && offset < |s.bgra| && (offset > 0 ==> Filled(a, s, offset))
    ensures Filled(Begun(a, ChunkAt(s, offset)), s, offset)
  {
    if offset == 0 {
      assert s.bgra[..0] + Zeros(|s.bgra|) == Zeros(|s.bgra|);
    }
  }

  lemma FillOne(bgra: Bytes, offset: nat, end: nat)
    requires offset <= end <= |bgra|
    ensures var buf := bgra[..offset] + Zeros(|bgra| - offset);
            Placed(buf, offset, bgra[offset..end]) == bgra[..end] + Zeros(|bgra| - end)
    ensures end == |bgra| ==> bgra[..end] + Zeros(0) == bgra
  {
    var n := |bgra|;
    var buf := bgra[..offset] + Zeros(n - offset);
    assert buf[..offset] == bgra[..offset] && buf[end..] == Zeros(n - end);
    assert bgra[..offset] + bgra[offset..end] == bgra[..end];
    assert bgra[offset..end][..end - offset] == bgra[offset..end];
  }

  lemma {:induction false} ChunksComplete(a: Assembly, s: Shape, offset: nat)
    requires Sendable(s) && s.width != 0 && offset < |s.bgra|
    requires offset > 0 ==> Filled(a, s, offset)
    ensures PushAll(a, ChunksFrom(s, offset)).1 == Nones(|ChunksFrom(s, offset)| - 1) + [Some(CompleteOf(s))]
    decreases |s.bgra| - offset
  {
    hide Push, Filled, ChunkAt, ChunksFrom, PushAll, Nones;
    var end := Min(offset + CURSOR_CHUNK_MAX, |s.bgra|);
    var chunks := ChunksFrom(s, offset);
    PushFills(a, s, offset);
    ChunksUnroll(s, offset);
    PushAllUnrolls(a, chunks);
    var (b, r) := Push(a, chunks[0]);
    if end == |s.bgra| {
      PushAllUnrolls(b, []);
      NonesUnroll(0);
    } else {
      ChunksComplete(b, s, end);
      NonesUnroll(|chunks| - 1);
      Regroup([None], Nones(|chunks| - 2), [Some(CompleteOf(s))]);
    }
  }

  lemma ChunksUnroll(s: Shape, offset: nat)
    requires offset <= |s.bgra|
    ensures var chunks, end := ChunksFrom(s, offset), Min(offset + CURSOR_CHUNK_MAX, |s.bgra|);
            && |chunks| > 0 && chunks[0] == ChunkAt(s, offset)
            && (end < |s.bgra| ==> |ChunksFrom(s, end)| > 0)
            && chunks[1..] == if end >= |s.bgra| then [] else ChunksFrom(s, end)
  {
  }

  lemma PushAllUnrolls(a: Assembly, chunks: seq<Chunk>)
    ensures PushAll(a, chunks).1 ==
            if chunks == [] then [] else [Push(a, chunks[0]).1] + PushAll(Push(a, chunks[0]).0, chunks[1..]).1
  {
  }

  lemma NonesUnroll(n: nat)
    ensures Nones(n) == if n == 0 then [] else [None] + Nones(n - 1)
  {
  }

  /**
   * Whatever the reassembler held before, a shape's chunks pushed in order give
   * nothing until the last and then exactly the shape.
   */
  lemma ShapeRoundTrips(a: Assembly, s: Shape)
    requires Sendable(s)
    ensures PushAll(a, ChunksFrom(s, 0)).1 == Nones(|ChunksFrom(s, 0)| - 1) + [Some(CompleteOf(s))]
  {
    if s.width != 0 {
      ChunksComplete(a, s, 0);
    } else {
      var chunks := ChunksFrom(s, 0);
      assert chunks[1..] == [] && PushAll(Push(a, chunks[0]).0, []).1 == [];
    }
  }

  function ChunksOf(shapes: seq<Shape>): seq<Chunk> {
    if shapes == [] then [] else ChunksFrom(shapes[0], 0) + ChunksOf(shapes[1..])
  }

  // The shapes completed, in order.
  function Completed(results: seq<Option<Complete>>): seq<Complete> {
    if results == [] then []
    else (if results[0].Some? then [results[0].value] else []) + Completed(results[1..])
  }

  lemma {:induction false} PushAllSplits(a: Assembly, x: seq<Chunk>, y: seq<Chunk>)
    ensures PushAll(a, x + y).1 == PushAll(a, x).1 + PushAll(PushAll(a, x).0, y).1
    decreases |x|
  {
    hide Push;
    if x == [] {
      assert x + y == y;
    } else {
      assert (x + y)[0] == x[0] && (x + y)[1..] == x[1..] + y;
      PushAllSplits(Push(a, x[0]).0, x[1..], y);
    }
  }

  lemma {:induction false} CompletedSplits(x: seq<Option<Complete>>, y: seq<Option<Complete>>)
    ensures Completed(x + y) == Completed(x) + Completed(y)
    decreases |x|
  {
    if x == [] {
      assert x + y == y;
    } else {
      assert (x + y)[0] == x[0] && (x + y)[1..] == x[1..] + y;
      CompletedSplits(x[1..], y);
    }
  }

  lemma {:induction false} NonesComplete(n: nat, last: Complete)
    ensures Completed(Nones(n) + [Some(last)]) == [last]
  {
    if n == 0 {
      assert Nones(0) + [Some(last)] == [Some(last)];
      assert [Some(last)][1..] == [];
    } else {
      assert (Nones(n) + [Some(last)])[1..] == Nones(n - 1) + [Some(last)];
      NonesComplete(n - 1, last);
    }
  }

  function CompletesOf(shapes: seq<Shape>): seq<Complete> {
    if shapes == [] then [] else [CompleteOf(shapes[0])] + CompletesOf(shapes[1..])
  }

  /** A session's shapes, whatever their ids, come out as they went in, each once. */
  lemma {:induction false} EveryShapeArrives(a: Assembly, shapes: seq<Shape>)
    requires forall s :: s in shapes ==> Sendable(s)
    ensures Completed(PushAll(a, ChunksOf(shapes)).1) == CompletesOf(shapes)
    decreases |shapes|
  {
    hide CompleteOf, ChunksFrom, Nones;
    if shapes != [] {
      var first, rest := ChunksFrom(shapes[0], 0), ChunksOf(shapes[1..]);
      PushAllSplits(a, first, rest);
      ShapeRoundTrips(a, shapes[0]);
      CompletedSplits(PushAll(a, first).1, PushAll(PushAll(a, first).0, rest).1);
      NonesComplete(|first| - 1, CompleteOf(shapes[0]));
      EveryShapeArrives(PushAll(a, first).0, shapes[1..]);
    }
  }

  // Every chunk fits the message that carries it, and they are the bitmap.
  lemma {:induction false} ChunksAreTheBitmap(s: Shape, offset: nat, k: nat)
    requires offset <= |s.bgra| && k < |ChunksFrom(s, offset)|
    ensures var at := offset + k * CURSOR_CHUNK_MAX;
            && at <= |s.bgra|
            && ChunksFrom(s, offset)[k] == ChunkAt(s, at)
            && |ChunksFrom(s, offset)[k].data| == Min(CURSOR_CHUNK_MAX, |s.bgra| - at)
    decreases k
  {
    var end := Min(offset + CURSOR_CHUNK_MAX, |s.bgra|);
    if k > 0 {
      assert ChunksFrom(s, offset)[1..] == ChunksFrom(s, end);
      ChunksAreTheBitmap(s, end, k - 1);
    }
  }

  // ---- chunks of other shapes ------------------------------------------------

  // A chunk of another shape than the one before it, or a first chunk, begins
  // over: what it and all after it give does not depend on anything that came
  // earlier, so no bitmap mixes two shapes.
  lemma NoShapeIsMixed(a: Assembly, b: Assembly, lastA: Chunk, lastB: Chunk, c: Chunk, rest: seq<Chunk>)
    requires c.offset == 0 || (c.head.shapeId != lastA.head.shapeId && c.head.shapeId != lastB.head.shapeId)
    ensures PushAll(Push(a, lastA).0, [c] + rest) == PushAll(Push(b, lastB).0, [c] + rest)
  {
    assert Push(Push(a, lastA).0, c) == Push(Push(b, lastB).0, c) by {
      hide Placed, Fits, Zeros;
    }
    hide Push;
    assert ([c] + rest)[0] == c;
  }

  // A shape completed is not completed again by a later chunk of it.
  lemma NothingCompletesTwice(a: Assembly, c: Chunk, d: Chunk)
    requires c.head.width != 0 && d.head.width != 0 && Push(a, c).1.Some?
    requires d.head.shapeId == c.head.shapeId && d.offset > 0
    ensures Push(Push(a, c).0, d).1 == None
  {
    hide Zeros;
  }

  // Of a chunk that reaches past the end of the bitmap only the part inside
  // counts.
  lemma PastTheEndIsCut(a: Assembly, c: Chunk)
    requires c.offset <= |Begun(a, c).buf| <= c.offset + |c.data|
    ensures Push(a, c) == Push(a, c.(data := c.data[..|Begun(a, c).buf| - c.offset]))
  {
    var buf := Begun(a, c).buf;
    var inside := c.data[..|buf| - c.offset];
    assert inside[..|buf| - c.offset] == inside;
    hide Zeros;
  }
}
