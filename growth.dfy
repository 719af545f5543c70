/**
 What one call of the fractal tree generator produces, as values.

 A call at `level` from `start` towards `direction` draws one segment and,
 when `level > 0`, tries the eight growth directions in order, drawing one
 random byte for each and recursing one level down for those that differ
 from `direction` and whose byte is below the completeness factor. The
 random bytes come from an injected stream read at a cursor.

 `Generate` records the whole call tree as a `Branch` together with the
 cursor after the last draw. `Emit` lists the vertices the call appends to
 the tree's vertex buffer (two per segment, depth first), `Positions` the
 indices it appends to the index buffer.
 */
module Growth {
  import opened Geometry

  /** One call of the generator: its arguments and the calls it made, in order. */
  datatype Branch = Branch(level: nat, start: Point, direction: Direction, subBranches: seq<Branch>)

  /** A value together with the stream cursor after the draws that produced it. */
  datatype Drawn<T> = Drawn(value: T, cursor: nat)

  /** The end point of a branch's own segment. */
  function End(b: Branch): Point {
    EndPoint(b.start, b.direction, b.level)
  }

  /** The call tree grown from `start` towards `direction` at `level`, reading the stream from `cursor`. */
  function Generate(stream: nat -> Byte, cursor: nat, level: nat, start: Point, cf: Byte, direction: Direction)
    : Drawn<Branch>
    decreases level, 1, 0
  {
    if level == 0 then
      Drawn(Branch(0, start, direction, []), cursor)
    else
      var kids := GrowSubBranches(stream, [], cursor, level, EndPoint(start, direction, level), cf, direction, 0);
      Drawn(Branch(level, start, direction, kids.value), kids.cursor)
  }

  /**
   The loop over GROWTH_DIRECTIONS from position `i` on, with the sub-branches
   grown so far in `acc`: one draw per direction, and a sub-branch from `end`
   one level down when the direction is not `parent` and the draw is below `cf`.
   */
  function GrowSubBranches(stream: nat -> Byte, acc: seq<Branch>, cursor: nat, level: nat, end: Point,
                           cf: Byte, parent: Direction, i: nat): Drawn<seq<Branch>>
    requires 0 < level && i <= 8
    decreases level, 0, 8 - i
  {
    if i == 8 then
      Drawn(acc, cursor)
    else
      var d := GROWTH_DIRECTIONS[i];
      var n := stream(cursor);
      if i != Index(parent) && n < cf then
        var child := Generate(stream, cursor + 1, level - 1, end, cf, d);
        GrowSubBranches(stream, acc + [child.value], child.cursor, level, end, cf, parent, i + 1)
      else
        GrowSubBranches(stream, acc, cursor + 1, level, end, cf, parent, i + 1)
  }

  /** The segments of a call tree in the order they are drawn: depth first, parent before children. */
  function Segments(b: Branch): seq<Branch> {
    [b] + SegmentsAll(b.subBranches)
  }

  function SegmentsAll(bs: seq<Branch>): seq<Branch> {
    if bs == [] then [] else SegmentsAll(bs[..|bs| - 1]) + Segments(bs[|bs| - 1])
  }

  /** The two vertices of the segment from `start` towards `direction` at `level`, both in the colour of the level. */
  function SegmentOf(level: nat, start: Point, direction: Direction): seq<Vertex> {
    var c := SegmentColor(level);
    [Vertex(At(start), c), Vertex(At(EndPoint(start, direction, level)), c)]
  }

  function VerticesOf(ss: seq<Branch>): seq<Vertex> {
    if ss == [] then [] else VerticesOf(ss[..|ss| - 1]) + SegmentOf(ss[|ss| - 1].level, ss[|ss| - 1].start, ss[|ss| - 1].direction)
  }

  /** The vertices a call appends to the tree's vertex buffer. */
  function Emit(b: Branch): seq<Vertex> {
    VerticesOf(Segments(b))
  }

  /**
   The indices pushed while the vertex buffer grew from `lo` to `hi`
   vertices: after each push, the position of the vertex just pushed, as a `u32`.
   */
  function Positions(lo: nat, hi: nat): seq<U32>
    decreases hi
  {
    if hi <= lo then [] else Positions(lo, hi - 1) + [(hi - 1) % U32_LIMIT]
  }

  /** The number of segments drawn with `level > 0`, that is, of calls that run the direction loop. */
  function Internal(ss: seq<Branch>): nat {
    if ss == [] then 0 else Internal(ss[..|ss| - 1]) + (if ss[|ss| - 1].level > 0 then 1 else 0)
  }

  /** The nesting depth of the calls. */
  function Height(b: Branch): nat {
    1 + MaxHeight(b.subBranches)
  }

  function MaxHeight(bs: seq<Branch>): nat {
    if bs == [] then 0
    else
      var h, m := Height(bs[|bs| - 1]), MaxHeight(bs[..|bs| - 1]);
      if h < m then m else h
  }

  /** `7^0 + 7^1 + ... + 7^level`. */
  function SumPowers7(level: nat): nat {
    if level == 0 then 1 else 1 + 7 * SumPowers7(level - 1)
  }

  /**
   The sub-branches of a call at `level` ending at `end` and heading `parent`:
   each starts at `end`, one level down, in a direction other than `parent`,
   and their directions follow the order of GROWTH_DIRECTIONS.
   */
  predicate GoodChildren(kids: seq<Branch>, level: nat, end: Point, parent: Direction) {
    (forall k :: 0 <= k < |kids| ==>
       kids[k].level + 1 == level && kids[k].start == end && kids[k].direction != parent) &&
    (forall j, k :: 0 <= j < k < |kids| ==> Index(kids[j].direction) < Index(kids[k].direction))
  }

  /** The shape of every call tree the generator can produce. */
  predicate WellFormed(b: Branch) {
    (b.level == 0 ==> b.subBranches == []) &&
    |b.subBranches| <= 7 &&
    GoodChildren(b.subBranches, b.level, End(b), b.direction) &&
    (forall k :: 0 <= k < |b.subBranches| ==> WellFormed(b.subBranches[k]))
  }

  /** The trees of a forest, each grown at `level` from the origin heading Up, one after the other on the stream. */
  function GrowForest(stream: nat -> Byte, cursor: nat, n: nat, level: nat, cf: Byte): Drawn<seq<Branch>> {
    if n == 0 then
      Drawn([], cursor)
    else
      var earlier := GrowForest(stream, cursor, n - 1, level, cf);
      var t := Generate(stream, earlier.cursor, level, ORIGIN, cf, Up);
      Drawn(earlier.value + [t.value], t.cursor)
  }

  // ---------------------------------------------------------------------
  // Sequences built last-first split at any point.

  lemma {:induction false} SegmentsAllSnoc(bs: seq<Branch>, c: Branch)
    ensures SegmentsAll(bs + [c]) == SegmentsAll(bs) + Segments(c)
  {
    assert (bs + [c])[..|bs|] == bs;
  }

  lemma {:induction false} VerticesAppend(a: seq<Branch>, b: seq<Branch>)
    ensures VerticesOf(a + b) == VerticesOf(a) + VerticesOf(b)
  {
    if b == [] {
      assert a + b == a;
    } else {
      var b' := b[..|b| - 1];
      assert (a + b)[..|a + b| - 1] == a + b';
      VerticesAppend(a, b');
    }
  }

  lemma {:induction false} InternalAppend(a: seq<Branch>, b: seq<Branch>)
    ensures Internal(a + b) == Internal(a) + Internal(b)
  {
    if b == [] {
      assert a + b == a;
    } else {
      var b' := b[..|b| - 1];
      assert (a + b)[..|a + b| - 1] == a + b';
      InternalAppend(a, b');
    }
  }

  lemma {:induction false} PositionsAppend(lo: nat, mid: nat, hi: nat)
    requires lo <= mid <= hi
    ensures Positions(lo, hi) == Positions(lo, mid) + Positions(mid, hi)
    decreases hi
  {
    if mid < hi {
      PositionsAppend(lo, mid, hi - 1);
    }
  }

  /**
   An index buffer holding the positions of the vertices from `lo` up to
   `mid`, extended by those from `mid` up to `hi`, holds the positions from
   `lo` up to `hi`.
   */
  lemma {:induction false} IndicesGrow(prefix: seq<U32>, indices: seq<U32>, lo: nat, mid: nat, hi: nat)
    requires lo <= mid <= hi && indices == prefix + Positions(lo, mid)
    ensures indices + Positions(mid, hi) == prefix + Positions(lo, hi)
  {
    PositionsAppend(lo, mid, hi);
    AppendAssociative(prefix, Positions(lo, mid), Positions(mid, hi));
  }

  // ---------------------------------------------------------------------
  // What the buffers hold.

  /** Vertices `2k` and `2k+1` are the start and the end of the `k`-th segment, coloured by its level. */
  lemma {:induction false} VerticesOfAt(ss: seq<Branch>, k: nat)
    requires k < |ss|
    ensures |VerticesOf(ss)| == 2 * |ss|
    ensures VerticesOf(ss)[2 * k] == Vertex(At(ss[k].start), SegmentColor(ss[k].level))
    ensures VerticesOf(ss)[2 * k + 1] == Vertex(At(End(ss[k])), SegmentColor(ss[k].level))
  {
    var p := ss[..|ss| - 1];
    if k < |p| {
      VerticesOfAt(p, k);
    } else if p != [] {
      VerticesOfAt(p, 0);
    }
  }

  /** Vertex `j` has the colour of the level of segment `j / 2`. */
  lemma {:induction false} VertexColour(ss: seq<Branch>, j: nat)
    requires j < 2 * |ss|
    ensures |VerticesOf(ss)| == 2 * |ss|
    ensures VerticesOf(ss)[j].color == SegmentColor(ss[j / 2].level)
  {
    var m := j / 2;
    VerticesOfAt(ss, m);
    if j % 2 == 0 {
      assert j == 2 * m;
    } else {
      assert j == 2 * m + 1;
    }
  }

  /**
   Every vertex a call appends is GREEN exactly when the segment it belongs to
   was drawn at level 0, and BROWN otherwise; the first two are the call's own
   segment, from `start` to its end point.
   */
  lemma {:induction false} ColourByLevel(b: Branch, j: nat)
    requires j < |Emit(b)|
    ensures |Emit(b)| == 2 * |Segments(b)|
    ensures Emit(b)[j].color == GREEN <==> Segments(b)[j / 2].level == 0
    ensures Emit(b)[j].color == BROWN <==> Segments(b)[j / 2].level > 0
    ensures Emit(b)[0] == Vertex(At(b.start), SegmentColor(b.level))
    ensures Emit(b)[1] == Vertex(At(End(b)), SegmentColor(b.level))
  {
    var ss := Segments(b);
    VerticesOfAt(ss, 0);
    VertexColour(ss, j);
  }

  /**
   The index pushed for vertex `k` is `k` modulo 2^32: never beyond the vertex
   count, and exactly `k` while the buffer holds at most 2^32 vertices.
   */
  lemma {:induction false} PositionAt(lo: nat, hi: nat, k: nat)
    requires lo <= k < hi
    ensures |Positions(lo, hi)| == hi - lo
    ensures Positions(lo, hi)[k - lo] == k % U32_LIMIT <= k < hi
    ensures hi <= U32_LIMIT ==> Positions(lo, hi)[k - lo] == k
    decreases hi
  {
    if k < hi - 1 {
      PositionAt(lo, hi - 1, k);
    } else if lo < hi - 1 {
      PositionAt(lo, hi - 1, lo);
    }
  }

  /** A call appends its own segment, then the vertices of its sub-branches in order. */
  lemma {:induction false} EmitSplit(b: Branch)
    ensures Emit(b) == SegmentOf(b.level, b.start, b.direction) + VerticesOf(SegmentsAll(b.subBranches))
  {
    VerticesAppend([b], SegmentsAll(b.subBranches));
    assert VerticesOf([b]) == VerticesOf([]) + SegmentOf(b.level, b.start, b.direction);
  }

  /**
   In a well-formed call tree each sub-branch starts where its parent's
   segment ends: the first vertex a sub-branch appends sits at the position
   of the parent's second vertex.
   */
  lemma {:induction false} ChildJoinsParent(b: Branch, k: nat)
    requires WellFormed(b) && k < |b.subBranches|
    ensures Emit(b.subBranches[k])[0].position == Emit(b)[1].position
  {
    EmitLength(b);
    EmitLength(b.subBranches[k]);
    ColourByLevel(b, 0);
    ColourByLevel(b.subBranches[k], 0);
  }

  /** Concatenation is associative. */
  lemma AppendAssociative<T>(a: seq<T>, b: seq<T>, c: seq<T>)
    ensures (a + b) + c == a + (b + c)
  {
  }

  /**
   A buffer holding `prefix` and then the vertices of the sub-branches
   `kids`, extended by the vertices of one more sub-branch `c`, holds
   `prefix` and then the vertices of `kids + [c]`.
   */
  lemma {:induction false} VerticesGrow(prefix: seq<Vertex>, vertices: seq<Vertex>, kids: seq<Branch>, c: Branch)
    requires vertices == prefix + VerticesOf(SegmentsAll(kids))
    ensures vertices + Emit(c) == prefix + VerticesOf(SegmentsAll(kids + [c]))
  {
    SegmentsAllSnoc(kids, c);
    VerticesAppend(SegmentsAll(kids), Segments(c));
    AppendAssociative(prefix, VerticesOf(SegmentsAll(kids)), Emit(c));
  }

  /** A call appends two vertices per segment it draws, so at least two and always an even number. */
  lemma {:induction false} EmitLength(b: Branch)
    ensures |Emit(b)| == 2 * |Segments(b)| >= 2
  {
    VerticesOfAt(Segments(b), 0);
  }

  // ---------------------------------------------------------------------
  // The shape of the call tree.

  /**
   Every call tree `Generate` produces is well formed: its root has the
   arguments of the call, no sub-branch repeats the parent's direction, the
   sub-branches come in GROWTH_DIRECTIONS order, one level down, from the
   parent's end point, and at most seven of them.
   */
  lemma {:induction false} GenerateWellFormed(stream: nat -> Byte, cursor: nat, level: nat, start: Point,
                                              cf: Byte, direction: Direction)
    ensures var b := Generate(stream, cursor, level, start, cf, direction).value;
            b.level == level && b.start == start && b.direction == direction && WellFormed(b)
    decreases level, 1, 0, 0
  {
    if level > 0 {
      SubBranchesWellFormed(stream, [], cursor, level, EndPoint(start, direction, level), cf, direction, 0);
    }
  }

  /**
   What holds of the sub-branches grown before position `i` of the direction
   loop: they are good children, well formed, in directions before `i`, and
   no more of them than the directions before `i` other than `parent`.
   */
  predicate GrownBefore(acc: seq<Branch>, level: nat, end: Point, parent: Direction, i: nat) {
    GoodChildren(acc, level, end, parent) &&
    (forall k :: 0 <= k < |acc| ==> WellFormed(acc[k]) && Index(acc[k].direction) < i) &&
    |acc| + (if Index(parent) < i then 1 else 0) <= i
  }

  lemma {:induction false} SubBranchesWellFormed(stream: nat -> Byte, acc: seq<Branch>, cursor: nat, level: nat,
                                                 end: Point, cf: Byte, parent: Direction, i: nat)
    requires 0 < level && i <= 8
    requires GrownBefore(acc, level, end, parent, i)
    ensures var kids := GrowSubBranches(stream, acc, cursor, level, end, cf, parent, i).value;
            GoodChildren(kids, level, end, parent) && |kids| <= 7 &&
            forall k :: 0 <= k < |kids| ==> WellFormed(kids[k])
    decreases level, 0, 8 - i, 1
  {
    if i < 8 {
      if i != Index(parent) && stream(cursor) < cf {
        GrownChildWellFormed(stream, acc, cursor, level, end, cf, parent, i);
      } else {
        SkipStep(stream, acc, cursor, level, end, cf, parent, i);
        SkipOne(acc, level, end, parent, i);
        SubBranchesWellFormed(stream, acc, cursor + 1, level, end, cf, parent, i + 1);
      }
    }
  }

  /** The step of SubBranchesWellFormed that grows a sub-branch. */
  lemma {:induction false} GrownChildWellFormed(stream: nat -> Byte, acc: seq<Branch>, cursor: nat, level: nat,
                                                end: Point, cf: Byte, parent: Direction, i: nat)
    requires 0 < level && i < 8 && i != Index(parent) && stream(cursor) < cf
    requires GrownBefore(acc, level, end, parent, i)
    ensures var kids := GrowSubBranches(stream, acc, cursor, level, end, cf, parent, i).value;
            GoodChildren(kids, level, end, parent) && |kids| <= 7 &&
            forall k :: 0 <= k < |kids| ==> WellFormed(kids[k])
    decreases level, 0, 8 - i, 0
  {
    var d := GROWTH_DIRECTIONS[i];
    var child := Generate(stream, cursor + 1, level - 1, end, cf, d);
    GrowStep(stream, acc, cursor, level, end, cf, parent, i);
    GenerateWellFormed(stream, cursor + 1, level - 1, end, cf, d);
    IndexAt(i);
    GrowOne(acc, child.value, level, end, parent, i);
    SubBranchesWellFormed(stream, acc + [child.value], child.cursor, level, end, cf, parent, i + 1);
  }

  /** Growing a sub-branch towards direction `i`, other than `parent`, keeps GrownBefore. */
  lemma {:induction false} GrowOne(acc: seq<Branch>, c: Branch, level: nat, end: Point, parent: Direction, i: nat)
    requires i < 8 && GrownBefore(acc, level, end, parent, i)
    requires c.level + 1 == level && c.start == end && c.direction == GROWTH_DIRECTIONS[i] && WellFormed(c)
    requires Index(c.direction) != Index(parent)
    ensures GrownBefore(acc + [c], level, end, parent, i + 1)
  {
    var acc' := acc + [c];
    forall k | 0 <= k < |acc'|
      ensures acc'[k].level + 1 == level && acc'[k].start == end && acc'[k].direction != parent
      ensures WellFormed(acc'[k]) && Index(acc'[k].direction) < i + 1
    {
      if k == |acc| {
        assert acc'[k] == c;
        IndexAt(i);
      } else {
        assert acc'[k] == acc[k];
      }
    }
    forall j, k | 0 <= j < k < |acc'|
      ensures Index(acc'[j].direction) < Index(acc'[k].direction)
    {
      assert acc'[j] == acc[j];
      if k == |acc| {
        assert acc'[k] == c;
        IndexAt(i);
      } else {
        assert acc'[k] == acc[k];
      }
    }
  }

  /** Passing direction `i` without growing keeps GrownBefore. */
  lemma {:induction false} SkipOne(acc: seq<Branch>, level: nat, end: Point, parent: Direction, i: nat)
    requires i < 8 && GrownBefore(acc, level, end, parent, i)
    ensures GrownBefore(acc, level, end, parent, i + 1)
  {
  }

  /** A call consumes exactly eight draws for every segment it draws at a level above zero, and no others. */
  lemma {:induction false} DrawCount(stream: nat -> Byte, cursor: nat, level: nat, start: Point,
                                     cf: Byte, direction: Direction)
    ensures var g := Generate(stream, cursor, level, start, cf, direction);
            g.cursor == cursor + 8 * Internal(Segments(g.value))
    decreases level, 1, 0, 0
  {
    var g := Generate(stream, cursor, level, start, cf, direction);
    if level > 0 {
      SubBranchesDrawCount(stream, [], cursor, level, EndPoint(start, direction, level), cf, direction, 0);
      InternalAppend([g.value], SegmentsAll(g.value.subBranches));
    }
  }

  lemma {:induction false} SubBranchesDrawCount(stream: nat -> Byte, acc: seq<Branch>, cursor: nat, level: nat,
                                                end: Point, cf: Byte, parent: Direction, i: nat)
    requires 0 < level && i <= 8
    ensures var r := GrowSubBranches(stream, acc, cursor, level, end, cf, parent, i);
            r.cursor + 8 * Internal(SegmentsAll(acc)) == cursor + (8 - i) + 8 * Internal(SegmentsAll(r.value))
    decreases level, 0, 8 - i, 1
  {
    if i < 8 {
      if i != Index(parent) && stream(cursor) < cf {
        GrownChildDrawCount(stream, acc, cursor, level, end, cf, parent, i);
      } else {
        SkipStep(stream, acc, cursor, level, end, cf, parent, i);
        SubBranchesDrawCount(stream, acc, cursor + 1, level, end, cf, parent, i + 1);
      }
    }
  }

  /** The step of SubBranchesDrawCount that grows a sub-branch. */
  lemma {:induction false} GrownChildDrawCount(stream: nat -> Byte, acc: seq<Branch>, cursor: nat, level: nat,
                                               end: Point, cf: Byte, parent: Direction, i: nat)
    requires 0 < level && i < 8 && i != Index(parent) && stream(cursor) < cf
    ensures var r := GrowSubBranches(stream, acc, cursor, level, end, cf, parent, i);
            r.cursor + 8 * Internal(SegmentsAll(acc)) == cursor + (8 - i) + 8 * Internal(SegmentsAll(r.value))
    decreases level, 0, 8 - i, 0
  {
    var d := GROWTH_DIRECTIONS[i];
    var child := Generate(stream, cursor + 1, level - 1, end, cf, d);
    DrawCount(stream, cursor + 1, level - 1, end, cf, d);
    ChildDraws(acc, child.value, cursor + 1, child.cursor);
    SubBranchesDrawCount(stream, acc + [child.value], child.cursor, level, end, cf, parent, i + 1);
  }

  /** One turn of the direction loop that grows a sub-branch. */
  lemma {:induction false} GrowStep(stream: nat -> Byte, acc: seq<Branch>, cursor: nat, level: nat, end: Point,
                                    cf: Byte, parent: Direction, i: nat)
    requires 0 < level && i < 8 && i != Index(parent) && stream(cursor) < cf
    ensures var child := Generate(stream, cursor + 1, level - 1, end, cf, GROWTH_DIRECTIONS[i]);
            GrowSubBranches(stream, acc, cursor, level, end, cf, parent, i)
            == GrowSubBranches(stream, acc + [child.value], child.cursor, level, end, cf, parent, i + 1)
  {
  }

  /** One turn of the direction loop that grows nothing. */
  lemma {:induction false} SkipStep(stream: nat -> Byte, acc: seq<Branch>, cursor: nat, level: nat, end: Point,
                                    cf: Byte, parent: Direction, i: nat)
    requires 0 < level && i < 8 && !(i != Index(parent) && stream(cursor) < cf)
    ensures GrowSubBranches(stream, acc, cursor, level, end, cf, parent, i)
            == GrowSubBranches(stream, acc, cursor + 1, level, end, cf, parent, i + 1)
  {
  }

  /** The draws of a sub-branch counted from the cursor where it starts, moved into the running count. */
  lemma {:induction false} ChildDraws(acc: seq<Branch>, c: Branch, from: nat, to: nat)
    requires to == from + 8 * Internal(Segments(c))
    ensures to + 8 * Internal(SegmentsAll(acc)) == from + 8 * Internal(SegmentsAll(acc + [c]))
  {
    SegmentsAllSnoc(acc, c);
    InternalAppend(SegmentsAll(acc), Segments(c));
  }

  /**
   A call at level 0, or with completeness factor 0 (no byte is below 0),
   draws its own segment only: two vertices, no sub-branches, and no draws at
   level 0 or exactly the eight of the direction loop otherwise.
   */
  lemma {:induction false} SingleSegment(stream: nat -> Byte, cursor: nat, level: nat, start: Point, cf: Byte, direction: Direction)
    requires level == 0 || cf == 0
    ensures var g := Generate(stream, cursor, level, start, cf, direction);
            g.value.subBranches == [] && |Emit(g.value)| == 2 &&
            g.cursor == cursor + (if level == 0 then 0 else 8)
  {
    if level > 0 {
      NoSubBranches(stream, [], cursor, level, EndPoint(start, direction, level), direction, 0);
    }
    var g := Generate(stream, cursor, level, start, cf, direction);
    assert Segments(g.value) == [g.value] + SegmentsAll([]);
    EmitLength(g.value);
  }

  lemma {:induction false} NoSubBranches(stream: nat -> Byte, acc: seq<Branch>, cursor: nat, level: nat,
                                         end: Point, parent: Direction, i: nat)
    requires 0 < level && i <= 8
    ensures GrowSubBranches(stream, acc, cursor, level, end, 0, parent, i) == Drawn(acc, cursor + (8 - i))
    decreases 8 - i
  {
    if i < 8 {
      NoSubBranches(stream, acc, cursor + 1, level, end, parent, i + 1);
    }
  }

  // ---------------------------------------------------------------------
  // Which bytes of the stream a call reads.

  /** A call never moves the cursor backwards. */
  lemma {:induction false} GenerateAdvances(stream: nat -> Byte, cursor: nat, level: nat, start: Point,
                                            cf: Byte, direction: Direction)
    ensures cursor <= Generate(stream, cursor, level, start, cf, direction).cursor
    decreases level, 1, 0
  {
    if level > 0 {
      GrowAdvances(stream, [], cursor, level, EndPoint(start, direction, level), cf, direction, 0);
    }
  }

  /** The direction loop resumed at position `i` reads at least one byte per remaining direction. */
  lemma {:induction false} GrowAdvances(stream: nat -> Byte, acc: seq<Branch>, cursor: nat, level: nat,
                                        end: Point, cf: Byte, parent: Direction, i: nat)
    requires 0 < level && i <= 8
    ensures cursor + (8 - i) <= GrowSubBranches(stream, acc, cursor, level, end, cf, parent, i).cursor
    decreases level, 0, 8 - i
  {
    if i < 8 {
      if i != Index(parent) && stream(cursor) < cf {
        var child := Generate(stream, cursor + 1, level - 1, end, cf, GROWTH_DIRECTIONS[i]);
        GrowStep(stream, acc, cursor, level, end, cf, parent, i);
        GenerateAdvances(stream, cursor + 1, level - 1, end, cf, GROWTH_DIRECTIONS[i]);
        GrowAdvances(stream, acc + [child.value], child.cursor, level, end, cf, parent, i + 1);
      } else {
        SkipStep(stream, acc, cursor, level, end, cf, parent, i);
        GrowAdvances(stream, acc, cursor + 1, level, end, cf, parent, i + 1);
      }
    }
  }

  /**
   A call reads only the bytes from its start cursor up to its end cursor:
   two streams that agree there grow the same call tree and end at the same
   cursor. So a finite byte sequence as long as the call's draws determines it.
   */
  lemma {:induction false} GenerateFrame(s1: nat -> Byte, s2: nat -> Byte, cursor: nat, level: nat, start: Point,
                                         cf: Byte, direction: Direction)
    requires forall k :: cursor <= k < Generate(s1, cursor, level, start, cf, direction).cursor ==> s1(k) == s2(k)
    ensures Generate(s1, cursor, level, start, cf, direction) == Generate(s2, cursor, level, start, cf, direction)
    decreases level, 1, 0, 0
  {
    if level > 0 {
      GrowSubBranchesFrame(s1, s2, [], cursor, level, EndPoint(start, direction, level), cf, direction, 0);
    }
  }

  /** The direction loop reads only the bytes between its start and end cursors. */
  lemma {:induction false} GrowSubBranchesFrame(s1: nat -> Byte, s2: nat -> Byte, acc: seq<Branch>, cursor: nat,
                                                level: nat, end: Point, cf: Byte, parent: Direction, i: nat)
    requires 0 < level && i <= 8
    requires forall k :: cursor <= k < GrowSubBranches(s1, acc, cursor, level, end, cf, parent, i).cursor ==>
               s1(k) == s2(k)
    ensures GrowSubBranches(s1, acc, cursor, level, end, cf, parent, i)
            == GrowSubBranches(s2, acc, cursor, level, end, cf, parent, i)
    decreases level, 0, 8 - i, 1
  {
    if i < 8 {
      GrowAdvances(s1, acc, cursor, level, end, cf, parent, i);
      assert s1(cursor) == s2(cursor);
      if i != Index(parent) && s1(cursor) < cf {
        GrownChildFrame(s1, s2, acc, cursor, level, end, cf, parent, i);
      } else {
        SkipStep(s1, acc, cursor, level, end, cf, parent, i);
        SkipStep(s2, acc, cursor, level, end, cf, parent, i);
        GrowSubBranchesFrame(s1, s2, acc, cursor + 1, level, end, cf, parent, i + 1);
      }
    }
  }

  /** The step of GrowSubBranchesFrame that grows a sub-branch. */
  lemma {:induction false} GrownChildFrame(s1: nat -> Byte, s2: nat -> Byte, acc: seq<Branch>, cursor: nat,
                                           level: nat, end: Point, cf: Byte, parent: Direction, i: nat)
    requires 0 < level && i < 8 && i != Index(parent) && s1(cursor) < cf && s1(cursor) == s2(cursor)
    requires forall k :: cursor <= k < GrowSubBranches(s1, acc, cursor, level, end, cf, parent, i).cursor ==>
               s1(k) == s2(k)
    ensures GrowSubBranches(s1, acc, cursor, level, end, cf, parent, i)
            == GrowSubBranches(s2, acc, cursor, level, end, cf, parent, i)
    decreases level, 0, 8 - i, 0
  {
    var d := GROWTH_DIRECTIONS[i];
    var child := Generate(s1, cursor + 1, level - 1, end, cf, d);
    GrowStep(s1, acc, cursor, level, end, cf, parent, i);
    GrowStep(s2, acc, cursor, level, end, cf, parent, i);
    GenerateAdvances(s1, cursor + 1, level - 1, end, cf, d);
    GrowAdvances(s1, acc + [child.value], child.cursor, level, end, cf, parent, i + 1);
    GenerateFrame(s1, s2, cursor + 1, level - 1, end, cf, d);
    GrowSubBranchesFrame(s1, s2, acc + [child.value], child.cursor, level, end, cf, parent, i + 1);
  }

  /** The recursion nests at most `level + 1` calls deep. */
  lemma {:induction false} HeightBound(b: Branch)
    requires WellFormed(b)
    ensures Height(b) <= b.level + 1
  {
    if b.level > 0 {
      MaxHeightBound(b.subBranches, b.level - 1);
    }
  }

  lemma {:induction false} MaxHeightBound(bs: seq<Branch>, level: nat)
    requires forall k :: 0 <= k < |bs| ==> WellFormed(bs[k]) && bs[k].level == level
    ensures MaxHeight(bs) <= level + 1
  {
    if bs != [] {
      HeightBound(bs[|bs| - 1]);
      MaxHeightBound(bs[..|bs| - 1], level);
    }
  }

  /** A call at `level` draws at most `7^0 + 7^1 + ... + 7^level` segments. */
  lemma {:induction false} SizeBound(b: Branch)
    requires WellFormed(b)
    ensures |Segments(b)| <= SumPowers7(b.level)
  {
    if b.level > 0 {
      var kids := b.subBranches;
      var s := SumPowers7(b.level - 1);
      SizeAllBound(kids, b.level - 1);
      MulMonotone(|kids|, 7, s);
    }
  }

  lemma {:induction false} SizeAllBound(bs: seq<Branch>, level: nat)
    requires forall k :: 0 <= k < |bs| ==> WellFormed(bs[k]) && bs[k].level == level
    ensures |SegmentsAll(bs)| <= |bs| * SumPowers7(level)
  {
    if bs != [] {
      var p, last := bs[..|bs| - 1], bs[|bs| - 1];
      SizeBound(last);
      SizeAllBound(p, level);
      assert |SegmentsAll(bs)| == |SegmentsAll(p)| + |Segments(last)|;
      MulSucc(|p|, SumPowers7(level));
    }
  }

  lemma {:induction false} MulSucc(m: nat, s: nat)
    ensures (m + 1) * s == m * s + s
  {
  }

  lemma {:induction false} MulMonotone(m: nat, n: nat, s: nat)
    requires m <= n
    ensures m * s <= n * s
  {
  }

  /**
   A forest of `n` trees holds `n` call trees in generation order, each grown
   at `level` from the origin heading Up, each well formed, within the depth
   and size bounds; the forest never moves the cursor backwards.
   */
  lemma {:induction false} ForestShape(stream: nat -> Byte, cursor: nat, n: nat, level: nat, cf: Byte)
    ensures var f := GrowForest(stream, cursor, n, level, cf);
            |f.value| == n && cursor <= f.cursor &&
            forall k :: 0 <= k < n ==>
              var t := f.value[k];
              t.level == level && t.start == ORIGIN && t.direction == Up && WellFormed(t) &&
              Height(t) <= level + 1 && |Segments(t)| <= SumPowers7(level)
  {
    if n > 0 {
      var earlier := GrowForest(stream, cursor, n - 1, level, cf);
      ForestShape(stream, cursor, n - 1, level, cf);
      GenerateWellFormed(stream, earlier.cursor, level, ORIGIN, cf, Up);
      DrawCount(stream, earlier.cursor, level, ORIGIN, cf, Up);
      var t := Generate(stream, earlier.cursor, level, ORIGIN, cf, Up).value;
      HeightBound(t);
      SizeBound(t);
    }
  }
}
