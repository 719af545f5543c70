/**
 The generator's objects: the byte source standing in for `random!()`, the
 tree and forest buffers, and the generator with its configuration. The two
 generating operations append to the buffers in place, exactly as the call
 tree of `Growth.Generate` and `Growth.GrowForest` prescribes.
 */
module Generator {
  import opened Geometry
  import opened Growth

  /** Where the random bytes come from: an injected stream and the position of the next draw. */
  class ByteSource {
    const stream: nat -> Byte
    var cursor: nat

    constructor (stream: nat -> Byte)
      ensures this.stream == stream && cursor == 0
    {
      this.stream := stream;
      cursor := 0;
    }

    /** One `random!()` byte: the next byte of the stream. */
    method Next() returns (n: Byte)
      modifies this
      ensures n == stream(old(cursor)) && cursor == old(cursor) + 1
    {
      n := stream(cursor);
      cursor := cursor + 1;
    }
  }

  /** A tree's vertex and index buffers. */
  class Tree {
    var vertices: seq<Vertex>
    var indices: seq<U32>

    constructor ()
      ensures vertices == [] && indices == []
    {
      vertices := [];
      indices := [];
    }

    /** The buffers hold exactly the vertices of `b`, each index naming its own vertex. */
    ghost predicate Holds(b: Branch)
      reads this
    {
      vertices == Emit(b) && indices == Positions(0, |vertices|)
    }

    /**
     A tree holding a call tree pairs its buffers: as many indices as
     vertices, an even number of each, every index naming a vertex, and
     index `k` equal to `k` while the tree has at most 2^32 vertices.
     */
    lemma IndicesPairVertices(b: Branch)
      requires Holds(b)
      ensures |indices| == |vertices| && |indices| % 2 == 0
      ensures forall k :: 0 <= k < |indices| ==> indices[k] < |vertices|
      ensures |vertices| <= U32_LIMIT ==> forall k :: 0 <= k < |indices| ==> indices[k] == k
    {
      EmitLength(b);
      PositionAt(0, |vertices|, 0);
      forall k | 0 <= k < |indices|
        ensures indices[k] < |vertices| && (|vertices| <= U32_LIMIT ==> indices[k] == k)
      {
        PositionAt(0, |vertices|, k);
      }
    }
  }

  class Forest {
    var trees: seq<Tree>

    constructor ()
      ensures trees == []
    {
      trees := [];
    }
  }

  class TreeGenerator {
    var fractalLevel: Byte
    var completenessFactor: Byte
    var numTrees: U16

    constructor (fractalLevel: Byte, completenessFactor: Byte, numTrees: U16)
      ensures this.fractalLevel == fractalLevel
      ensures this.completenessFactor == completenessFactor
      ensures this.numTrees == numTrees
    {
      this.fractalLevel := fractalLevel;
      this.completenessFactor := completenessFactor;
      this.numTrees := numTrees;
    }

    /**
     Appends to `tree` the segment from `start` towards `direction` at
     `level` and, depth first, every sub-branch grown from its end point.
     Only appends: what the buffers held before is kept as a prefix, the new
     vertices are those of the call tree `Generate` describes, each new index
     is the position of the vertex just pushed, and the byte source has
     advanced past exactly the draws that call tree made.
     */
    static method GenerateTree(tree: Tree, rng: ByteSource, level: nat, start: Point, cf: Byte,
                               direction: Direction)
      modifies tree, rng
      ensures var g := Generate(rng.stream, old(rng.cursor), level, start, cf, direction);
              tree.vertices == old(tree.vertices) + Emit(g.value) &&
              tree.indices == old(tree.indices) + Positions(|old(tree.vertices)|, |tree.vertices|) &&
              rng.cursor == g.cursor
      decreases level, 1
    {
      var end := EndPoint(start, direction, level);
      var color := BROWN;
      if level == 0 {
        color := GREEN;
      }
      ghost var v0, i0, c0 := tree.vertices, tree.indices, rng.cursor;
      tree.vertices := tree.vertices + [Vertex(At(start), color)];
      tree.indices := tree.indices + [(|tree.vertices| - 1) % U32_LIMIT];
      tree.vertices := tree.vertices + [Vertex(At(end), color)];
      tree.indices := tree.indices + [(|tree.vertices| - 1) % U32_LIMIT];
      assert Positions(|v0|, |v0| + 1) == [|v0| % U32_LIMIT];
      assert tree.indices == i0 + Positions(|v0|, |tree.vertices|);
      ghost var own, ownIndices := tree.vertices, tree.indices;

      assert color == SegmentColor(level);
      assert own == v0 + SegmentOf(level, start, direction);

      ghost var kids: seq<Branch> := [];
      if level > 0 {
        GrowSubBranchesInPlace(tree, rng, level, end, cf, direction);
        kids := GrowSubBranches(rng.stream, [], c0, level, end, cf, direction, 0).value;
        IndicesGrow(i0, ownIndices, |v0|, |own|, |tree.vertices|);
      } else {
        assert VerticesOf(SegmentsAll(kids)) == [];
      }
      assert tree.vertices == own + VerticesOf(SegmentsAll(kids));
      AppendAssociative(v0, SegmentOf(level, start, direction), VerticesOf(SegmentsAll(kids)));
      ghost var b := Branch(level, start, direction, kids);
      assert Generate(rng.stream, c0, level, start, cf, direction) == Drawn(b, rng.cursor);
      EmitSplit(b);
    }

    /**
     The direction loop of GenerateTree for a segment at `level > 0` ending
     at `end`: one draw per entry of GROWTH_DIRECTIONS, in order, and a
     sub-branch grown in place one level down for each direction other than
     `direction` whose draw is below `cf`.
     */
    static method GrowSubBranchesInPlace(tree: Tree, rng: ByteSource, level: nat, end: Point, cf: Byte,
                                         direction: Direction)
      requires level > 0
      modifies tree, rng
      ensures var r := GrowSubBranches(rng.stream, [], old(rng.cursor), level, end, cf, direction, 0);
              tree.vertices == old(tree.vertices) + VerticesOf(SegmentsAll(r.value)) &&
              tree.indices == old(tree.indices) + Positions(|old(tree.vertices)|, |tree.vertices|) &&
              rng.cursor == r.cursor
      decreases level, 0
    {
      ghost var v0, i0, c0 := tree.vertices, tree.indices, rng.cursor;
      ghost var kids: seq<Branch> := [];
      for i := 0 to 8
        invariant GrowSubBranches(rng.stream, kids, rng.cursor, level, end, cf, direction, i)
                  == GrowSubBranches(rng.stream, [], c0, level, end, cf, direction, 0)
        invariant tree.vertices == v0 + VerticesOf(SegmentsAll(kids))
        invariant |v0| <= |tree.vertices|
        invariant tree.indices == i0 + Positions(|v0|, |tree.vertices|)
      {
        var d := GROWTH_DIRECTIONS[i];
        IndexAt(i);
        ghost var at := rng.cursor;
        var n := rng.Next();
        if Index(d) != Index(direction) && n < cf {
          ghost var before, ibefore := tree.vertices, tree.indices;
          ghost var g := Generate(rng.stream, at + 1, level - 1, end, cf, d);
          GrowStep(rng.stream, kids, at, level, end, cf, direction, i);
          GenerateTree(tree, rng, level - 1, end, cf, d);
          ghost var after, iafter := tree.vertices, tree.indices;
          assert rng.cursor == g.cursor;
          assert after == before + Emit(g.value);
          VerticesGrow(v0, before, kids, g.value);
          IndicesGrow(i0, ibefore, |v0|, |before|, |after|);
          kids := kids + [g.value];
        } else {
          SkipStep(rng.stream, kids, at, level, end, cf, direction, i);
        }
      }
    }

    /**
     Builds `numTrees` trees, in order, each a fresh tree grown at
     `fractalLevel` from the origin heading Up, one after the other on the
     byte source. The generator's own fields are left as they were.
     */
    method GenerateForest(rng: ByteSource) returns (forest: Forest)
      modifies rng
      ensures fresh(forest)
      ensures var f := GrowForest(rng.stream, old(rng.cursor), numTrees, fractalLevel, completenessFactor);
              |forest.trees| == numTrees == |f.value| && rng.cursor == f.cursor &&
              forall k :: 0 <= k < numTrees ==> fresh(forest.trees[k]) && forest.trees[k].Holds(f.value[k])
      ensures forall j, k :: 0 <= j < k < |forest.trees| ==> forest.trees[j] != forest.trees[k]
      ensures unchanged(this)
    {
      forest := new Forest();
      ghost var c0 := rng.cursor;
      ghost var built: seq<Branch> := [];
      for i := 0 to numTrees
        invariant fresh(forest)
        invariant GrowForest(rng.stream, c0, i, fractalLevel, completenessFactor) == Drawn(built, rng.cursor)
        invariant |forest.trees| == i == |built|
        invariant forall k :: 0 <= k < i ==> fresh(forest.trees[k]) && forest.trees[k].Holds(built[k])
        invariant forall j, k :: 0 <= j < k < |forest.trees| ==> forest.trees[j] != forest.trees[k]
      {
        ghost var from := rng.cursor;
        var x := ZERO;
        var tree := new Tree();
        GenerateTree(tree, rng, fractalLevel, Point(x, ZERO), completenessFactor, Up);
        ghost var t := Generate(rng.stream, from, fractalLevel, ORIGIN, completenessFactor, Up);
        assert tree.Holds(t.value);
        forest.trees := forest.trees + [tree];
        built := built + [t.value];
      }
    }
  }
}
