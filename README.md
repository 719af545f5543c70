# Fractal tree generator of rusty-vegetation, in Dafny

This project models the geometry generator of rusty-vegetation (`src/main.rs`). Given a
start point, a fractal level and a completeness factor, the generator draws a
random branching structure of line segments. It appends the segments to a tree's
vertex and index buffers, and it assembles a forest of such trees. Rendering is
not part of the model.

The model has three modules.

- `Geometry` (`geometry.dfy`) holds the vocabulary of the generator:
  - the eight `Direction`s and `GROWTH_DIRECTIONS`;
  - the end point a segment reaches from its start, its direction and its level (`EndPoint`);
  - the colours `GREEN` and `BROWN`, and the `Vertex` the buffers hold.

  Coordinates are exact numbers `a + b*sqrt(2)` (`Surd`), with `X_SCALE = Y_SCALE = 1/256`.
  Cardinal offsets are `scale * 2^level`. Diagonal offsets are
  `scale * sqrt(2^(2 level) / 2) = (scale * 2^level / 2) * sqrt(2)`, which is
  exact in this number field.
- `Growth` (`growth.dfy`) describes one call of `generate_tree` as a value:
  - `Generate` returns the call tree (`Branch`) and the cursor of the random stream after the call.
  - `GrowSubBranches` is the loop over `GROWTH_DIRECTIONS`.
  - `Emit` lists the vertices the call appends: two per segment, depth first, parent before children.
  - `Positions` lists the indices the call appends.
  - `GrowForest` describes `generate_forest`.

  The lemmas state what the generator promises. They cover:
  - colour by level;
  - indices that name their own vertex;
  - eight draws per internal segment;
  - the direction exclusion and order of the sub-branches;
  - the depth and size bounds;
  - the shape of a forest.
- `Generator` (`generator.dfy`) holds the source's objects as classes:
  - `Tree`, with its `vertices` and `indices` buffers;
  - `Forest`, with its `trees`;
  - `TreeGenerator`, with its three configuration fields;
  - `ByteSource`, which stands in for `random!()`.

  `GenerateTree` and `GenerateForest` push onto these buffers in place, with the
  loops of the source. Their postconditions tie the new state to `Generate`,
  `Emit`, `Positions` and `GrowForest`. The direction loop of `generate_tree`
  is its own method, `GrowSubBranchesInPlace`. That method runs the same loop
  with the same draws and the same recursive calls.

The random byte source is a parameter. A `ByteSource` reads an injected stream
`nat -> Byte` at a cursor, so each outcome is a function of the stream.
`Growth.DrawCount` states how many bytes a call reads.

A call above level 0 draws a byte for every entry of GROWTH_DIRECTIONS, the
parent's direction included. The draw (`src/main.rs:165`) comes before the
direction test (`src/main.rs:166`), so the direction loop of a call above
level 0 always reads eight bytes. With its sub-branches, a call reads eight
bytes per segment drawn above level 0 (`Growth.DrawCount`).

## Model

| member | source | states |
|---|---|---|
| Geometry.Index | src/main.rs:43-64 | The discriminant `direction as u32` of a direction is below 8 and is the direction's position in GROWTH_DIRECTIONS. |
| Geometry.IndexAt | src/main.rs:55-64 | The direction at position `i` of GROWTH_DIRECTIONS has discriminant `i`. |
| Geometry.IndexInjective | src/main.rs:166 | Two directions have equal discriminants exactly when they are the same direction, so the `as u32` comparison is a direction comparison. |
| Geometry.Compass | src/main.rs:116-149 | Each direction has a compass vector with components in -1..1, never (0, 0), and the direction is diagonal exactly when both components are non-zero. |
| Geometry.DiagonalIsSquareRoot | src/main.rs:121-123 | The exact diagonal offset `(scale * 2^L / 2) * sqrt(2)` is `scale * sqrt(2^(2L) / 2)`, the value `src/main.rs:122` computes: it is the positive square root of `scale^2 * 2^(2L) / 2`. |
| Geometry.EndPointByCompass | src/main.rs:116-149 | The end point is the start moved by the compass vector of the direction, scaled by `scale * 2^L` (by `1/sqrt(2)` of that per axis on diagonals). Left and Right keep y. Up and Down keep x. Up decreases y. |
| Geometry.DisplacementIsOffset | src/main.rs:116-149 | The displacement from the start to the end point is the compass offset of the direction for the step length of the level. |
| Geometry.OffsetLength | src/main.rs:116-149 | Every step, cardinal or diagonal, of cardinal length `u` has squared Euclidean length `u^2`. |
| Geometry.SegmentLength | src/main.rs:116-149 | Every segment grown at level L, from any start and in any direction, has squared length `(scale * 2^L)^2`. A segment's length depends on its level only. |
| Geometry.SegmentColor | src/main.rs:151-154 | A segment is GREEN if and only if its level is 0, and BROWN if and only if its level is above 0. |
| Growth.ColourByLevel | src/main.rs:151-161 | Every appended vertex is GREEN exactly when its segment is at level 0, and BROWN otherwise. The first two are the call's own start and end point. |
| Growth.VerticesOfAt | src/main.rs:156-161 | Segment `k` contributes vertices `2k` (its start) and `2k+1` (its end), both in its level's colour. A call appends two vertices per segment. |
| Growth.EmitLength | src/main.rs:156-161 | A call appends an even number of vertices, and at least two. |
| Growth.EmitSplit | src/main.rs:156-169 | A call appends its own segment first, then the vertices of its sub-branches in call order. |
| Growth.PositionAt | src/main.rs:156-161 | The index pushed for vertex `k` is `k` modulo 2^32. It is below the vertex count, and it equals `k` while at most 2^32 vertices exist. Indices and vertices grow in equal numbers. |
| Growth.PositionsAppend | src/main.rs:158-161 | The indices pushed over two consecutive stretches of vertex growth are those of the whole stretch. |
| Growth.IndicesGrow | src/main.rs:156-167 | An index buffer that names its vertices still does so after more vertices are pushed with their indices. |
| Growth.ChildJoinsParent | src/main.rs:159-167 | The first vertex of each sub-branch is at the position of its parent's second vertex. |
| Growth.GenerateWellFormed | src/main.rs:107-171 | Every call tree carries the call's level, start and direction, and is well formed. Sub-branches are one level down, start at the parent's end point, never repeat the parent's direction, come in GROWTH_DIRECTIONS order, and number at most seven. Level-0 calls have none. |
| Growth.SubBranchesWellFormed | src/main.rs:164-168 | The direction loop, resumed at position `i` with well-formed earlier sub-branches, yields well-formed sub-branches in order. None of them points in the parent's direction, and there are at most seven. |
| Growth.GenerateAdvances | src/main.rs:163-169 | A call never moves the byte cursor backwards. |
| Growth.GrowAdvances | src/main.rs:164-168 | The direction loop resumed at position `i` reads at least one byte per remaining direction. |
| Growth.GenerateFrame | src/main.rs:107-171 | A call reads only the bytes between its start and end cursors: two streams that agree there give the same call tree and the same end cursor. |
| Growth.GrowSubBranchesFrame | src/main.rs:164-168 | The direction loop reads only the bytes between its start and end cursors. |
| Growth.DrawCount | src/main.rs:163-169 | A call reads exactly eight bytes for each segment it draws at a level above 0, and no other bytes. |
| Growth.SubBranchesDrawCount | src/main.rs:164-168 | The loop resumed at position `i` reads one byte per remaining direction, plus eight per internal segment of the sub-branches it grows. |
| Growth.SingleSegment | src/main.rs:152-169 | At level 0, or with completeness factor 0, a call appends exactly one segment (two vertices) and no sub-branches. It reads no byte at level 0 and exactly eight otherwise. |
| Growth.NoSubBranches | src/main.rs:164-168 | With completeness factor 0, no draw is below it. The loop grows nothing and reads one byte per remaining direction. |
| Growth.HeightBound | src/main.rs:163-169 | The calls nest at most `level + 1` deep. |
| Growth.MaxHeightBound | src/main.rs:164-168 | Sub-branches at one level nest at most `level + 1` deep. |
| Growth.SizeBound | src/main.rs:163-169 | A call at level L draws at most `7^0 + 7^1 + ... + 7^L` segments. |
| Growth.SizeAllBound | src/main.rs:164-168 | Sub-branches at level L draw at most their number times `7^0 + ... + 7^L` segments. |
| Growth.ForestShape | src/main.rs:173-189 | A forest of n trees holds n call trees in generation order. Each is grown at the configured level from the origin heading Up, is well formed, and stays within the depth and size bounds. |
| Generator.ByteSource.constructor | src/main.rs:165 | A fresh byte source reads the given stream from its first byte. |
| Generator.ByteSource.Next | src/main.rs:165 | `random!()` returns the byte at the cursor and advances the cursor by one. |
| Generator.Tree.constructor | src/main.rs:71-77 | A new tree has empty vertex and index buffers. |
| Generator.Tree.IndicesPairVertices | src/main.rs:156-161 | A tree holding a call tree has as many indices as vertices, an even number of each. Every index is below the vertex count, and index `k` is `k` while the tree has at most 2^32 vertices. |
| Generator.Forest.constructor | src/main.rs:84-89 | A new forest has no trees. |
| Generator.TreeGenerator.constructor | src/main.rs:99-105 | The generator keeps the given level, completeness factor and tree count. |
| Generator.TreeGenerator.GenerateTree | src/main.rs:107-171 | Only appends. The old vertices and indices stay a prefix. The new vertices are `Emit` of the call tree. Each new index is the position of the vertex just pushed, modulo 2^32. The byte source advances past exactly the call tree's draws. |
| Generator.TreeGenerator.GrowSubBranchesInPlace | src/main.rs:163-170 | The direction loop appends, after what the buffer holds, the vertices and indices of exactly the sub-branches `GrowSubBranches` grows, and consumes exactly its draws. |
| Generator.TreeGenerator.GenerateForest | src/main.rs:173-189 | The result is a fresh forest of exactly `numTrees` distinct fresh trees, in generation order. Tree k holds the vertices of the k-th call tree of `GrowForest`, grown at the configured level from the origin heading Up. Its indices name their own vertices. The generator's fields are unchanged. |

## Left out

- Rendering is not part of this model. That covers `State`, `Vertex::desc` and the GPU buffer uploads (`src/main.rs:25-35`, `192-378`). It also covers the `trees[0]` access that panics on an empty forest (`src/main.rs:296`) and the `Uint16` index format that does not match the `u32` indices (`src/main.rs:369`).
- `main` and the command-line parsing (`src/main.rs:380-443`) are I/O and are not part of this model.
- `random!()` is replaced by an injected byte stream, and its distribution is not modelled. The stream is an infinite function `nat -> Byte`, like the ambient generator, which never runs out. `Growth.DrawCount` says how many bytes a call reads, and `Growth.GenerateFrame` shows that a call reads no byte outside that stretch, so a finite byte sequence of that length determines it.
- `f32` arithmetic is not modelled: rounding, `pow`, `sqrt` and overflow. `2f32.pow(2L)` overflows to infinity from level 64 on, and `2f32.pow(L)` from level 128 on. The model computes end points exactly in `a + b*sqrt(2)`.
- Geometry.OffsetLength: holds of the exact coordinates only. In `f32`, diagonal and cardinal segments of one level are equal in length only up to rounding.
- Geometry.SegmentLength: holds of the exact coordinates only, for the same reason. In `f32` the segments of one level are equal in length only up to rounding.
- `generate_tree` takes its level as a `u32`. The model uses `nat`, because the level only ever decreases from a `u8`, so `fractal_level * 2` never overflows.
- `(tree.vertices.len() - 1) as u32` cannot underflow, because it follows a push. Its truncation is modelled as `% 2^32`.
- The commented-out code is not modelled: the random start x (`src/main.rs:177`) and the padding of an odd index count (`src/main.rs:181-183`). Every tree starts at x = 0.
- Generator.TreeGenerator.GenerateTree: the random source is an explicit `ByteSource` parameter, not process-wide state.
- Generator.TreeGenerator.GenerateForest: the random source is an explicit `ByteSource` parameter, not process-wide state.
- Allocation failure of the vectors is not modelled.
