/**
 * The index space of a built texture set: the grid subdivision of a packed source
 * (`rects`), the abstract atlas packer, and the source-to-index table that the
 * build lays out (packed entries first, then one contiguous block of cells per grid
 * source, in the order the pending-source map is iterated).
 */
module Layout {
  import opened Common
  import opened Tiles

  datatype Rect = Rect(min: Vec2, max: Vec2)

  /** A texture atlas: its sub-rectangles, addressed by flat index (the atlas image is not modelled). */
  datatype TextureAtlas = TextureAtlas(textures: seq<Rect>)

  /** The cell in column `x`, row `y` (0-based) of a grid of `size` cells whose corner is `offset`. */
  function CellRect(size: Vec2, x: int, y: int, offset: Vec2): Rect
  {
    var min := Vec2(size.x * x + offset.x, size.y * y + offset.y);
    Rect(min, Vec2(min.x + size.x, min.y + size.y))
  }

  /** The first `columns` cells of row `y` of the grid, left to right. */
  function RowRects(size: Vec2, y: int, columns: nat, offset: Vec2): seq<Rect>
    decreases columns
  {
    if columns == 0 then [] else RowRects(size, y, columns - 1, offset) + [CellRect(size, columns - 1, y, offset)]
  }

  lemma {:induction false} RowRectsLength(size: Vec2, y: int, columns: nat, offset: Vec2)
    ensures |RowRects(size, y, columns, offset)| == columns
    decreases columns
  {
    if columns > 0 {
      RowRectsLength(size, y, columns - 1, offset);
    }
  }

  lemma {:induction false} RowRectAt(size: Vec2, y: int, columns: nat, offset: Vec2, x: nat)
    requires x < columns
    ensures |RowRects(size, y, columns, offset)| == columns
    ensures RowRects(size, y, columns, offset)[x] == CellRect(size, x, y, offset)
    decreases columns
  {
    RowRectsLength(size, y, columns, offset);
    if x < columns - 1 {
      RowRectAt(size, y, columns - 1, offset, x);
    } else {
      RowRectsLength(size, y, columns - 1, offset);
    }
  }

  /** The first `rows` rows of the grid, top to bottom. */
  function CellRects(size: Vec2, rows: nat, columns: nat, offset: Vec2): seq<Rect>
    decreases rows
  {
    if rows == 0 then [] else CellRects(size, rows - 1, columns, offset) + RowRects(size, rows - 1, columns, offset)
  }

  lemma MulNonneg(a: int, c: int)
    requires 0 <= a && 0 <= c
    ensures 0 <= a * c
  {
  }

  lemma MulSucc(y: int, c: int)
    ensures (y + 1) * c == y * c + c
  {
  }

  lemma MulDiff(r: int, y: int, c: int)
    ensures r * c - (y + 1) * c == (r - y - 1) * c
  {
  }

  /** Row-major position `y * columns + x` of a cell inside a `rows` by `columns` grid. */
  lemma RowMajorInRange(y: int, x: int, rows: int, columns: int)
    requires 0 <= y < rows && 0 <= x < columns
    ensures 0 <= y * columns
    ensures y * columns + x < (y + 1) * columns <= rows * columns
  {
    MulNonneg(y, columns);
    MulSucc(y, columns);
    MulDiff(rows, y, columns);
    MulNonneg(rows - y - 1, columns);
  }

  lemma {:induction false} CellRectsLength(size: Vec2, rows: nat, columns: nat, offset: Vec2)
    ensures |CellRects(size, rows, columns, offset)| == rows * columns
    decreases rows
  {
    if rows > 0 {
      CellRectsLength(size, rows - 1, columns, offset);
      RowRectsLength(size, rows - 1, columns, offset);
      MulSucc(rows - 1, columns);
    }
  }

  lemma {:induction false} CellRectAt(size: Vec2, rows: nat, columns: nat, offset: Vec2, y: nat, x: nat)
    requires y < rows && x < columns
    ensures y * columns + x < |CellRects(size, rows, columns, offset)|
    ensures CellRects(size, rows, columns, offset)[y * columns + x] == CellRect(size, x, y, offset)
    decreases rows
  {
    CellRectsLength(size, rows, columns, offset);
    CellRectsLength(size, rows - 1, columns, offset);
    RowMajorInRange(y, x, rows, columns);
    var prev := CellRects(size, rows - 1, columns, offset);
    var last := RowRects(size, rows - 1, columns, offset);
    if y < rows - 1 {
      RowMajorInRange(y, x, rows - 1, columns);
      CellRectAt(size, rows - 1, columns, offset, y, x);
      assert (prev + last)[y * columns + x] == prev[y * columns + x];
    } else {
      RowRectAt(size, y, columns, offset, x);
      assert (prev + last)[y * columns + x] == last[x];
    }
  }

  /** The grid has `rows * columns` cells in row-major order: entry `y * columns + x` is cell (x, y). */
  lemma CellRectsAt(size: Vec2, rows: nat, columns: nat, offset: Vec2)
    ensures |CellRects(size, rows, columns, offset)| == rows * columns
    ensures forall y, x :: 0 <= y < rows && 0 <= x < columns ==>
              CellRects(size, rows, columns, offset)[y * columns + x] == CellRect(size, x, y, offset)
  {
    CellRectsLength(size, rows, columns, offset);
    forall y, x | 0 <= y < rows && 0 <= x < columns
      ensures CellRects(size, rows, columns, offset)[y * columns + x] == CellRect(size, x, y, offset)
    {
      CellRectAt(size, rows, columns, offset, y, x);
    }
  }

  /** `rects`: the grid's cells pushed row by row, each row left to right. */
  method Rects(size: Vec2, rows: uint32, columns: uint32, offset: Vec2) returns (sprites: seq<Rect>)
    ensures sprites == CellRects(size, rows, columns, offset)
    ensures |sprites| == rows * columns
    ensures forall y, x :: 0 <= y < rows && 0 <= x < columns ==>
              sprites[y * columns + x] == CellRect(size, x, y, offset)
  {
    sprites := [];
    var y := 0;
    while y < rows
      invariant 0 <= y <= rows
      invariant sprites == CellRects(size, y, columns, offset)
    {
      var x := 0;
      while x < columns
        invariant 0 <= x <= columns
        invariant sprites == CellRects(size, y, columns, offset) + RowRects(size, y, x, offset)
      {
        sprites := sprites + [CellRect(size, x, y, offset)];
        x := x + 1;
      }
      y := y + 1;
    }
    CellRectsAt(size, rows, columns, offset);
  }

  // ---------------------------------------------------------------------------
  // The arithmetic of a grid link

  /** A float-to-`usize` cast: negative values saturate to 0. */
  function SatUsize(v: int): (n: nat)
    ensures v >= 0 ==> n == v
    ensures v < 0 ==> n == 0
  {
    if v < 0 then 0 else v
  }

  /** The flat atlas index of the 1-based grid position `index` in a block starting at `offset`. */
  function GridIndex(offset: nat, columns: nat, index: Vec2): (i: nat)
    ensures offset <= i
    ensures index.x >= 1 && index.y >= 1 ==> i == offset + (index.y - 1) * columns + (index.x - 1)
    ensures index.x <= 1 && index.y <= 1 ==> i == offset
  {
    offset + SatUsize(index.y - 1) * columns + SatUsize(index.x - 1)
  }

  /** A position inside the grid lands inside the grid's block, at its row-major place. */
  lemma GridIndexInBlock(offset: nat, rows: nat, columns: nat, index: Vec2)
    requires 1 <= index.x <= columns && 1 <= index.y <= rows
    ensures GridIndex(offset, columns, index) == offset + (index.y - 1) * columns + (index.x - 1)
    ensures offset <= GridIndex(offset, columns, index) < offset + rows * columns
  {
    RowMajorInRange(index.y - 1, index.x - 1, rows, columns);
  }

  // ---------------------------------------------------------------------------
  // The build layout

  /**
   * What the atlas builder returns: the packed rectangles (one per added image, so
   * `|rects|` is the builder's `len`) and the index each image handle was given.
   */
  datatype Packing = Packing(rects: seq<Rect>, slot: map<ImageHandle, nat>)

  /** The builder placed every pending source's image at some index below `len`. */
  predicate Packs(pre: map<string, PreSource>, p: Packing)
  {
    forall k :: k in pre ==> pre[k].hdl in p.slot && p.slot[pre[k].hdl] < |p.rects|
  }

  /** `order` enumerates `keys`, each once: one iteration order of a hash map with these keys. */
  predicate IsOrder(order: seq<string>, keys: set<string>)
  {
    && Distinct(order)
    && (forall k :: k in keys ==> k in order)
    && (forall i :: 0 <= i < |order| ==> order[i] in keys)
  }

  predicate Distinct(order: seq<string>)
  {
    forall i, j :: 0 <= i < j < |order| ==> order[i] != order[j]
  }

  predicate InPre(pre: map<string, PreSource>, order: seq<string>)
  {
    forall i :: 0 <= i < |order| ==> order[i] in pre
  }

  /** The corner of source `k`'s packed rectangle. */
  function Origin(pre: map<string, PreSource>, p: Packing, k: string): Vec2
    requires k in pre && Packs(pre, p)
  {
    p.rects[p.slot[pre[k].hdl]].min
  }

  /** The cells the build appends for source `k`: its grid for a grid source, none for a texture. */
  function SourceCells(pre: map<string, PreSource>, p: Packing, k: string): seq<Rect>
    requires k in pre && Packs(pre, p)
  {
    match pre[k]
    case AtlasPre(_, rows, columns, size) => CellRects(size, rows, columns, Origin(pre, p, k))
    case TexturePre(_) => []
  }

  /** All cells appended after the packed rectangles, for the sources of `order` in that order. */
  function GridCells(pre: map<string, PreSource>, p: Packing, order: seq<string>): seq<Rect>
    requires Packs(pre, p) && InPre(pre, order)
    decreases |order|
  {
    if order == [] then []
    else GridCells(pre, p, order[..|order| - 1]) + SourceCells(pre, p, order[|order| - 1])
  }

  /** The number of cells a source adds after the packed entries. */
  function CellsOf(s: PreSource): nat
  {
    match s
    case AtlasPre(_, rows, columns, _) => rows * columns
    case TexturePre(_) => 0
  }

  /** The number of cells the sources of `order` add. */
  function CellCount(pre: map<string, PreSource>, order: seq<string>): nat
    requires InPre(pre, order)
    decreases |order|
  {
    if order == [] then 0
    else CellCount(pre, order[..|order| - 1]) + CellsOf(pre[order[|order| - 1]])
  }

  /** The table entry of source `k` when its cells (if any) start at `offset`. */
  function InfoFor(pre: map<string, PreSource>, p: Packing, k: string, offset: nat): SourceInfo
    requires k in pre && Packs(pre, p)
  {
    match pre[k]
    case AtlasPre(_, rows, columns, _) => AtlasInfo(offset, rows, columns)
    case TexturePre(h) => TextureInfo(p.slot[h])
  }

  /**
   * The source table the build produces when it visits the sources of `order` in
   * turn, with the running index starting at the packer's `len`.
   */
  function SrcInfo(pre: map<string, PreSource>, p: Packing, order: seq<string>): map<string, SourceInfo>
    requires Packs(pre, p) && InPre(pre, order)
    decreases |order|
  {
    if order == [] then map[]
    else
      var init := order[..|order| - 1];
      SrcInfo(pre, p, init)[order[|order| - 1] := InfoFor(pre, p, order[|order| - 1], |p.rects| + CellCount(pre, init))]
  }

  lemma SourceCellsLength(pre: map<string, PreSource>, p: Packing, k: string)
    requires k in pre && Packs(pre, p)
    ensures |SourceCells(pre, p, k)| == CellsOf(pre[k])
  {
    if pre[k].AtlasPre? {
      CellRectsLength(pre[k].tileSize, pre[k].rows, pre[k].columns, Origin(pre, p, k));
    }
  }

  lemma {:induction false} GridCellsCount(pre: map<string, PreSource>, p: Packing, order: seq<string>)
    requires Packs(pre, p) && InPre(pre, order)
    ensures |GridCells(pre, p, order)| == CellCount(pre, order)
    decreases |order|
  {
    if order != [] {
      GridCellsCount(pre, p, order[..|order| - 1]);
      SourceCellsLength(pre, p, order[|order| - 1]);
    }
  }

  lemma {:induction false} SrcInfoKeys(pre: map<string, PreSource>, p: Packing, order: seq<string>)
    requires Packs(pre, p) && InPre(pre, order)
    ensures forall k :: k in SrcInfo(pre, p, order) <==> k in order
    decreases |order|
  {
    if order != [] {
      var init := order[..|order| - 1];
      SrcInfoKeys(pre, p, init);
      assert order == init + [order[|order| - 1]];
    }
  }

  /** The cells laid out for a prefix of the order start the cells laid out for the whole order. */
  lemma {:induction false} GridCellsPrefix(pre: map<string, PreSource>, p: Packing, order: seq<string>, n: nat)
    requires Packs(pre, p) && InPre(pre, order) && n <= |order|
    ensures |GridCells(pre, p, order[..n])| <= |GridCells(pre, p, order)|
    ensures GridCells(pre, p, order)[..|GridCells(pre, p, order[..n])|] == GridCells(pre, p, order[..n])
    decreases |order|
  {
    if n == |order| {
      assert order[..n] == order;
    } else {
      var init := order[..|order| - 1];
      assert init[..n] == order[..n];
      GridCellsPrefix(pre, p, init, n);
    }
  }

  /** A prefix of the order adds no more cells than the whole order. */
  lemma {:induction false} CellCountPrefix(pre: map<string, PreSource>, order: seq<string>, n: nat)
    requires InPre(pre, order) && n <= |order|
    ensures CellCount(pre, order[..n]) <= CellCount(pre, order)
    decreases |order|
  {
    if n < |order| {
      var init := order[..|order| - 1];
      assert init[..n] == order[..n];
      CellCountPrefix(pre, init, n);
    } else {
      assert order[..n] == order;
    }
  }

  /** The visit of `order[i]` adds that source's cells to the count. */
  lemma CellCountStep(pre: map<string, PreSource>, order: seq<string>, i: nat)
    requires InPre(pre, order) && i < |order|
    ensures CellCount(pre, order[..i + 1]) == CellCount(pre, order[..i]) + CellsOf(pre[order[i]])
  {
    var upto := order[..i + 1];
    assert upto[..i] == order[..i];
  }

  /**
   * The table entry of a source is the one written at its last visit: its cells start
   * right after those of the sources visited before it.
   */
  lemma {:induction false} SrcInfoAt(pre: map<string, PreSource>, p: Packing, order: seq<string>, i: nat)
    requires Packs(pre, p) && InPre(pre, order) && i < |order|
    requires order[i] !in order[i + 1..]
    ensures order[i] in SrcInfo(pre, p, order)
    ensures SrcInfo(pre, p, order)[order[i]] == InfoFor(pre, p, order[i], |p.rects| + CellCount(pre, order[..i]))
    decreases |order|
  {
    var init := order[..|order| - 1];
    if i == |order| - 1 {
      assert order[..i] == init;
    } else {
      assert init[..i] == order[..i];
      assert order[i + 1..] == init[i + 1..] + [order[|order| - 1]];
      SrcInfoAt(pre, p, init, i);
    }
  }

  /** In an order without repetitions every visit is the last one. */
  lemma LastVisit(order: seq<string>, i: nat)
    requires Distinct(order) && i < |order|
    ensures order[i] !in order[i + 1..]
  {
  }

  lemma InfoForGrid(pre: map<string, PreSource>, p: Packing, k: string, offset: nat)
    requires k in pre && Packs(pre, p) && pre[k].AtlasPre?
    ensures InfoFor(pre, p, k, offset) == AtlasInfo(offset, pre[k].rows, pre[k].columns)
  {
  }

  lemma SrcInfoOfGrid(pre: map<string, PreSource>, p: Packing, order: seq<string>, i: nat)
    requires Packs(pre, p) && InPre(pre, order) && i < |order| && order[i] !in order[i + 1..]
    requires pre[order[i]].AtlasPre?
    ensures order[i] in SrcInfo(pre, p, order)
    ensures SrcInfo(pre, p, order)[order[i]]
            == AtlasInfo(|p.rects| + CellCount(pre, order[..i]), pre[order[i]].rows, pre[order[i]].columns)
  {
    SrcInfoAt(pre, p, order, i);
    InfoForGrid(pre, p, order[i], |p.rects| + CellCount(pre, order[..i]));
  }

  /** Source `order[i]`'s cells sit in the laid-out cells right after those of the sources before it. */
  lemma SourceCellsPlaced(pre: map<string, PreSource>, p: Packing, order: seq<string>, i: nat)
    requires Packs(pre, p) && InPre(pre, order) && i < |order|
    ensures CellCount(pre, order[..i]) + CellsOf(pre[order[i]]) <= |GridCells(pre, p, order)|
    ensures GridCells(pre, p, order)[CellCount(pre, order[..i])..CellCount(pre, order[..i]) + CellsOf(pre[order[i]])]
            == SourceCells(pre, p, order[i])
  {
    var upto := order[..i + 1];
    assert upto[..i] == order[..i];
    var before := GridCells(pre, p, order[..i]);
    var cells := SourceCells(pre, p, order[i]);
    assert GridCells(pre, p, upto) == before + cells;
    GridCellsCount(pre, p, order[..i]);
    SourceCellsLength(pre, p, order[i]);
    GridCellsPrefix(pre, p, order, i + 1);
    var all := GridCells(pre, p, order);
    assert all[|before|..|before| + |cells|] == all[..|before| + |cells|][|before|..];
  }

  /** Blocks of earlier sources end before blocks of later ones start. */
  lemma BlocksOrdered(pre: map<string, PreSource>, order: seq<string>, i: nat, j: nat)
    requires InPre(pre, order) && i < j < |order|
    ensures CellCount(pre, order[..i]) + CellsOf(pre[order[i]]) <= CellCount(pre, order[..j])
  {
    CellCountStep(pre, order, i);
    var upto := order[..j];
    assert upto[..i + 1] == order[..i + 1];
    CellCountPrefix(pre, upto, i + 1);
  }

  /**
   * A grid source's entry: its block lies past the packed entries and inside the atlas,
   * and holds exactly the source's cells, in the order `rects` produces them.
   */
  predicate GridPlaced(s: PreSource, info: SourceInfo, len: nat, origin: Vec2, textures: seq<Rect>)
    requires s.AtlasPre?
  {
    && info.AtlasInfo? && info.rows == s.rows && info.columns == s.columns
    && len <= info.offset && info.offset + s.rows * s.columns <= |textures|
    && textures[info.offset..info.offset + s.rows * s.columns] == CellRects(s.tileSize, s.rows, s.columns, origin)
  }

  /** In a placed block, the entry `y * columns + x` past the block's offset is cell (x, y). */
  lemma GridPlacedCell(s: PreSource, info: SourceInfo, len: nat, origin: Vec2, textures: seq<Rect>, y: nat, x: nat)
    requires s.AtlasPre? && GridPlaced(s, info, len, origin, textures)
    requires y < s.rows && x < s.columns
    ensures info.offset + y * s.columns + x < |textures|
    ensures textures[info.offset + y * s.columns + x] == CellRect(s.tileSize, x, y, origin)
  {
    RowMajorInRange(y, x, s.rows, s.columns);
    CellRectAt(s.tileSize, s.rows, s.columns, origin, y, x);
    var block := textures[info.offset..info.offset + s.rows * s.columns];
    assert block[y * s.columns + x] == textures[info.offset + y * s.columns + x];
  }

  /** Two grid blocks share no index. */
  predicate BlocksDisjoint(a: SourceInfo, b: SourceInfo)
    requires a.AtlasInfo? && b.AtlasInfo?
  {
    a.offset + a.rows * a.columns <= b.offset || b.offset + b.rows * b.columns <= a.offset
  }

  /** The layout a build promises for pending sources `pre`, packing `p`, table `info` and atlas `textures`. */
  ghost predicate WellLaidOut(pre: map<string, PreSource>, p: Packing, info: map<string, SourceInfo>, textures: seq<Rect>)
    requires Packs(pre, p)
  {
    && info.Keys == pre.Keys
    && |p.rects| <= |textures| && textures[..|p.rects|] == p.rects
    && (forall k :: k in pre && pre[k].TexturePre? ==>
          info[k] == TextureInfo(p.slot[pre[k].hdl]) && p.slot[pre[k].hdl] < |p.rects|)
    && (forall k :: k in pre && pre[k].AtlasPre? ==>
          GridPlaced(pre[k], info[k], |p.rects|, Origin(pre, p, k), textures))
    && (forall k1, k2 :: k1 in pre && k2 in pre && k1 != k2 && pre[k1].AtlasPre? && pre[k2].AtlasPre? ==>
          info[k1].AtlasInfo? && info[k2].AtlasInfo? && BlocksDisjoint(info[k1], info[k2]))
  }

  lemma SourceCellsOfGrid(pre: map<string, PreSource>, p: Packing, k: string)
    requires k in pre && Packs(pre, p) && pre[k].AtlasPre?
    ensures SourceCells(pre, p, k) == CellRects(pre[k].tileSize, pre[k].rows, pre[k].columns, Origin(pre, p, k))
    ensures |SourceCells(pre, p, k)| == pre[k].rows * pre[k].columns
  {
    CellRectsLength(pre[k].tileSize, pre[k].rows, pre[k].columns, Origin(pre, p, k));
  }

  /** A slice of `a + b` lying past `a` is the matching slice of `b`. */
  lemma SliceAfter<T>(a: seq<T>, b: seq<T>, lo: nat, hi: nat)
    requires lo <= hi <= |b|
    ensures (a + b)[|a| + lo..|a| + hi] == b[lo..hi]
  {
  }

  /** A block of cells placed after the packed entries, stated on plain values. */
  lemma GridPlacedIntro(s: PreSource, info: SourceInfo, before: nat, origin: Vec2,
                        rects: seq<Rect>, cells: seq<Rect>, block: seq<Rect>)
    requires s.AtlasPre? && info == AtlasInfo(|rects| + before, s.rows, s.columns)
    requires block == CellRects(s.tileSize, s.rows, s.columns, origin) && |block| == s.rows * s.columns
    requires before + |block| <= |cells| && cells[before..before + |block|] == block
    ensures GridPlaced(s, info, |rects|, origin, rects + cells)
  {
    SliceAfter(rects, cells, before, before + |block|);
  }

  lemma GridSourcePlaced(pre: map<string, PreSource>, p: Packing, order: seq<string>, i: nat)
    requires Packs(pre, p) && InPre(pre, order) && i < |order| && order[i] !in order[i + 1..]
    requires pre[order[i]].AtlasPre?
    ensures order[i] in SrcInfo(pre, p, order)
    ensures GridPlaced(pre[order[i]], SrcInfo(pre, p, order)[order[i]], |p.rects|, Origin(pre, p, order[i]),
                       p.rects + GridCells(pre, p, order))
  {
    var k := order[i];
    SrcInfoOfGrid(pre, p, order, i);
    SourceCellsPlaced(pre, p, order, i);
    SourceCellsOfGrid(pre, p, k);
    GridPlacedIntro(pre[k], SrcInfo(pre, p, order)[k], CellCount(pre, order[..i]), Origin(pre, p, k),
                    p.rects, GridCells(pre, p, order), SourceCells(pre, p, k));
  }

  lemma GridSourcesDisjoint(pre: map<string, PreSource>, p: Packing, order: seq<string>, i: nat, j: nat)
    requires Packs(pre, p) && InPre(pre, order) && i < j < |order|
    requires order[i] !in order[i + 1..] && order[j] !in order[j + 1..]
    requires pre[order[i]].AtlasPre? && pre[order[j]].AtlasPre?
    ensures order[i] in SrcInfo(pre, p, order) && order[j] in SrcInfo(pre, p, order)
    ensures SrcInfo(pre, p, order)[order[i]].AtlasInfo? && SrcInfo(pre, p, order)[order[j]].AtlasInfo?
    ensures BlocksDisjoint(SrcInfo(pre, p, order)[order[i]], SrcInfo(pre, p, order)[order[j]])
  {
    SrcInfoOfGrid(pre, p, order, i);
    SrcInfoOfGrid(pre, p, order, j);
    BlocksOrdered(pre, order, i, j);
  }

  /** The position of a key in an order that enumerates it. */
  lemma PositionOf(order: seq<string>, keys: set<string>, k: string) returns (i: nat)
    requires IsOrder(order, keys) && k in keys
    ensures i < |order| && order[i] == k && k !in order[i + 1..]
  {
    assert k in order;
    i :| 0 <= i < |order| && order[i] == k;
    LastVisit(order, i);
  }

  lemma TextureKept(pre: map<string, PreSource>, p: Packing, order: seq<string>, k: string)
    requires Packs(pre, p) && IsOrder(order, pre.Keys) && k in pre && pre[k].TexturePre?
    ensures k in SrcInfo(pre, p, order)
    ensures SrcInfo(pre, p, order)[k] == TextureInfo(p.slot[pre[k].hdl]) && p.slot[pre[k].hdl] < |p.rects|
  {
    var i := PositionOf(order, pre.Keys, k);
    SrcInfoAt(pre, p, order, i);
  }

  lemma GridKept(pre: map<string, PreSource>, p: Packing, order: seq<string>, k: string)
    requires Packs(pre, p) && IsOrder(order, pre.Keys) && k in pre && pre[k].AtlasPre?
    ensures k in SrcInfo(pre, p, order)
    ensures GridPlaced(pre[k], SrcInfo(pre, p, order)[k], |p.rects|, Origin(pre, p, k), p.rects + GridCells(pre, p, order))
  {
    var i := PositionOf(order, pre.Keys, k);
    GridSourcePlaced(pre, p, order, i);
  }

  lemma GridsApart(pre: map<string, PreSource>, p: Packing, order: seq<string>, k1: string, k2: string)
    requires Packs(pre, p) && IsOrder(order, pre.Keys)
    requires k1 in pre && k2 in pre && k1 != k2 && pre[k1].AtlasPre? && pre[k2].AtlasPre?
    ensures k1 in SrcInfo(pre, p, order) && k2 in SrcInfo(pre, p, order)
    ensures SrcInfo(pre, p, order)[k1].AtlasInfo? && SrcInfo(pre, p, order)[k2].AtlasInfo?
    ensures BlocksDisjoint(SrcInfo(pre, p, order)[k1], SrcInfo(pre, p, order)[k2])
  {
    var i := PositionOf(order, pre.Keys, k1);
    var j := PositionOf(order, pre.Keys, k2);
    if i < j {
      GridSourcesDisjoint(pre, p, order, i, j);
    } else {
      GridSourcesDisjoint(pre, p, order, j, i);
    }
  }

  /**
   * The build layout: the table has exactly the pending sources as keys, a texture
   * source keeps its packed index, every grid source has a block of `rows * columns`
   * cells past the packed entries holding its cells row-major, and no two blocks overlap.
   */
  lemma BuildLayout(pre: map<string, PreSource>, p: Packing, order: seq<string>)
    requires Packs(pre, p) && IsOrder(order, pre.Keys)
    ensures WellLaidOut(pre, p, SrcInfo(pre, p, order), p.rects + GridCells(pre, p, order))
    ensures |p.rects + GridCells(pre, p, order)| == |p.rects| + CellCount(pre, order)
  {
    var info := SrcInfo(pre, p, order);
    var textures := p.rects + GridCells(pre, p, order);
    SrcInfoKeys(pre, p, order);
    GridCellsCount(pre, p, order);
    assert info.Keys == pre.Keys;
    assert textures[..|p.rects|] == p.rects;
    forall k | k in pre && pre[k].TexturePre?
      ensures info[k] == TextureInfo(p.slot[pre[k].hdl]) && p.slot[pre[k].hdl] < |p.rects|
    {
      TextureKept(pre, p, order, k);
    }
    forall k | k in pre && pre[k].AtlasPre?
      ensures GridPlaced(pre[k], info[k], |p.rects|, Origin(pre, p, k), textures)
    {
      GridKept(pre, p, order, k);
    }
    forall k1, k2 | k1 in pre && k2 in pre && k1 != k2 && pre[k1].AtlasPre? && pre[k2].AtlasPre?
      ensures info[k1].AtlasInfo? && info[k2].AtlasInfo? && BlocksDisjoint(info[k1], info[k2])
    {
      GridsApart(pre, p, order, k1, k2);
    }
  }
}
