/**
 * The texture-set descriptor (the types a `.tset` document is made of), tile-path
 * resolution through nested groups, and the choice of the link a sprite shows for
 * a tile and a per-entity tile state.
 */
module Tiles {
  import opened Common

  type uint32 = n: nat | n < 0x1_0000_0000
  type int32 = n: int | -0x8000_0000 <= n < 0x8000_0000

  /** 2^64: `usize` is 64 bits wide on the targets the game runs on. */
  const USIZE_MODULUS: nat := 0x1_0000_0000_0000_0000

  /** The source's `Vec2`, with integer components. */
  datatype Vec2 = Vec2(x: int, y: int)

  /** How one declared image is to be read: a grid of tiles, or one plain texture. */
  datatype SourceConfig =
    | AtlasSource(source: string, rows: uint32, columns: uint32, tileSize: Vec2)
    | TextureSource(source: string)

  /** A reference from a tile to a source: a grid cell `index` (1-based column, row) or a whole texture. */
  datatype SourceLink =
    | AtlasLink(source: string, index: Vec2)
    | TextureLink(source: string)

  /** A node of the tile tree. The animation speed is a float and is not modelled. */
  datatype Tile =
    | Animated(frames: seq<SourceLink>)
    | Single(link: SourceLink)
    | Variant(variants: map<string, SourceLink>)
    | Group(group: map<string, Tile>)

  type TileGroup = map<string, Tile>

  /** The parsed document: declared sources and the top level of the tile tree. */
  datatype RonTextureSetAsset = RonTextureSetAsset(sources: map<string, SourceConfig>, textures: TileGroup)

  /** An image handle: the label the loader registers the image under. */
  type ImageHandle = string

  /** A loaded source waiting for the atlas build (the decoded image itself is not modelled). */
  datatype PreSource =
    | AtlasPre(hdl: ImageHandle, rows: uint32, columns: uint32, tileSize: Vec2)
    | TexturePre(hdl: ImageHandle)

  /** Where a source ended up in the built atlas. */
  datatype SourceInfo =
    | AtlasInfo(offset: nat, rows: uint32, columns: uint32)
    | TextureInfo(index: nat)

  /** The per-entity state that picks a variant or an animation frame. */
  datatype TSetTile = SingleState | VariantState(name: string) | AnimatedState(frame: int32)

  /** The sentinel source name that every failed resolution falls back to. */
  const DEFAULT_SOURCE: string := "_@default"
  const DEFAULT_LINK: SourceLink := TextureLink(DEFAULT_SOURCE)
  const DEFAULT_TILE: Tile := Single(DEFAULT_LINK)

  // ---------------------------------------------------------------------------
  // Tile paths

  /** The segments of `s` between the '/' separators (`str::split('/')`): never empty, possibly empty strings. */
  function Split(s: string): (segs: seq<string>)
    ensures |segs| >= 1
    ensures forall i :: 0 <= i < |segs| ==> '/' !in segs[i]
    ensures Join(segs) == s
    decreases |s|
  {
    if s == [] then [""]
    else if s[0] == '/' then
      var rest := Split(s[1..]);
      assert ([""] + rest)[1..] == rest;
      [""] + rest
    else
      var rest := Split(s[1..]);
      var segs := [[s[0]] + rest[0]] + rest[1..];
      assert segs[1..] == rest[1..];
      segs
  }

  /** The segments glued back together with '/'. */
  function Join(segs: seq<string>): string
    requires |segs| >= 1
    decreases |segs|
  {
    if |segs| == 1 then segs[0] else segs[0] + "/" + Join(segs[1..])
  }

  predicate NoSlash(segs: seq<string>) {
    forall i :: 0 <= i < |segs| ==> '/' !in segs[i]
  }

  lemma {:induction false} SplitOfSegment(a: string)
    requires '/' !in a
    ensures Split(a) == [a]
    decreases |a|
  {
    if a != [] {
      SplitOfSegment(a[1..]);
      assert [a[0]] + a[1..] == a;
    }
  }

  lemma {:induction false} SplitOfSeparated(a: string, t: string)
    requires '/' !in a
    ensures Split(a + "/" + t) == [a] + Split(t)
    decreases |a|
  {
    if a == [] {
      assert a + "/" + t == "/" + t;
      assert ("/" + t)[1..] == t;
    } else {
      var s := a + "/" + t;
      assert s[0] == a[0] && s[1..] == a[1..] + "/" + t;
      SplitOfSeparated(a[1..], t);
      assert [a[0]] + a[1..] == a;
    }
  }

  /** Splitting undoes joining, for segments without separators. */
  lemma {:induction false} SplitJoin(segs: seq<string>)
    requires |segs| >= 1 && NoSlash(segs)
    ensures Split(Join(segs)) == segs
    decreases |segs|
  {
    if |segs| == 1 {
      SplitOfSegment(segs[0]);
    } else {
      SplitJoin(segs[1..]);
      SplitOfSeparated(segs[0], Join(segs[1..]));
      assert [segs[0]] + segs[1..] == segs;
    }
  }

  /**
   * The walk of `get_tile_` below the first segment: each segment descends into a
   * `Group`; once a node that is not a group is reached the remaining segments are
   * ignored; a missing key fails.
   */
  function Descend(node: Tile, rest: seq<string>): (r: Option<Tile>)
    ensures rest == [] ==> r == Some(node)
    ensures !node.Group? ==> r == Some(node)
    decreases |rest|
  {
    if rest == [] then Some(node)
    else match node
      case Group(g) => if rest[0] in g then Descend(g[rest[0]], rest[1..]) else None
      case _ => Some(node)
  }

  /** The node a tile path names, if any. */
  function TileAt(textures: TileGroup, path: string): (r: Option<Tile>)
    ensures r.Some? ==> Split(path)[0] in textures
    ensures '/' !in path ==> r == if path in textures then Some(textures[path]) else None
  {
    var segs := Split(path);
    assert '/' !in path ==> segs == [path] by {
      if '/' !in path {
        SplitOfSegment(path);
      }
    }
    if segs[0] in textures then Descend(textures[segs[0]], segs[1..]) else None
  }

  /** `get_tile`: the named node, or the sentinel tile. */
  function TileOrDefault(t: Option<Tile>): Tile
  {
    match t
    case Some(tile) => tile
    case None => DEFAULT_TILE
  }

  /** Walking a path in two parts is walking the first part, then the second from where it ended. */
  lemma {:induction false} DescendAppend(node: Tile, p: seq<string>, q: seq<string>)
    ensures Descend(node, p + q) == match Descend(node, p)
                                    case None => None
                                    case Some(m) => Descend(m, q)
    decreases |p|
  {
    if p == [] {
      assert p + q == q;
    } else if node.Group? && p[0] in node.group {
      assert (p + q)[1..] == p[1..] + q;
      DescendAppend(node.group[p[0]], p[1..], q);
    } else if node.Group? {
      assert (p + q)[0] == p[0];
    } else {
      assert p + q != [];
    }
  }

  /**
   * A path whose walk reaches a node that is not a group after `k` segments resolves
   * to that node, whatever segments follow.
   */
  lemma PathStopsAtNonGroup(textures: TileGroup, segs: seq<string>, k: nat, leaf: Tile)
    requires |segs| >= 1 && NoSlash(segs) && 1 <= k <= |segs|
    requires segs[0] in textures
    requires Descend(textures[segs[0]], segs[1..k]) == Some(leaf) && !leaf.Group?
    ensures TileAt(textures, Join(segs)) == Some(leaf)
  {
    SplitJoin(segs);
    assert segs[1..] == segs[1..k] + segs[k..];
    DescendAppend(textures[segs[0]], segs[1..k], segs[k..]);
    assert Descend(textures[segs[0]], segs[1..]) == Some(leaf);
  }

  /** A segment missing from the group the walk has reached makes the whole path unresolved. */
  lemma PathMissesInGroup(textures: TileGroup, segs: seq<string>, k: nat, g: TileGroup)
    requires |segs| >= 1 && NoSlash(segs) && 1 <= k < |segs|
    requires segs[0] in textures
    requires Descend(textures[segs[0]], segs[1..k]) == Some(Group(g)) && segs[k] !in g
    ensures TileAt(textures, Join(segs)) == None
  {
    SplitJoin(segs);
    assert segs[1..] == segs[1..k] + segs[k..];
    DescendAppend(textures[segs[0]], segs[1..k], segs[k..]);
    assert Descend(textures[segs[0]], segs[1..]) == None;
  }

  /** A path whose first segment is not a top-level name is unresolved. */
  lemma PathMissesAtTop(textures: TileGroup, segs: seq<string>)
    requires |segs| >= 1 && NoSlash(segs) && segs[0] !in textures
    ensures TileAt(textures, Join(segs)) == None
  {
    SplitJoin(segs);
  }

  /** Each further segment descends one level while the node reached is a group holding it. */
  lemma PathDescendsIntoGroup(textures: TileGroup, segs: seq<string>, k: nat, g: TileGroup)
    requires |segs| >= 1 && NoSlash(segs) && 1 <= k < |segs|
    requires segs[0] in textures
    requires Descend(textures[segs[0]], segs[1..k]) == Some(Group(g)) && segs[k] in g
    ensures Descend(textures[segs[0]], segs[1..k + 1]) == Some(g[segs[k]])
  {
    assert segs[1..k + 1] == segs[1..k] + [segs[k]];
    DescendAppend(textures[segs[0]], segs[1..k], [segs[k]]);
  }

  // ---------------------------------------------------------------------------
  // Frame sync: which link a tile shows

  /** `i32 as usize`: two's complement reinterpretation, so a negative frame wraps to a huge index. */
  function AsUsize(v: int32): (u: nat)
    ensures u < USIZE_MODULUS
    ensures (u - v) % USIZE_MODULUS == 0
  {
    if v >= 0 then v else v + USIZE_MODULUS
  }

  /** The links a renderable tile holds (a group holds none). */
  function LinksOf(tile: Tile): set<SourceLink>
  {
    match tile
    case Animated(frames) => set i | 0 <= i < |frames| :: frames[i]
    case Single(l) => {l}
    case Variant(vs) => vs.Values
    case Group(_) => {}
  }

  /** A tile whose kind needs a per-entity state of a different kind than the one given. */
  predicate Mismatched(tile: Tile, data: TSetTile)
  {
    (tile.Animated? && !data.AnimatedState?) || (tile.Variant? && !data.VariantState?)
  }

  /**
   * The link `update` resolves for a tile and an entity's state; `None` when the state
   * does not fit the tile, in which case the sprite is left as it is.
   */
  function ChooseLink(tile: Tile, data: TSetTile): (r: Option<SourceLink>)
    ensures r.None? <==> Mismatched(tile, data)
    ensures r.Some? ==> r.value == DEFAULT_LINK || r.value in LinksOf(tile)
    ensures tile.Group? ==> r == Some(DEFAULT_LINK)
    ensures tile.Single? ==> r == Some(tile.link)
  {
    match tile
    case Single(l) => Some(l)
    case Group(_) => Some(DEFAULT_LINK)
    case Animated(frames) =>
      (match data
       case AnimatedState(f) =>
         if |frames| > 0 then Some(frames[AsUsize(f) % |frames|]) else Some(DEFAULT_LINK)
       case _ => None)
    case Variant(vs) =>
      (match data
       case VariantState(n) => if n in vs then Some(vs[n]) else Some(DEFAULT_LINK)
       case _ => None)
  }

  /** A non-negative frame counter selects frame `f mod |frames|`; a negative one wraps through 2^64 first. */
  lemma AnimatedFrameChoice(frames: seq<SourceLink>, f: int32)
    requires |frames| > 0
    ensures f >= 0 ==> ChooseLink(Animated(frames), AnimatedState(f)) == Some(frames[f % |frames|])
    ensures f < 0 ==> ChooseLink(Animated(frames), AnimatedState(f)) == Some(frames[(f + USIZE_MODULUS) % |frames|])
  {
  }

  /** A variant state selects the named variant, or the sentinel for an unknown name. */
  lemma VariantChoice(vs: map<string, SourceLink>, n: string)
    ensures ChooseLink(Variant(vs), VariantState(n)) == Some(if n in vs then vs[n] else DEFAULT_LINK)
  {
  }

  /** An animation without frames shows the sentinel, never an out-of-range frame. */
  lemma EmptyAnimationShowsDefault(f: int32)
    ensures ChooseLink(Animated([]), AnimatedState(f)) == Some(DEFAULT_LINK)
  {
  }
}
