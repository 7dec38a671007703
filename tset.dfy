/**
 * The texture-set asset: the tile tree, the staged sources waiting for the atlas
 * build, the one-shot build that turns them into a texture atlas and a source table,
 * and the resolution of a link to an (atlas index, atlas handle) pair.
 */
module TSet {
  import opened Common
  import opened Tiles
  import opened Layout

  /** A handle to a texture atlas: its position in the atlas store. */
  type AtlasHandle = nat

  /** A handle to a texture-set asset: its key in the asset store. */
  type TSetHandle = nat

  /** A finished build: the handle of the atlas and the source table. */
  datatype Built = Built(atlas: AtlasHandle, info: map<string, SourceInfo>)

  /** The key `default()` registers (note: not the sentinel name links use). */
  const DEFAULT_KEY: string := "@default"

  /** The fallback atlas: a 16 by 16 grid of one cell over the embedded default image. */
  const DEFAULT_ATLAS: TextureAtlas := TextureAtlas([Rect(Vec2(0, 0), Vec2(16, 16))])

  /** The source table of the default asset. */
  const DEFAULT_INFO: map<string, SourceInfo> := map[DEFAULT_KEY := TextureInfo(0)]

  /** The store of texture atlases (`Assets<TextureAtlas>`): a handle is the position an atlas was added at. */
  class AtlasStore {
    var atlases: seq<TextureAtlas>

    constructor ()
      ensures atlases == []
    {
      atlases := [];
    }

    method Add(atlas: TextureAtlas) returns (h: AtlasHandle)
      modifies this
      ensures h == |old(atlases)|
      ensures atlases == old(atlases) + [atlas]
    {
      h := |atlases|;
      atlases := atlases + [atlas];
    }
  }

  /** The table knows `link`'s source, as a source of the link's own kind. */
  predicate Matches(info: map<string, SourceInfo>, link: SourceLink)
  {
    link.source in info && (link.TextureLink? <==> info[link.source].TextureInfo?)
  }

  class TextureSetAsset {
    /** The built atlas and its source table, once the build has run. */
    var sources: Option<Built>
    const textures: TileGroup
    /** The fallback atlas the sentinel source resolves to. */
    const defaultAtlas: AtlasHandle
    /** The loaded sources, until the build consumes them. */
    var preSrc: Option<map<string, PreSource>>

    /** The asset the loader returns: not yet built, its sources staged. */
    constructor FromLoader(textures: TileGroup, defaultAtlas: AtlasHandle, pre: map<string, PreSource>)
      ensures sources == None && preSrc == Some(pre)
      ensures this.textures == textures && this.defaultAtlas == defaultAtlas
    {
      sources := None;
      this.textures := textures;
      this.defaultAtlas := defaultAtlas;
      preSrc := Some(pre);
    }

    /**
     * `default()`: an asset that is already built, with no tiles, whose only source
     * is `"@default"` at index 0 of a freshly added fallback atlas, which is also its
     * main atlas.
     */
    constructor Default(store: AtlasStore)
      modifies store
      ensures store.atlases == old(store.atlases) + [DEFAULT_ATLAS]
      ensures sources == Some(Built(|old(store.atlases)|, DEFAULT_INFO))
      ensures defaultAtlas == |old(store.atlases)|
      ensures textures == map[] && preSrc == None
    {
      var h := store.Add(DEFAULT_ATLAS);
      sources := Some(Built(h, DEFAULT_INFO));
      textures := map[];
      defaultAtlas := h;
      preSrc := None;
    }

    /** `get_tile_`: the walk of `path` through the tile tree. */
    method GetTileOpt(path: string) returns (r: Option<Tile>)
      ensures r == TileAt(textures, path)
    {
      var segs := Split(path);
      if segs[0] !in textures {
        return None;
      }
      var now := textures[segs[0]];
      var i := 1;
      while i < |segs|
        invariant 1 <= i <= |segs|
        invariant Descend(now, segs[i..]) == Descend(textures[segs[0]], segs[1..])
      {
        assert segs[i..][1..] == segs[i + 1..];
        if now.Group? {
          if segs[i] !in now.group {
            return None;
          }
          now := now.group[segs[i]];
        }
        i := i + 1;
      }
      return Some(now);
    }

    /** `get_tile`: the node `path` names, or the sentinel tile when it names none. */
    method GetTile(path: string) returns (t: Tile)
      ensures TileAt(textures, path).Some? ==> t == TileAt(textures, path).value
      ensures TileAt(textures, path).None? ==> t == DEFAULT_TILE
    {
      var found := GetTileOpt(path);
      t := TileOrDefault(found);
    }

    /**
     * `index_and_atlas`: before the build every link fails; a link whose source the
     * table knows as a source of the same kind resolves into the main atlas (a texture
     * to its packed index, a grid position to its flat index); any other link resolves
     * to index 0 of the fallback atlas if it names the sentinel, and fails otherwise.
     */
    function IndexAndAtlas(link: SourceLink): (r: Result<(nat, AtlasHandle), Fault>)
      reads this
      ensures sources.None? ==> r == Err(NotBuilt)
      ensures sources.Some? && Matches(sources.value.info, link) ==>
                r.Ok? && r.value.1 == sources.value.atlas &&
                r.value.0 == match sources.value.info[link.source]
                             case TextureInfo(i) => i
                             case AtlasInfo(offset, _, columns) => GridIndex(offset, columns, link.index)
      ensures sources.Some? && !Matches(sources.value.info, link) ==>
                r == if link.source == DEFAULT_SOURCE then Ok((0, defaultAtlas)) else Err(UnknownSource(link.source))
    {
      match sources
      case None => Err(NotBuilt)
      case Some(Built(atlas, info)) =>
        match link
        case TextureLink(s) =>
          if s in info && info[s].TextureInfo? then Ok((info[s].index, atlas))
          else if s == DEFAULT_SOURCE then Ok((0, defaultAtlas))
          else Err(UnknownSource(s))
        case AtlasLink(s, index) =>
          if s in info && info[s].AtlasInfo? then Ok((GridIndex(info[s].offset, info[s].columns, index), atlas))
          else if s == DEFAULT_SOURCE then Ok((0, defaultAtlas))
          else Err(UnknownSource(s))
    }

    /** What the build needs from the packer and the map's iteration order. */
    predicate BuildInputs(packing: Option<Packing>, order: seq<string>)
      reads this
    {
      preSrc.Some? ==> IsOrder(order, preSrc.value.Keys) && (packing.Some? ==> Packs(preSrc.value, packing.value))
    }

    /**
     * `check_or_build`: nothing to do once built. Otherwise the staged sources are
     * packed (`packing`, `None` when the packer fails, which panics), each grid
     * source's cells are appended after the packed entries in the iteration order
     * `order`, the finished atlas is added to the store, and the asset becomes built.
     */
    method CheckOrBuild(store: AtlasStore, packing: Option<Packing>, order: seq<string>) returns (outcome: Outcome)
      requires BuildInputs(packing, order)
      modifies this, store
      ensures old(preSrc).None? ==> outcome == Done && unchanged(this, store)
      ensures old(preSrc).Some? && packing.None? ==> outcome == Panicked(AtlasBuildFailed) && unchanged(this, store)
      ensures old(preSrc).Some? && packing.Some? ==>
                var pre := old(preSrc).value;
                var p := packing.value;
                var h := |old(store.atlases)|;
                && outcome == Done
                && store.atlases == old(store.atlases) + [TextureAtlas(p.rects + GridCells(pre, p, order))]
                && sources == Some(Built(h, SrcInfo(pre, p, order)))
                && preSrc == None
                && WellLaidOut(pre, p, SrcInfo(pre, p, order), store.atlases[h].textures)
                && |store.atlases[h].textures| == |p.rects| + CellCount(pre, order)
    {
      if preSrc.None? {
        return Done;
      }
      var pre := preSrc.value;
      if packing.None? {
        return Panicked(AtlasBuildFailed);
      }
      var p := packing.value;
      var textures, srcInfo := LayOutSources(pre, p, order);
      var h := store.Add(TextureAtlas(textures));
      sources := Some(Built(h, srcInfo));
      preSrc := None;
      BuildLayout(pre, p, order);
      return Done;
    }
  }

  /**
   * `check_or_build` is idempotent: a second call right after one that did not panic
   * finds nothing pending and changes nothing, so the asset and the atlas store end
   * as one call leaves them.
   */
  method BuildTwice(t: TextureSetAsset, store: AtlasStore, packing: Option<Packing>, order: seq<string>)
    returns (first: Outcome, second: Outcome)
    requires t.BuildInputs(packing, order) && (t.preSrc.Some? ==> packing.Some?)
    modifies t, store
    ensures first == Done && second == Done && t.preSrc == None
    ensures old(t.preSrc).None? ==> t.sources == old(t.sources) && store.atlases == old(store.atlases)
    ensures old(t.preSrc).Some? ==>
              && t.sources == Some(Built(|old(store.atlases)|, SrcInfo(old(t.preSrc).value, packing.value, order)))
              && store.atlases == old(store.atlases)
                                  + [TextureAtlas(packing.value.rects + GridCells(old(t.preSrc).value, packing.value, order))]
  {
    first := t.CheckOrBuild(store, packing, order);
    second := t.CheckOrBuild(store, packing, order);
  }

  /**
   * The second pass of `check_or_build`: with the packer's rectangles first, each
   * source of `order` in turn gets its table entry, and a grid source's cells are
   * cut from its packed rectangle and appended after everything laid out so far.
   */
  method LayOutSources(pre: map<string, PreSource>, p: Packing, order: seq<string>)
    returns (textures: seq<Rect>, srcInfo: map<string, SourceInfo>)
    requires Packs(pre, p) && InPre(pre, order)
    ensures textures == p.rects + GridCells(pre, p, order)
    ensures srcInfo == SrcInfo(pre, p, order)
  {
    textures := p.rects;
    var index := |textures|;
    srcInfo := map[];
    var i := 0;
    while i < |order|
      invariant 0 <= i <= |order|
      invariant InPre(pre, order[..i])
      invariant textures == p.rects + GridCells(pre, p, order[..i])
      invariant index == |p.rects| + CellCount(pre, order[..i])
      invariant srcInfo == SrcInfo(pre, p, order[..i])
    {
      var name := order[i];
      BuildStep(pre, p, order, i);
      match pre[name] {
        case AtlasPre(hdl, rows, columns, tileSize) =>
          var rect := textures[p.slot[hdl]];
          assert rect.min == Origin(pre, p, name);
          InfoForGrid(pre, p, name, index);
          SourceCellsOfGrid(pre, p, name);
          assert AtlasInfo(index, rows, columns) == InfoFor(pre, p, name, |p.rects| + CellCount(pre, order[..i]));
          var rs := Rects(tileSize, rows, columns, rect.min);
          srcInfo := srcInfo[name := AtlasInfo(index, rows, columns)];
          index := index + |rs|;
          AppendAssoc(p.rects, GridCells(pre, p, order[..i]), rs);
          textures := AddTextures(textures, rs);
          assert textures == p.rects + GridCells(pre, p, order[..i + 1]);
        case TexturePre(hdl) =>
          assert InfoFor(pre, p, name, index) == TextureInfo(p.slot[hdl]);
          assert SourceCells(pre, p, name) == [];
          srcInfo := srcInfo[name := TextureInfo(p.slot[hdl])];
          assert textures == p.rects + GridCells(pre, p, order[..i + 1]);
      }
      i := i + 1;
    }
    assert order[..|order|] == order;
  }

  /** The atlas's `add_texture` loop: the rectangles are appended in order. */
  method AddTextures(textures: seq<Rect>, rs: seq<Rect>) returns (r: seq<Rect>)
    ensures r == textures + rs
  {
    r := textures;
    var j := 0;
    while j < |rs|
      invariant 0 <= j <= |rs|
      invariant r == textures + rs[..j]
    {
      assert rs[..j + 1] == rs[..j] + [rs[j]];
      r := r + [rs[j]];
      j := j + 1;
    }
    assert rs[..|rs|] == rs;
  }

  lemma AppendAssoc<T>(a: seq<T>, b: seq<T>, c: seq<T>)
    ensures (a + b) + c == a + (b + c)
  {
  }

  /** One visit of the build loop: source `order[i]` extends the cells and the table laid out so far. */
  lemma BuildStep(pre: map<string, PreSource>, p: Packing, order: seq<string>, i: nat)
    requires Packs(pre, p) && InPre(pre, order) && i < |order|
    ensures InPre(pre, order[..i]) && InPre(pre, order[..i + 1])
    ensures GridCells(pre, p, order[..i + 1]) == GridCells(pre, p, order[..i]) + SourceCells(pre, p, order[i])
    ensures CellCount(pre, order[..i + 1]) == CellCount(pre, order[..i]) + CellsOf(pre[order[i]])
    ensures SrcInfo(pre, p, order[..i + 1])
            == SrcInfo(pre, p, order[..i])[order[i] := InfoFor(pre, p, order[i], |p.rects| + CellCount(pre, order[..i]))]
  {
    var upto := order[..i + 1];
    assert upto[..i] == order[..i] && upto[i] == order[i];
  }

  /** The store of texture-set assets (`Assets<TextureSetAsset>`). */
  class AssetStore {
    var assets: map<TSetHandle, TextureSetAsset>
    /** The next handle `add` hands out. */
    var next: TSetHandle

    predicate Valid()
      reads this
    {
      forall h :: h in assets ==> h < next
    }

    constructor ()
      ensures assets == map[] && next == 0 && Valid()
    {
      assets := map[];
      next := 0;
    }

    /** `add`: the asset is stored under a handle no other asset has. */
    method Add(t: TextureSetAsset) returns (h: TSetHandle)
      requires Valid()
      modifies this
      ensures Valid()
      ensures h == old(next) && h !in old(assets) && assets == old(assets)[h := t] && next == old(next) + 1
    {
      h := next;
      assets := assets[h := t];
      next := next + 1;
    }
  }

  // ---------------------------------------------------------------------------
  // Links into a built asset

  /** The sentinel source resolves to index 0 of the fallback atlas whenever the table does not know it. */
  lemma SentinelResolves(t: TextureSetAsset, index: Vec2)
    requires t.sources.Some? && DEFAULT_SOURCE !in t.sources.value.info
    ensures t.IndexAndAtlas(TextureLink(DEFAULT_SOURCE)) == Ok((0, t.defaultAtlas))
    ensures t.IndexAndAtlas(AtlasLink(DEFAULT_SOURCE, index)) == Ok((0, t.defaultAtlas))
  {
  }

  /**
   * After a build, a link to a position inside a grid source lands in the main atlas
   * on exactly that cell of the source's grid.
   */
  lemma AtlasLinkHitsCell(t: TextureSetAsset, pre: map<string, PreSource>, p: Packing, atlas: seq<Rect>,
                          k: string, index: Vec2)
    requires Packs(pre, p) && t.sources.Some? && WellLaidOut(pre, p, t.sources.value.info, atlas)
    requires k in pre && pre[k].AtlasPre?
    requires 1 <= index.x <= pre[k].columns && 1 <= index.y <= pre[k].rows
    ensures var r := t.IndexAndAtlas(AtlasLink(k, index));
            && r.Ok? && r.value.1 == t.sources.value.atlas && r.value.0 < |atlas|
            && atlas[r.value.0] == CellRect(pre[k].tileSize, index.x - 1, index.y - 1, Origin(pre, p, k))
  {
    var s := pre[k];
    var info := t.sources.value.info[k];
    assert GridPlaced(s, info, |p.rects|, Origin(pre, p, k), atlas);
    assert t.IndexAndAtlas(AtlasLink(k, index)) == Ok((GridIndex(info.offset, info.columns, index), t.sources.value.atlas));
    GridIndexInBlock(info.offset, s.rows, s.columns, index);
    GridPlacedCell(s, info, |p.rects|, Origin(pre, p, k), atlas, index.y - 1, index.x - 1);
  }

  /** After a build, a link to a texture source lands in the main atlas on that texture's packed rectangle. */
  lemma TextureLinkHitsRect(t: TextureSetAsset, pre: map<string, PreSource>, p: Packing, atlas: seq<Rect>, k: string)
    requires Packs(pre, p) && t.sources.Some? && WellLaidOut(pre, p, t.sources.value.info, atlas)
    requires k in pre && pre[k].TexturePre?
    ensures t.IndexAndAtlas(TextureLink(k)) == Ok((p.slot[pre[k].hdl], t.sources.value.atlas))
    ensures p.slot[pre[k].hdl] < |p.rects| && atlas[p.slot[pre[k].hdl]] == p.rects[p.slot[pre[k].hdl]]
  {
    var i := p.slot[pre[k].hdl];
    assert atlas[..|p.rects|][i] == atlas[i];
  }

  /**
   * The default asset resolves `"@default"` texture links and every sentinel link to
   * index 0 of its one atlas, and fails on every other link.
   */
  lemma DefaultAssetResolves(t: TextureSetAsset, link: SourceLink)
    requires t.sources == Some(Built(t.defaultAtlas, DEFAULT_INFO))
    ensures t.IndexAndAtlas(link).Ok? <==> link == TextureLink(DEFAULT_KEY) || link.source == DEFAULT_SOURCE
    ensures t.IndexAndAtlas(link).Ok? ==> t.IndexAndAtlas(link).value == (0, t.defaultAtlas)
  {
  }
}
