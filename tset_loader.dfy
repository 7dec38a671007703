/**
 * The texture-set loader: the directory of the document, the image each declared
 * source names, the label each image is registered under, and the staged source
 * table the loader hands to the build.
 */
module Loader {
  import opened Common
  import opened Tiles
  import opened Layout
  import opened TSet

  /** Why loading a texture-set document stops. */
  datatype LoadFailure =
    | NoExtension(path: string)     // an image path without a '.', on which the extension lookup panics
    | ImageUnreadable(path: string) // an image whose bytes cannot be read or decoded

  /**
   * The directory part of the document's path: everything up to and including the
   * last '/', or the empty string when there is none.
   */
  function DirPrefix(path: string): (dir: string)
    ensures dir <= path
    ensures dir == [] || dir[|dir| - 1] == '/'
    ensures '/' !in path[|dir|..]
    decreases |path|
  {
    if path == [] then []
    else if path[|path| - 1] == '/' then path
    else
      var d := DirPrefix(path[..|path| - 1]);
      assert path[|d|..] == path[..|path| - 1][|d|..] + [path[|path| - 1]];
      d
  }

  /** A prefix ending in '/' cannot reach past a prefix after which no '/' follows. */
  lemma SlashPrefixBounded(path: string, a: string, b: string)
    requires a <= path && '/' !in path[|a|..]
    requires b <= path && (b == [] || b[|b| - 1] == '/')
    ensures |b| <= |a|
  {
    if b != [] {
      assert forall i :: |a| <= i < |path| ==> path[|a|..][i - |a|] == path[i];
      assert path[|b| - 1] == b[|b| - 1];
    }
  }

  /** The three properties of `DirPrefix` single it out: no other prefix has them. */
  lemma DirPrefixUnique(path: string, dir: string)
    requires dir <= path && (dir == [] || dir[|dir| - 1] == '/') && '/' !in path[|dir|..]
    ensures dir == DirPrefix(path)
  {
    var d := DirPrefix(path);
    SlashPrefixBounded(path, dir, d);
    SlashPrefixBounded(path, d, dir);
    assert dir == path[..|dir|] && d == path[..|d|];
  }

  /** The label a source's image is registered under. */
  function ImageLabel(name: string): (l: ImageHandle)
    ensures |l| == |name| + 4 && l[4..] == name
  {
    "img_" + name
  }

  /** Different sources register their images under different labels. */
  lemma ImageLabelInjective(a: string, b: string)
    requires a != b
    ensures ImageLabel(a) != ImageLabel(b)
  {
    assert ImageLabel(a)[4..] == a && ImageLabel(b)[4..] == b;
  }

  /** The path of the image a source names, relative to the document's directory. */
  function SourcePath(dir: string, cfg: SourceConfig): string
  {
    dir + cfg.source
  }

  /** A source named without a '/' lies in the document's own directory. */
  lemma SourcePathInDir(docPath: string, cfg: SourceConfig)
    requires '/' !in cfg.source
    ensures DirPrefix(SourcePath(DirPrefix(docPath), cfg)) == DirPrefix(docPath)
  {
    var dir := DirPrefix(docPath);
    assert (dir + cfg.source)[|dir|..] == cfg.source;
    DirPrefixUnique(SourcePath(dir, cfg), dir);
  }

  /**
   * `load_image`: a path without a '.' panics on the extension lookup; otherwise the
   * image loads exactly when its bytes can be read and decoded, which `readable` records.
   */
  function LoadImage(path: string, readable: set<string>): (r: Option<LoadFailure>)
    ensures r == Some(NoExtension(path)) <==> '.' !in path
    ensures r == Some(ImageUnreadable(path)) <==> '.' in path && path !in readable
    ensures r.None? <==> '.' in path && path in readable
  {
    if '.' !in path then Some(NoExtension(path))
    else if path !in readable then Some(ImageUnreadable(path))
    else None
  }

  /** Every name of `order` is a declared source. */
  predicate Declared(sources: map<string, SourceConfig>, order: seq<string>)
  {
    forall i :: 0 <= i < |order| ==> order[i] in sources
  }

  /** Whether source `k`'s image fails to load. */
  function FailureOf(dir: string, sources: map<string, SourceConfig>, readable: set<string>, k: string): Option<LoadFailure>
    requires k in sources
  {
    LoadImage(SourcePath(dir, sources[k]), readable)
  }

  /**
   * The failure the loader stops on: that of the first source, in the iteration
   * order, whose image does not load; `None` when every image loads.
   */
  function FirstFailure(dir: string, sources: map<string, SourceConfig>, order: seq<string>, readable: set<string>)
    : Option<LoadFailure>
    requires Declared(sources, order)
    decreases |order|
  {
    if order == [] then None
    else if FailureOf(dir, sources, readable, order[0]).Some? then FailureOf(dir, sources, readable, order[0])
    else FirstFailure(dir, sources, order[1..], readable)
  }

  /**
   * `FirstFailure` finds nothing exactly when every image loads, and what it finds is
   * the failure of a source all of whose predecessors load.
   */
  lemma {:induction false} FirstFailureIsFirst(dir: string, sources: map<string, SourceConfig>, order: seq<string>,
                                               readable: set<string>)
    requires Declared(sources, order)
    ensures var r := FirstFailure(dir, sources, order, readable);
            r.None? <==> forall i :: 0 <= i < |order| ==> FailureOf(dir, sources, readable, order[i]).None?
    ensures var r := FirstFailure(dir, sources, order, readable);
            r.Some? ==> exists i :: 0 <= i < |order| && FailureOf(dir, sources, readable, order[i]) == r
                                    && forall j :: 0 <= j < i ==> FailureOf(dir, sources, readable, order[j]).None?
    decreases |order|
  {
    if order != [] && FailureOf(dir, sources, readable, order[0]).None? {
      FirstFailureIsFirst(dir, sources, order[1..], readable);
      var rest := FirstFailure(dir, sources, order[1..], readable);
      assert forall i :: 1 <= i < |order| ==> order[1..][i - 1] == order[i];
      if rest.Some? {
        var i :| 0 <= i < |order[1..]| && FailureOf(dir, sources, readable, order[1..][i]) == rest
                 && forall j :: 0 <= j < i ==> FailureOf(dir, sources, readable, order[1..][j]).None?;
        assert FailureOf(dir, sources, readable, order[i + 1]) == rest;
      }
    }
  }

  /** The staged form of one declared source: its shape, with its image under its label. */
  function PreSourceFor(name: string, cfg: SourceConfig): (s: PreSource)
    ensures s.hdl == ImageLabel(name)
    ensures s.AtlasPre? <==> cfg.AtlasSource?
    ensures cfg.AtlasSource? ==> s.rows == cfg.rows && s.columns == cfg.columns && s.tileSize == cfg.tileSize
  {
    match cfg
    case AtlasSource(_, rows, columns, tileSize) => AtlasPre(ImageLabel(name), rows, columns, tileSize)
    case TextureSource(_) => TexturePre(ImageLabel(name))
  }

  /** The staged table of a whole document: one entry per declared source. */
  function PreSources(sources: map<string, SourceConfig>): (pre: map<string, PreSource>)
    ensures pre.Keys == sources.Keys
  {
    map k | k in sources :: PreSourceFor(k, sources[k])
  }

  /** The staged table after the sources of `order` have been visited. */
  function StagedUpTo(sources: map<string, SourceConfig>, order: seq<string>): map<string, PreSource>
    requires Declared(sources, order)
  {
    if order == [] then map[]
    else
      var last := order[|order| - 1];
      StagedUpTo(sources, order[..|order| - 1])[last := PreSourceFor(last, sources[last])]
  }

  /** Visiting the sources of `order` stages exactly those sources, each in its own shape. */
  lemma {:induction false} StagedUpToEntries(sources: map<string, SourceConfig>, order: seq<string>, k: string)
    requires Declared(sources, order)
    ensures k in StagedUpTo(sources, order) <==> k in order
    ensures k in order ==> StagedUpTo(sources, order)[k] == PreSourceFor(k, sources[k])
    decreases |order|
  {
    if order != [] {
      var init := order[..|order| - 1];
      StagedUpToEntries(sources, init, k);
      assert order == init + [order[|order| - 1]];
    }
  }

  /** Visiting every declared source stages the whole document. */
  lemma StagedAll(sources: map<string, SourceConfig>, order: seq<string>)
    requires IsOrder(order, sources.Keys)
    ensures Declared(sources, order) && StagedUpTo(sources, order) == PreSources(sources)
  {
    var staged := StagedUpTo(sources, order);
    forall k
      ensures k in staged <==> k in sources
      ensures k in staged ==> staged[k] == PreSourceFor(k, sources[k])
    {
      StagedUpToEntries(sources, order, k);
    }
  }

  /**
   * A staged document gives every source its own label, so the packer is handed one
   * image per source: the labels of two different sources differ.
   */
  lemma StagedLabelsDistinct(sources: map<string, SourceConfig>, a: string, b: string)
    requires a in sources && b in sources && a != b
    ensures PreSources(sources)[a].hdl != PreSources(sources)[b].hdl
  {
    ImageLabelInjective(a, b);
  }

  /**
   * The loop of `load`: the image of each source of `order` is loaded in turn and the
   * source staged; the first image that fails stops the loop with its failure.
   */
  method StageSources(dir: string, sources: map<string, SourceConfig>, order: seq<string>, readable: set<string>)
    returns (r: Result<map<string, PreSource>, LoadFailure>)
    requires Declared(sources, order)
    ensures r.Err? <==> FirstFailure(dir, sources, order, readable).Some?
    ensures r.Err? ==> FirstFailure(dir, sources, order, readable) == Some(r.error)
    ensures r.Ok? ==> r.value == StagedUpTo(sources, order)
  {
    var preSrc: map<string, PreSource> := map[];
    var i := 0;
    while i < |order|
      invariant 0 <= i <= |order|
      invariant FirstFailure(dir, sources, order[i..], readable) == FirstFailure(dir, sources, order, readable)
      invariant preSrc == StagedUpTo(sources, order[..i])
    {
      var name := order[i];
      assert order[i..][0] == name && order[i..][1..] == order[i + 1..];
      assert order[..i + 1][..i] == order[..i] && order[..i + 1][i] == name;
      var failed := LoadImage(dir + sources[name].source, readable);
      if failed.Some? {
        return Err(failed.value);
      }
      var staged := match sources[name]
                    case AtlasSource(_, rows, columns, tileSize) => AtlasPre(ImageLabel(name), rows, columns, tileSize)
                    case TextureSource(_) => TexturePre(ImageLabel(name));
      preSrc := preSrc[name := staged];
      i := i + 1;
    }
    assert order[..|order|] == order;
    return Ok(preSrc);
  }

  /**
   * `load`: the images of the declared sources are loaded in the iteration order
   * `order`; the first one that fails stops the load with its failure and nothing is
   * added. When all load, the fallback atlas is added to the atlas store and the
   * result is an unbuilt asset holding the document's tile tree and the staged table.
   */
  method Load(store: AtlasStore, assetPath: string, doc: RonTextureSetAsset, order: seq<string>, readable: set<string>)
    returns (r: Result<TextureSetAsset, LoadFailure>)
    requires IsOrder(order, doc.sources.Keys)
    modifies store
    ensures Declared(doc.sources, order)
    ensures r.Err? <==> FirstFailure(DirPrefix(assetPath), doc.sources, order, readable).Some?
    ensures r.Err? ==> FirstFailure(DirPrefix(assetPath), doc.sources, order, readable) == Some(r.error)
                       && store.atlases == old(store.atlases)
    ensures r.Ok? ==> && fresh(r.value)
                      && r.value.sources == None
                      && r.value.textures == doc.textures
                      && r.value.preSrc == Some(PreSources(doc.sources))
                      && r.value.defaultAtlas == |old(store.atlases)|
                      && store.atlases == old(store.atlases) + [DEFAULT_ATLAS]
  {
    StagedAll(doc.sources, order);
    var staged := StageSources(DirPrefix(assetPath), doc.sources, order, readable);
    if staged.Err? {
      return Err(staged.error);
    }
    var h := store.Add(DEFAULT_ATLAS);
    var t := new TextureSetAsset.FromLoader(doc.textures, h, staged.value);
    return Ok(t);
  }
}
