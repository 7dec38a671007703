/** The map plugin: its load step and texture set, and the tile it spawns when play starts. */
module Map {
  import opened Common
  import opened Tiles
  import opened Layout
  import opened TSet
  import opened Sync
  import opened AssetGate
  import Load

  const MAP_LOAD_NAME: string := "map"
  const MAP_TSET: string := "Graphics/tiles.tset.ron"

  /** `load_assets`: the texture set is requested (`requested` is the handle the server returns) and the step added. */
  method LoadAssets(requested: TSetHandle, load: Load.LoadProcess) returns (assets: TilesetAssets)
    modifies load
    ensures fresh(assets) && assets.tileset == requested
    ensures load.steps == old(load.steps)[MAP_LOAD_NAME := false]
  {
    assets := new TilesetAssets(requested);
    load.Add(MAP_LOAD_NAME);
  }

  /** `check_load`: the load gate for the map's step. */
  method CheckLoad(assets: TilesetAssets, state: Option<LoadState>, reload: TSetHandle,
                   tsets: AssetStore, store: AtlasStore, load: Load.LoadProcess,
                   packing: Option<Packing>, order: seq<string>)
    returns (outcome: Outcome)
    requires tsets.Valid()
    requires state == Some(Loaded) && assets.tileset in tsets.assets ==>
               tsets.assets[assets.tileset].BuildInputs(packing, order)
    modifies assets, tsets, store, load, AssetAt(tsets, assets.tileset)
    ensures tsets.Valid()
    ensures state.None? || state == Some(Loading) ==>
              outcome == Done && unchanged(assets, tsets, store, load) && unchanged(AssetAt(tsets, assets.tileset))
    ensures state == Some(NotLoaded) ==>
              && outcome == Done && assets.tileset == reload
              && unchanged(tsets, store, load) && unchanged(AssetAt(tsets, old(assets.tileset)))
    ensures state == Some(Failed) ==>
              && assets.tileset == old(tsets.next) && assets.tileset !in old(tsets.assets)
              && assets.tileset in tsets.assets
              && tsets.assets == old(tsets.assets)[assets.tileset := tsets.assets[assets.tileset]]
              && fresh(tsets.assets[assets.tileset])
              && tsets.assets[assets.tileset].sources == Some(Built(|old(store.atlases)|, DEFAULT_INFO))
              && tsets.assets[assets.tileset].defaultAtlas == |old(store.atlases)|
              && tsets.assets[assets.tileset].textures == map[] && tsets.assets[assets.tileset].preSrc == None
              && unchanged(old(AssetAt(tsets, assets.tileset)))
              && store.atlases == old(store.atlases) + [DEFAULT_ATLAS]
              && MarkedDone(old(load.steps), load.steps, MAP_LOAD_NAME, outcome)
    ensures state == Some(Loaded) && old(assets.tileset) !in old(tsets.assets) ==>
              outcome == Panicked(MissingAsset) && unchanged(assets, tsets, store, load)
    ensures state == Some(Loaded) && old(assets.tileset) in old(tsets.assets) ==>
              var t := old(tsets.assets[assets.tileset]);
              && unchanged(assets, tsets)
              && (old(t.preSrc).None? ==> unchanged(t, store) && MarkedDone(old(load.steps), load.steps, MAP_LOAD_NAME, outcome))
              && (old(t.preSrc).Some? && packing.None? ==>
                    outcome == Panicked(AtlasBuildFailed) && unchanged(t, store, load))
              && (old(t.preSrc).Some? && packing.Some? ==>
                    && t.sources == Some(Built(|old(store.atlases)|, SrcInfo(old(t.preSrc).value, packing.value, order)))
                    && t.preSrc == None
                    && store.atlases == old(store.atlases)
                                        + [TextureAtlas(packing.value.rects + GridCells(old(t.preSrc).value, packing.value, order))]
                    && MarkedDone(old(load.steps), load.steps, MAP_LOAD_NAME, outcome))
    ensures outcome == Done ==> load.steps == StepsAfter(old(load.steps), MAP_LOAD_NAME, state)
  {
    outcome := AssetGate.CheckLoad(assets, state, reload, MAP_LOAD_NAME, tsets, store, load, packing, order);
  }

  /** `setup_map`: one map tile showing the `var1` variant of the `grass` tile. */
  method SetupMap(assets: TilesetAssets) returns (manager: TSetManager)
    ensures fresh(manager)
    ensures manager.tset == assets.tileset && manager.tileName == "grass" && manager.data == VariantState("var1")
  {
    manager := new TSetManager.New(assets.tileset, "grass", VariantState("var1"));
  }
}
