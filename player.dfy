/**
 * The player plugin: its load step and texture set, the entity it spawns when play
 * starts, and the movement system that turns the movement controls into a direction
 * and a facing tile.
 */
module Player {
  import opened Common
  import opened Tiles
  import opened Layout
  import opened TSet
  import opened Controls
  import opened Sync
  import opened AssetGate
  import Load

  const PLAYER_LOAD_NAME: string := "player"
  const PLAYER_TSET: string := "Graphics/robot.tset.ron"

  /** `positive as i32 - negative as i32`: one axis of the movement from two pressed flags. */
  function Axis(positive: bool, negative: bool): (m: int)
    ensures -1 <= m <= 1
    ensures m > 0 <==> positive && !negative
    ensures m < 0 <==> negative && !positive
  {
    (if positive then 1 else 0) - (if negative then 1 else 0)
  }

  /** The tile a movement direction selects: horizontal movement first, no movement selects none. */
  function Facing(moveX: int, moveY: int): (f: Option<string>)
    ensures f.None? <==> moveX == 0 && moveY == 0
    ensures moveX != 0 ==> f == Some(if moveX > 0 then "right" else "left")
    ensures moveX == 0 && moveY != 0 ==> f == Some(if moveY > 0 then "up" else "down")
  {
    if moveX > 0 then Some("right")
    else if moveX < 0 then Some("left")
    else if moveY > 0 then Some("up")
    else if moveY < 0 then Some("down")
    else None
  }

  /**
   * In terms of the four movement controls: a horizontal key held alone decides the
   * facing; otherwise (neither or both held) a vertical key held alone does; opposite
   * keys cancel, and with no decision the tile stays as it was.
   */
  lemma FacingFollowsKeys(right: bool, left: bool, up: bool, down: bool)
    ensures Facing(Axis(right, left), Axis(up, down)) == Some("right") <==> right && !left
    ensures Facing(Axis(right, left), Axis(up, down)) == Some("left") <==> left && !right
    ensures Facing(Axis(right, left), Axis(up, down)) == Some("up") <==> right == left && up && !down
    ensures Facing(Axis(right, left), Axis(up, down)) == Some("down") <==> right == left && down && !up
    ensures Facing(Axis(right, left), Axis(up, down)) == None <==> right == left && up == down
  {
  }

  /**
   * `move_player`, for the one player: the direction is returned (the translation by
   * the player's speed is not modelled) and the facing tile is set when the player moves.
   */
  method MovePlayer(controls: ControlBinds, manager: TSetManager) returns (moveX: int, moveY: int)
    modifies manager`tileName
    ensures moveX == Axis(controls.IsPressed("move_right"), controls.IsPressed("move_left"))
    ensures moveY == Axis(controls.IsPressed("move_up"), controls.IsPressed("move_down"))
    ensures Facing(moveX, moveY).Some? ==> manager.tileName == Facing(moveX, moveY).value
    ensures Facing(moveX, moveY).None? ==> manager.tileName == old(manager.tileName)
  {
    moveX := (if controls.IsPressed("move_right") then 1 else 0) - (if controls.IsPressed("move_left") then 1 else 0);
    moveY := (if controls.IsPressed("move_up") then 1 else 0) - (if controls.IsPressed("move_down") then 1 else 0);
    if moveX > 0 {
      manager.SetTile("right");
    } else if moveX < 0 {
      manager.SetTile("left");
    } else if moveY > 0 {
      manager.SetTile("up");
    } else if moveY < 0 {
      manager.SetTile("down");
    }
  }

  /** `load_assets`: the texture set is requested (`requested` is the handle the server returns) and the step added. */
  method LoadAssets(requested: TSetHandle, load: Load.LoadProcess) returns (assets: TilesetAssets)
    modifies load
    ensures fresh(assets) && assets.tileset == requested
    ensures load.steps == old(load.steps)[PLAYER_LOAD_NAME := false]
  {
    assets := new TilesetAssets(requested);
    load.Add(PLAYER_LOAD_NAME);
  }

  /** `check_load`: the load gate for the player's step. */
  method CheckLoad(assets: TilesetAssets, state: Option<LoadState>, reload: TSetHandle,
                   tsets: AssetStore, store: AtlasStore, load: Load.LoadProcess,
                   packing: Option<Packing>, order: seq<string>)
    returns (outcome: Outcome)
    requires tsets.Valid()
    requires state == Some(Loaded) && assets.tileset in tsets.assets ==>
               tsets.assets[assets.tileset].BuildInputs(packing, order)
    modifies assets, tsets, store, load, AssetAt(tsets, assets.tileset)
    ensures tsets.Valid()
    ensures state.None? || state == Some(Loading) ==>
              outcome == Done && unchanged(assets, tsets, store, load) && unchanged(AssetAt(tsets, assets.tileset))
    ensures state == Some(NotLoaded) ==>
              && outcome == Done && assets.tileset == reload
              && unchanged(tsets, store, load) && unchanged(AssetAt(tsets, old(assets.tileset)))
    ensures state == Some(Failed) ==>
              && assets.tileset == old(tsets.next) && assets.tileset !in old(tsets.assets)
              && assets.tileset in tsets.assets
              && tsets.assets == old(tsets.assets)[assets.tileset := tsets.assets[assets.tileset]]
              && fresh(tsets.assets[assets.tileset])
              && tsets.assets[assets.tileset].sources == Some(Built(|old(store.atlases)|, DEFAULT_INFO))
              && tsets.assets[assets.tileset].defaultAtlas == |old(store.atlases)|
              && tsets.assets[assets.tileset].textures == map[] && tsets.assets[assets.tileset].preSrc == None
              && unchanged(old(AssetAt(tsets, assets.tileset)))
              && store.atlases == old(store.atlases) + [DEFAULT_ATLAS]
              && MarkedDone(old(load.steps), load.steps, PLAYER_LOAD_NAME, outcome)
    ensures state == Some(Loaded) && old(assets.tileset) !in old(tsets.assets) ==>
              outcome == Panicked(MissingAsset) && unchanged(assets, tsets, store, load)
    ensures state == Some(Loaded) && old(assets.tileset) in old(tsets.assets) ==>
              var t := old(tsets.assets[assets.tileset]);
              && unchanged(assets, tsets)
              && (old(t.preSrc).None? ==> unchanged(t, store) && MarkedDone(old(load.steps), load.steps, PLAYER_LOAD_NAME, outcome))
              && (old(t.preSrc).Some? && packing.None? ==>
                    outcome == Panicked(AtlasBuildFailed) && unchanged(t, store, load))
              && (old(t.preSrc).Some? && packing.Some? ==>
                    && t.sources == Some(Built(|old(store.atlases)|, SrcInfo(old(t.preSrc).value, packing.value, order)))
                    && t.preSrc == None
                    && store.atlases == old(store.atlases)
                                        + [TextureAtlas(packing.value.rects + GridCells(old(t.preSrc).value, packing.value, order))]
                    && MarkedDone(old(load.steps), load.steps, PLAYER_LOAD_NAME, outcome))
    ensures outcome == Done ==> load.steps == StepsAfter(old(load.steps), PLAYER_LOAD_NAME, state)
  {
    outcome := AssetGate.CheckLoad(assets, state, reload, PLAYER_LOAD_NAME, tsets, store, load, packing, order);
  }

  /** `setup_player`: the player faces left, showing the single tile of that name. */
  method SetupPlayer(assets: TilesetAssets) returns (manager: TSetManager)
    ensures fresh(manager)
    ensures manager.tset == assets.tileset && manager.tileName == "left" && manager.data == SingleState
  {
    manager := new TSetManager.New(assets.tileset, "left", SingleState);
  }
}
