/**
 * The per-entity side of texture sets: the component naming an entity's tile and
 * state, the sprite it drives, and the frame sync that points the sprite at the
 * atlas cell of the resolved link.
 */
module Sync {
  import opened Common
  import opened Tiles
  import opened TSet

  /** `TSetManager`: which texture set, which tile in it, and the entity's tile state. */
  class TSetManager {
    var tset: TSetHandle
    var tileName: string
    var data: TSetTile

    constructor New(tset: TSetHandle, name: string, data: TSetTile)
      ensures this.tset == tset && tileName == name && this.data == data
    {
      this.tset := tset;
      tileName := name;
      this.data := data;
    }

    /** `set_tile`: only the tile name changes. */
    method SetTile(name: string)
      modifies this`tileName
      ensures tileName == name
    {
      tileName := name;
    }
  }

  /** An entity's atlas handle and its sprite's index into that atlas. */
  class Sprite {
    var atlas: AtlasHandle
    var index: nat

    constructor (atlas: AtlasHandle, index: nat)
      ensures this.atlas == atlas && this.index == index
    {
      this.atlas := atlas;
      this.index := index;
    }
  }

  /** The sprite shows what `n` resolves `link` to, or the resolution panics. */
  method Show(n: TextureSetAsset, link: SourceLink, sprite: Sprite) returns (outcome: Outcome)
    modifies sprite
    ensures n.IndexAndAtlas(link).Err? ==> outcome == Panicked(n.IndexAndAtlas(link).error) && unchanged(sprite)
    ensures n.IndexAndAtlas(link).Ok? ==>
              outcome == Done && sprite.index == n.IndexAndAtlas(link).value.0 && sprite.atlas == n.IndexAndAtlas(link).value.1
  {
    var r := n.IndexAndAtlas(link);
    if r.Err? {
      return Panicked(r.error);
    }
    sprite.atlas := r.value.1;
    sprite.index := r.value.0;
    return Done;
  }

  /**
   * `update`, for one entity: an unknown texture set, or a tile state that does not
   * fit the tile, leaves the sprite alone; otherwise the link the tile and state
   * choose is resolved and the sprite is pointed at it (a failed resolution panics).
   */
  method Update(tsets: AssetStore, manager: TSetManager, sprite: Sprite) returns (outcome: Outcome)
    modifies sprite
    ensures manager.tset !in tsets.assets ==> outcome == Done && unchanged(sprite)
    ensures manager.tset in tsets.assets ==>
              var n := tsets.assets[manager.tset];
              var link := ChooseLink(TileOrDefault(TileAt(n.textures, manager.tileName)), manager.data);
              && (link.None? ==> outcome == Done && unchanged(sprite))
              && (link.Some? && n.IndexAndAtlas(link.value).Err? ==>
                    outcome == Panicked(n.IndexAndAtlas(link.value).error) && unchanged(sprite))
              && (link.Some? && n.IndexAndAtlas(link.value).Ok? ==>
                    && outcome == Done
                    && sprite.index == n.IndexAndAtlas(link.value).value.0
                    && sprite.atlas == n.IndexAndAtlas(link.value).value.1)
  {
    if manager.tset !in tsets.assets {
      return Done;
    }
    var n := tsets.assets[manager.tset];
    var tile := n.GetTile(manager.tileName);
    match tile {
      case Animated(frames) =>
        if manager.data.AnimatedState? {
          if |frames| > 0 {
            outcome := Show(n, frames[AsUsize(manager.data.frame) % |frames|], sprite);
          } else {
            outcome := Show(n, DEFAULT_LINK, sprite);
          }
        } else {
          outcome := Done;
        }
      case Single(link) =>
        outcome := Show(n, link, sprite);
      case Group(_) =>
        outcome := Show(n, DEFAULT_LINK, sprite);
      case Variant(variants) =>
        if manager.data.VariantState? {
          var variant := if manager.data.name in variants then variants[manager.data.name] else DEFAULT_LINK;
          outcome := Show(n, variant, sprite);
        } else {
          outcome := Done;
        }
    }
  }
}
