/**
 * The load gate that the player and map plugins both run every frame of the
 * loading state: it follows the load state of the plugin's texture set, re-requests
 * it, replaces it with the default asset when it failed, or builds it when it
 * loaded, and marks the plugin's load step done once the set is usable.
 */
module AssetGate {
  import opened Common
  import opened Layout
  import opened TSet
  import Load

  /** The asset server's view of a handle. */
  datatype LoadState = NotLoaded | Loading | Loaded | Failed

  /** A plugin's asset resource: the handle of its texture set. */
  class TilesetAssets {
    var tileset: TSetHandle

    constructor (tileset: TSetHandle)
      ensures this.tileset == tileset
    {
      this.tileset := tileset;
    }
  }

  /** The gate ends its wait for a handle in this state. */
  predicate Settles(state: Option<LoadState>)
  {
    state == Some(Loaded) || state == Some(Failed)
  }

  /** The asset stored under `h`, as a frame. */
  function AssetAt(tsets: AssetStore, h: TSetHandle): set<TextureSetAsset>
    reads tsets
  {
    if h in tsets.assets then {tsets.assets[h]} else {}
  }

  /** `load.set(name)` went from `before` to `after` with `outcome`. */
  predicate MarkedDone(before: map<string, bool>, after: map<string, bool>, name: string, outcome: Outcome)
  {
    && (name in before ==> outcome == Done && after == before[name := true])
    && (name !in before ==> outcome == Panicked(MissingStep(name)) && after == before)
  }

  /**
   * `check_load` of a plugin whose step is `name`: with no state or while loading
   * nothing happens; a handle the server has not loaded is requested again (`reload`
   * is the handle that request returns); a failed load installs a fresh default asset
   * under a new handle and marks the step done; a loaded set (which must be in the
   * store) is built and the step marked done.
   */
  method CheckLoad(assets: TilesetAssets, state: Option<LoadState>, reload: TSetHandle, name: string,
                   tsets: AssetStore, store: AtlasStore, load: Load.LoadProcess,
                   packing: Option<Packing>, order: seq<string>)
    returns (outcome: Outcome)
    requires tsets.Valid()
    requires state == Some(Loaded) && assets.tileset in tsets.assets ==>
               tsets.assets[assets.tileset].BuildInputs(packing, order)
    modifies assets, tsets, store, load, AssetAt(tsets, assets.tileset)
    ensures tsets.Valid()
    ensures state.None? || state == Some(Loading) ==>
              outcome == Done && unchanged(assets, tsets, store, load) && unchanged(AssetAt(tsets, assets.tileset))
    ensures state == Some(NotLoaded) ==>
              && outcome == Done && assets.tileset == reload
              && unchanged(tsets, store, load) && unchanged(AssetAt(tsets, old(assets.tileset)))
    ensures state == Some(Failed) ==>
              && assets.tileset == old(tsets.next) && assets.tileset !in old(tsets.assets)
              && assets.tileset in tsets.assets
              && tsets.assets == old(tsets.assets)[assets.tileset := tsets.assets[assets.tileset]]
              && fresh(tsets.assets[assets.tileset])
              && tsets.assets[assets.tileset].sources == Some(Built(|old(store.atlases)|, DEFAULT_INFO))
              && tsets.assets[assets.tileset].defaultAtlas == |old(store.atlases)|
              && tsets.assets[assets.tileset].textures == map[] && tsets.assets[assets.tileset].preSrc == None
              && unchanged(old(AssetAt(tsets, assets.tileset)))
              && store.atlases == old(store.atlases) + [DEFAULT_ATLAS]
              && MarkedDone(old(load.steps), load.steps, name, outcome)
    ensures state == Some(Loaded) && old(assets.tileset) !in old(tsets.assets) ==>
              outcome == Panicked(MissingAsset) && unchanged(assets, tsets, store, load)
    ensures state == Some(Loaded) && old(assets.tileset) in old(tsets.assets) ==>
              var t := old(tsets.assets[assets.tileset]);
              && unchanged(assets, tsets)
              && (old(t.preSrc).None? ==> unchanged(t, store) && MarkedDone(old(load.steps), load.steps, name, outcome))
              && (old(t.preSrc).Some? && packing.None? ==>
                    outcome == Panicked(AtlasBuildFailed) && unchanged(t, store, load))
              && (old(t.preSrc).Some? && packing.Some? ==>
                    && t.sources == Some(Built(|old(store.atlases)|, SrcInfo(old(t.preSrc).value, packing.value, order)))
                    && t.preSrc == None
                    && store.atlases == old(store.atlases)
                                        + [TextureAtlas(packing.value.rects + GridCells(old(t.preSrc).value, packing.value, order))]
                    && MarkedDone(old(load.steps), load.steps, name, outcome))
    ensures outcome == Done ==> load.steps == StepsAfter(old(load.steps), name, state)
  {
    if state.None? {
      return Done;
    }
    if state.value == NotLoaded {
      assets.tileset := reload;
      outcome := Done;
    } else if state.value == Loading {
      outcome := Done;
    } else if state.value == Failed {
      var t := new TextureSetAsset.Default(store);
      var h := tsets.Add(t);
      assets.tileset := h;
      outcome := load.Set(name);
    } else {
      if assets.tileset !in tsets.assets {
        return Panicked(MissingAsset);
      }
      var t := tsets.assets[assets.tileset];
      outcome := t.CheckOrBuild(store, packing, order);
      if outcome.Panicked? {
        return;
      }
      outcome := load.Set(name);
    }
  }

  // ---------------------------------------------------------------------------
  // Frames of the loading state

  /** The steps after one call of a gate for step `name` that returned without panicking. */
  function StepsAfter(steps: map<string, bool>, name: string, state: Option<LoadState>): (r: map<string, bool>)
    ensures r.Keys == steps.Keys
    ensures forall k :: k in steps && steps[k] ==> r[k]
    ensures name in steps && Settles(state) ==> r[name]
    ensures forall k :: k in steps && !steps[k] && r[k] ==> k == name && Settles(state)
  {
    if Settles(state) && name in steps then steps[name := true] else steps
  }

  /** The steps after a run of gate calls, each for a step name in a load state. */
  function Replay(steps: map<string, bool>, calls: seq<(string, Option<LoadState>)>): map<string, bool>
    decreases |calls|
  {
    if calls == [] then steps else Replay(StepsAfter(steps, calls[0].0, calls[0].1), calls[1..])
  }

  /** A run of gate calls keeps the set of steps and never takes a step back to pending. */
  lemma {:induction false} ReplayKeeps(steps: map<string, bool>, calls: seq<(string, Option<LoadState>)>, k: string)
    ensures Replay(steps, calls).Keys == steps.Keys
    ensures k in steps && steps[k] ==> Replay(steps, calls)[k]
    decreases |calls|
  {
    if calls != [] {
      ReplayKeeps(StepsAfter(steps, calls[0].0, calls[0].1), calls[1..], k);
    }
  }

  /** The call `calls[i]` settles step `k`. */
  predicate SettledAt(calls: seq<(string, Option<LoadState>)>, i: int, k: string)
  {
    0 <= i < |calls| && calls[i].0 == k && Settles(calls[i].1)
  }

  /**
   * Once, for every pending step, some gate call found its handle loaded or failed,
   * every step is done, so the next check of the load process asks for the playing state.
   */
  lemma {:induction false} SettledGatesCompleteLoading(steps: map<string, bool>, calls: seq<(string, Option<LoadState>)>)
    requires forall k :: k in steps ==> steps[k] || exists i :: SettledAt(calls, i, k)
    ensures Load.AllDone(Replay(steps, calls))
    decreases |calls|
  {
    if calls != [] {
      var next := StepsAfter(steps, calls[0].0, calls[0].1);
      forall k | k in next ensures next[k] || exists i :: SettledAt(calls[1..], i, k) {
        if !next[k] {
          var i :| SettledAt(calls, i, k);
          assert i != 0;
          assert SettledAt(calls[1..], i - 1, k);
        }
      }
      SettledGatesCompleteLoading(next, calls[1..]);
    }
  }

  /** A pending step that no gate call settles is still pending after the run. */
  lemma {:induction false} UnsettledStepStaysPending(steps: map<string, bool>, calls: seq<(string, Option<LoadState>)>, k: string)
    requires k in steps && !steps[k]
    requires forall i :: 0 <= i < |calls| && calls[i].0 == k ==> !Settles(calls[i].1)
    ensures k in Replay(steps, calls) && !Replay(steps, calls)[k]
    decreases |calls|
  {
    if calls != [] {
      assert calls[0].0 == k ==> !Settles(calls[0].1);
      var next := StepsAfter(steps, calls[0].0, calls[0].1);
      forall i | 0 <= i < |calls[1..]| && calls[1..][i].0 == k ensures !Settles(calls[1..][i].1) {
        assert calls[1..][i] == calls[i + 1];
      }
      UnsettledStepStaysPending(next, calls[1..], k);
    }
  }
}
