# Miner texture sets, controls and loading, in Dafny

This project models the core of the game Miner, a Bevy game written in Rust. The model covers five parts:

- **Texture-set asset** (`src/resources/tset.rs`). A texture-set document declares image sources and a tree of tiles. The loader stages each declared source. A one-shot build packs the images into one texture atlas and cuts every grid source into cells appended after the packed entries. A link from a tile to a source then resolves to an (atlas index, atlas handle) pair. A per-entity tile state picks which link the entity's sprite shows.
- **Control binds** (`src/settings/controls.rs`). A table maps each control name to its state and its bind. Register and set change it in place. An input poll runs once per frame and refreshes every bound control's state from three input flags.
- **Load progress** (`src/load.rs`). A table maps each load step to a done flag. A per-frame check counts the done steps, writes `now/end`, and asks for the playing state once every step is done.
- **Load gates** (`src/player.rs`, `src/map.rs`). The player plugin and the map plugin each follow the load state of their own texture set. Each can re-request its set, substitute the default asset, or build the set, and then mark its load step done.
- **Facing choice** (`src/player.rs`). The player's movement controls pick a facing tile.

Modules, one file each:

- `Common`: Option, Result, and panics as `Outcome.Panicked(Fault)`.
- `Tiles`: the document's datatypes, path resolution and link choice.
- `Layout`: grid cells, the abstract packer, and the layout a build produces.
- `TSet`: the asset class, resolution and the build.
- `Loader`: the loader.
- `Sync`: the tile manager, the sprite and the frame sync.
- `Controls`, `Load`: the two tables.
- `AssetGate`: the `check_load` shared by both plugins.
- `Player`, `Map`: the two plugins.
- `Game`: the loading state as a whole.

How the foreign and nondeterministic parts are modelled:

- **The atlas packer** is a parameter, `Packing(rects, slot)`. The requires `Packs` says every staged image got an index below `|rects|`. `None` stands for a builder that fails, which panics.
- **Hash-map iteration order** is a parameter `order` that enumerates the map's keys once each. This matters in two places: it fixes the order of the grid blocks in the atlas, and it decides which failing image the loader reports.
- **The asset server** appears only through parameters: a load state and the handle a new request returns. Asset stores are classes that hand out handles.
- **Image readability**: the set of paths whose images read and decode is a parameter.
- **Handles**: an image handle is the label the loader registers the image under.

Notes on the code:

- The sentinel source name is `"_@default"`, while the default asset's own table key is `"@default"`. Sentinel links therefore resolve through the fallback branch of `index_and_atlas`, not through that table entry.
- A tile-path walk that reaches a node that is not a group returns that node and ignores the remaining segments.
- Grid blocks follow the iteration order of the staged-source hash map.

## Model

| member | source | states |
|---|---|---|
| Tiles.Split | src/resources/tset.rs:115 | `split('/')`: at least one segment, none containing '/', joining them with '/' gives the path back |
| Tiles.SplitJoin | src/resources/tset.rs:115 | splitting undoes joining, for segments free of '/' |
| Tiles.Descend | src/resources/tset.rs:117-121 | the walk below the first segment: an empty rest, or a node that is not a group, yields that node |
| Tiles.TileAt | src/resources/tset.rs:114-123 | a resolved path's first segment is a top-level name; a path without '/' names exactly its top-level entry, if any |
| Tiles.DescendAppend | src/resources/tset.rs:117-121 | walking a path in two parts is walking the first part and then the second from where it ended |
| Tiles.PathStopsAtNonGroup | src/resources/tset.rs:117-122 | once the walk reaches a non-group node, the path resolves to that node whatever segments follow |
| Tiles.PathMissesInGroup | src/resources/tset.rs:118-119 | a segment missing from the group reached leaves the path unresolved |
| Tiles.PathMissesAtTop | src/resources/tset.rs:116 | a first segment that is not a top-level name leaves the path unresolved |
| Tiles.PathDescendsIntoGroup | src/resources/tset.rs:117-120 | each further segment found in the group reached descends one level |
| Tiles.AsUsize | src/resources/tset.rs:450 | `i32 as usize` is below 2^64 and congruent to the frame modulo 2^64 (two's complement) |
| Tiles.ChooseLink | src/resources/tset.rs:445-497 | the link chosen is none exactly when the state kind does not fit the tile; otherwise it is the sentinel or one of the tile's links; a single tile gives its own link in every state; a group always gives the sentinel |
| Tiles.AnimatedFrameChoice | src/resources/tset.rs:447-453 | a frame `f` selects `frames[f mod n]`, or `frames[(f + 2^64) mod n]` when `f` is negative |
| Tiles.VariantChoice | src/resources/tset.rs:480-493 | a variant state selects the named variant, or the sentinel for an unknown name |
| Tiles.EmptyAnimationShowsDefault | src/resources/tset.rs:454-461 | an animation without frames shows the sentinel |
| Layout.RowRectAt | src/resources/tset.rs:389-398 | a row of the grid has `columns` cells and cell `x` is at `(x, y)` |
| Layout.CellRectsLength | src/resources/tset.rs:385-401 | the grid has `rows * columns` cells |
| Layout.CellRectAt | src/resources/tset.rs:388-398 | entry `y * columns + x` is cell `(x, y)`: min `offset + size * (x, y)`, max `min + size` |
| Layout.CellRectsAt | src/resources/tset.rs:385-401 | the whole grid in row-major order, every cell at its place |
| Layout.Rects | src/resources/tset.rs:385-401 | the nested loops return exactly the row-major grid: `rows * columns` rectangles, entry `y * columns + x` being cell `(x, y)` |
| Layout.SatUsize | src/resources/tset.rs:154-155 | the float-to-`usize` cast: a non-negative value is kept, a negative one saturates to 0 |
| Layout.GridIndex | src/resources/tset.rs:153-155 | the flat index is never below the block's offset; a 1-based position `(x, y)` maps to `offset + (y-1) * columns + (x-1)`; positions at or before the first cell map to the offset |
| Layout.CellRects | src/resources/tset.rs:385-401 | reference definition of the grid `rects` builds, row after row; its properties are `CellRectsLength` and `CellRectsAt` |
| Layout.GridCells | src/resources/tset.rs:224-227 | reference definition of the cells the build appends, source after source in the iteration order; its properties are `GridCellsCount`, `GridCellsPrefix` and `SourceCellsPlaced` |
| Layout.SrcInfo | src/resources/tset.rs:204-241 | reference definition of the table the build writes, one insert per visit at the running index; its properties are `SrcInfoKeys`, `SrcInfoAt` and `BuildLayout` |
| Layout.GridIndexInBlock | src/resources/tset.rs:153-155 | a 1-based position inside the grid maps to `offset + (y-1) * columns + (x-1)`, inside `[offset, offset + rows * columns)` |
| Layout.SourceCellsLength | src/resources/tset.rs:215 | a grid source contributes `rows * columns` cells and a texture none |
| Layout.GridCellsCount | src/resources/tset.rs:224-227 | the appended cells number the sum of the grid sizes visited |
| Layout.SrcInfoKeys | src/resources/tset.rs:204-241 | the table gets an entry for exactly the visited sources |
| Layout.GridCellsPrefix | src/resources/tset.rs:224-227 | the cells appended for a prefix of the visit are a prefix of all cells appended |
| Layout.CellCountPrefix | src/resources/tset.rs:224 | the running index never decreases along the visit |
| Layout.CellCountStep | src/resources/tset.rs:224 | each visit advances the running index by the source's cell count |
| Layout.SrcInfoAt | src/resources/tset.rs:216-238 | a source's entry is the one written on its last visit, at the running index of that moment |
| Layout.InfoForGrid | src/resources/tset.rs:216-223 | a grid source's entry records the offset, rows and columns |
| Layout.SrcInfoOfGrid | src/resources/tset.rs:216-223 | a grid source's entry has offset `len` plus the cells appended before it |
| Layout.SourceCellsPlaced | src/resources/tset.rs:224-227 | a source's cells occupy the slice that starts at the running index of its visit |
| Layout.BlocksOrdered | src/resources/tset.rs:224 | a block visited earlier ends no later than a later block begins |
| Layout.GridPlacedCell | src/resources/tset.rs:213-227 | in a placed block, entry `offset + y * columns + x` is cell `(x, y)` of the source's packed rectangle |
| Layout.SourceCellsOfGrid | src/resources/tset.rs:213-215 | a grid source's cells are the grid cut from its packed rectangle's corner |
| Layout.GridPlacedIntro | src/resources/tset.rs:213-227 | a block written after the packed entries at the running index is placed |
| Layout.GridSourcePlaced | src/resources/tset.rs:206-227 | each grid source's block lies past `len`, inside the atlas, holding its own cells |
| Layout.GridSourcesDisjoint | src/resources/tset.rs:216-224 | the blocks of two grid sources share no index |
| Layout.PositionOf | src/resources/tset.rs:204 | every staged source is visited, and at its last visit no later visit repeats it |
| Layout.TextureKept | src/resources/tset.rs:234-238 | a texture source's entry is its packed index, below `len` |
| Layout.GridKept | src/resources/tset.rs:206-227 | every grid source of the staged table is placed |
| Layout.GridsApart | src/resources/tset.rs:216-224 | any two different grid sources have disjoint blocks |
| Layout.BuildLayout | src/resources/tset.rs:201-241 | the build's layout: table keys equal the staged keys, packed entries first and unchanged, textures at their packed index below `len`, grid blocks placed past `len` and pairwise disjoint, `len + Σ rows * columns` entries in all |
| TSet.AtlasStore.Add | src/resources/tset.rs:242 | `add` stores the atlas at the next handle, leaving the others |
| TSet.TextureSetAsset.FromLoader | src/resources/tset.rs:353-358 | the loaded asset is unbuilt and holds the tile tree, the fallback handle and the staged table |
| TSet.TextureSetAsset.Default | src/resources/tset.rs:246-267 | `default()` adds the one-cell 16×16 fallback atlas and is already built, with that atlas as main and fallback atlas, only `"@default"` at index 0, no tiles, nothing staged |
| TSet.TextureSetAsset.GetTileOpt | src/resources/tset.rs:114-123 | the loop's walk is the path resolution `TileAt` |
| TSet.TextureSetAsset.GetTile | src/resources/tset.rs:101-113 | `get_tile` never fails: the named node, or the sentinel tile |
| TSet.TextureSetAsset.IndexAndAtlas | src/resources/tset.rs:124-168 | resolution: before the build it panics; a known source of the link's kind gives its texture index or grid index in the main atlas; otherwise the sentinel gives `(0, fallback)` and any other name panics |
| TSet.TextureSetAsset.CheckOrBuild | src/resources/tset.rs:170-245 | no-op once built; a failing packer panics; otherwise it adds the atlas of packed entries plus grid cells, records the table, clears the staged sources, and the result satisfies `WellLaidOut` with `len + Σ rows * columns` entries |
| TSet.BuildTwice | src/resources/tset.rs:175-177 | a second build after a successful one changes nothing: the state is that of one build |
| TSet.LayOutSources | src/resources/tset.rs:201-241 | the second loop of the build, with its running index, writes exactly the table `SrcInfo` and the atlas entries packed rects + `GridCells` |
| TSet.AddTextures | src/resources/tset.rs:225-227 | `add_texture` appends the cells in order |
| TSet.BuildStep | src/resources/tset.rs:204-241 | one visit extends the cells, the running index and the table by that source's contribution |
| TSet.AssetStore.Add | src/player.rs:101 | `tsets.add` stores the asset under a handle no other asset has |
| TSet.SentinelResolves | src/resources/tset.rs:133-139 | the sentinel resolves to index 0 of the fallback atlas whenever the table does not know it |
| TSet.AtlasLinkHitsCell | src/resources/tset.rs:147-156 | after a build, a link to a position inside a grid source lands in the main atlas on exactly that cell |
| TSet.TextureLinkHitsRect | src/resources/tset.rs:128-132 | after a build, a texture link lands in the main atlas on that texture's packed rectangle |
| TSet.DefaultAssetResolves | src/resources/tset.rs:246-267 | the default asset resolves exactly `"@default"` texture links and sentinel links, all to index 0 of its atlas |
| Loader.DirPrefix | src/resources/tset.rs:302-307 | the directory prefix is a prefix of the path, empty or ending in '/', with no '/' after it |
| Loader.DirPrefixUnique | src/resources/tset.rs:302-306 | no other prefix has those three properties |
| Loader.ImageLabel | src/resources/tset.rs:323 | the label is `img_` followed by the source name |
| Loader.ImageLabelInjective | src/resources/tset.rs:337-338 | different source names get different labels |
| Loader.SourcePath | src/resources/tset.rs:321 | reference definition: the image path is the document's directory followed by the source name |
| Loader.SourcePathInDir | src/resources/tset.rs:302-321 | an image named without '/' lies in the document's own directory |
| Loader.LoadImage | src/resources/tset.rs:367-383 | a path without '.' panics on the extension; otherwise the image loads exactly when it is readable |
| Loader.FirstFailure | src/resources/tset.rs:313-342 | reference definition: the failure of the first source in iteration order whose image does not load; its property is `FirstFailureIsFirst` |
| Loader.FirstFailureIsFirst | src/resources/tset.rs:313-342 | the loader's failure is none exactly when every image loads, and otherwise that of a source all of whose predecessors load |
| Loader.PreSourceFor | src/resources/tset.rs:314-340 | a staged source keeps its shape (rows, columns, tile size) and its image goes under its label |
| Loader.PreSources | src/resources/tset.rs:311-342 | the staged table has one entry per declared source |
| Loader.StagedUpTo | src/resources/tset.rs:313-342 | reference definition of the staged table after a prefix of the iteration order; its properties are `StagedUpToEntries` and `StagedAll` |
| Loader.StagedUpToEntries | src/resources/tset.rs:313-342 | after visiting `order` exactly those sources are staged, each in its own shape |
| Loader.StagedAll | src/resources/tset.rs:311-342 | visiting every declared source stages the whole document |
| Loader.StagedLabelsDistinct | src/resources/tset.rs:322-338 | the staged images of two sources have different labels |
| Loader.StageSources | src/resources/tset.rs:313-342 | the loop stops with the first failure in order, or returns the staged table |
| Loader.Load | src/resources/tset.rs:298-358 | `load` stops (an error, or the extension panic) exactly on the first failing image and then adds nothing; otherwise it adds the fallback atlas and returns an unbuilt asset with the document's tiles and one staged entry per source |
| Sync.TSetManager.New | src/resources/tset.rs:418-424 | `new` stores the handle, tile name and state |
| Sync.TSetManager.SetTile | src/resources/tset.rs:425-427 | `set_tile` changes only the tile name |
| Sync.Show | src/resources/tset.rs:449-453 | the sprite takes the resolved index and atlas, or the resolution panics and the sprite is untouched |
| Sync.Update | src/resources/tset.rs:430-504 | frame sync: an unloaded set or a state that does not fit the tile leaves the sprite alone; otherwise the sprite shows the resolution of `ChooseLink` on `get_tile` |
| Controls.Poll | src/settings/controls.rs:96-117 | the state from the input, first match wins: just pressed gives OnceRun, pressed gives Run, just released gives ReleaseRun, otherwise Not |
| Controls.Refresh | src/settings/controls.rs:95-118 | one entry of the poll keeps its bind; a key or mouse control takes `Poll` of its device's input, an unbound one keeps its state |
| Controls.Frame | src/settings/controls.rs:94-120 | the poll of every entry keeps the set of controls |
| Controls.WithBind | src/settings/controls.rs:49-59 | after `set`, the name is registered with the new bind, keeping its state or starting at Not |
| Controls.WithMovementBinds | src/settings/controls.rs:16-21 | after setup, the four movement names are registered besides the old ones |
| Controls.ControlBinds.constructor | src/settings/controls.rs:38-42 | the default resource has no controls |
| Controls.ControlBinds.Register | src/settings/controls.rs:45-48 | `register` stores `(Not, None)`, overwriting any entry |
| Controls.ControlBinds.Set | src/settings/controls.rs:49-59 | `set` replaces only the bind of a known control; an unknown one is inserted with state Not |
| Controls.ControlBinds.IsPressed | src/settings/controls.rs:60-68 | true exactly for a registered control whose state is not Not |
| Controls.ControlBinds.IsJustPressed | src/settings/controls.rs:69-77 | true exactly for a registered control in OnceRun |
| Controls.ControlBinds.IsJustReleased | src/settings/controls.rs:78-86 | true exactly for a registered control in ReleaseRun |
| Controls.ControlBinds.CheckControls | src/settings/controls.rs:89-121 | the in-place loop refreshes every control as `Frame` says |
| Controls.SetupControls | src/settings/controls.rs:16-21 | setup performs the four `set` calls |
| Controls.FrameKeepsBinds | src/settings/controls.rs:94-118 | a poll keeps the key set and every bind, and leaves unbound controls untouched |
| Controls.QueriesAfterFrame | src/settings/controls.rs:60-106 | after a poll, the queries on a key control read the key's input; a release frame still counts as pressed |
| Controls.FrameForgetsStates | src/settings/controls.rs:94-120 | the state after a poll depends only on binds and input |
| Controls.FrameIdempotent | src/settings/controls.rs:94-120 | polling the same input twice is polling once |
| Controls.MovementBinds | src/settings/controls.rs:16-21 | setup binds W, S, A, D to the four movement controls, keeps their states, and leaves every other control |
| Controls.SetupFromEmpty | src/settings/controls.rs:16-21 | from the default resource, setup gives exactly four idle controls |
| Load.LoadProcess.New | src/load.rs:17-21 | `new` has no steps |
| Load.LoadProcess.Add | src/load.rs:11-13 | `add` registers the step as not done, also resetting a done one |
| Load.LoadProcess.Set | src/load.rs:14-16 | `set` marks a known step done and panics on an unknown one |
| Load.DoneSteps | src/load.rs:68-74 | the done steps are the steps whose flag is set |
| Load.Decimal | src/load.rs:76 | `{n}` is a non-empty string of digits, without leading zeros |
| Load.DecimalRoundTrip | src/load.rs:76 | reading the digits back gives the number |
| Load.ProgressTextReadsBack | src/load.rs:76 | the text `now/end` splits at its one '/' into the two counts |
| Load.AllDoneIffCountsMeet | src/load.rs:77 | `now == end` exactly when every step is done |
| Load.CheckLoadProcess | src/load.rs:62-81 | `now` counts the done steps, `end` is the step count, `now <= end`, the text is `now/end`, and Playing is requested exactly when every step is done |
| Load.SetLoadProcess | src/load.rs:82-84 | the reset leaves no steps |
| Load.SetCountsOnce | src/load.rs:14-16 | marking a pending step done adds one to the count; marking a done one changes nothing |
| Load.AddResetsStep | src/load.rs:11-13 | adding a done step again lowers the count by one and keeps the step count |
| Load.NoStepsMeansDone | src/load.rs:77-80 | with no steps, every step is done and the text is `0/0` |
| AssetGate.CheckLoad | src/player.rs:85-112 | the dispatch: no state or Loading changes nothing; NotLoaded re-requests; Failed installs a fresh default asset (built, no tiles, nothing staged) under a new handle, leaves the replaced asset untouched and marks the step; Loaded panics on a missing asset, else builds and marks the step; on return the steps are `StepsAfter` |
| AssetGate.StepsAfter | src/player.rs:99-108 | one gate call keeps the step set, never undoes a step, and completes only its own step when settled |
| AssetGate.ReplayKeeps | src/player.rs:93-111 | a run of gate calls keeps the step set and never takes a step back to pending |
| AssetGate.SettledGatesCompleteLoading | src/player.rs:99-108 | once every pending step's gate has seen Loaded or Failed, every step is done |
| AssetGate.UnsettledStepStaysPending | src/player.rs:95-98 | a step whose gate never settles stays pending |
| Player.Axis | src/player.rs:51-52 | one movement axis is in {-1, 0, 1}, positive or negative exactly when only that key is held |
| Player.Facing | src/player.rs:55-63 | no tile exactly when there is no movement; horizontal movement picks right or left, otherwise vertical movement picks up or down |
| Player.FacingFollowsKeys | src/player.rs:55-63 | facing: a lone horizontal key decides, else a lone vertical key, opposite keys cancel, no decision keeps the tile |
| Player.MovePlayer | src/player.rs:47-67 | returns both axes and sets the tile `Facing` chooses, leaving it when there is no movement |
| Player.LoadAssets | src/player.rs:75-84 | the requested handle is stored and step `"player"` added as not done |
| Player.CheckLoad | src/player.rs:85-112 | the gate for `"player"`: every case of `AssetGate.CheckLoad`'s contract, with the step name `"player"` |
| Player.SetupPlayer | src/player.rs:38 | the player starts on tile `"left"` in state Single |
| Map.LoadAssets | src/map.rs:47-56 | the requested handle is stored and step `"map"` added as not done |
| Map.CheckLoad | src/map.rs:57-84 | the gate for `"map"`: every case of `AssetGate.CheckLoad`'s contract, with the step name `"map"` |
| Map.SetupMap | src/map.rs:33-37 | the map tile starts on `"grass"` in state `Variant("var1")` |
| Game.BothSettledStartsPlaying | src/load.rs:77-80 | once the player gate and the map gate have both settled, every step is done, so Playing follows |
| Game.MapPendingKeepsLoading | src/map.rs:65-83 | while the map's set never settles, loading does not end |
| Game.PlayerPendingKeepsLoading | src/player.rs:93-111 | while the player's set never settles, loading does not end |

## Left out

- Atlas packing (`TextureAtlasBuilder`, src/resources/tset.rs:179-200): a foreign library. It is the `Packing` parameter. Nothing requires that its handle-to-index map be injective, because no property here needs it.
- Reading the document, image bytes and image decoding (src/resources/tset.rs:309, 367-383): I/O and foreign calls. They are parameters: the parsed document, and the set of readable image paths.
- Document and I/O failures before the source loop: an `Io` or RON error, and a path that is not valid UTF-8. RON parsing is foreign code.
- Image contents: not modelled. An image is its label, and registering labeled assets is not modelled either.
- Floating point: sizes and positions are integers. Tile-link positions are cast to `usize` with negatives saturating to 0. The upper saturation is not modelled, and neither is an overflow of the index sum.
- Floating-point state left out entirely: animation speed, the player's speed and translation (`MovePlayer` returns the direction only), `ScaleSize` and the sprite's custom size.
- Scheduling: `par_iter_mut` and the `Changed<TSetManager>` filter in `update`. `Sync.Update` handles one entity at a time.
- `single_mut` panics when there is not exactly one player or one progress bar.
- Logging, plugin wiring, the camera, the `Tick` counter, and spawning and despawning the progress bar (src/load.rs:44-60).
- `check_load_process` output: the new game state and the progress text are returned, not written to the ECS.
- Asset server: the load-state query and re-requests are parameters of the gates.
- Sprite reset on spawn: the `SpriteSheetBundle` defaults are not modelled. Only the tile manager is.
- Loader.LoadFailure.NoExtension stands for the panic of `rsplit_once('.').unwrap()` inside the loader task, not for an error the loader returns; `Loader.Load` reports it through the same `Err` as an unreadable image.
- Tiles.USIZE_MODULUS: the model fixes `usize` at 64 bits.
- Loader.Load: the image label is `img_` + name, standing in for the handle `add_labeled_asset` returns.
