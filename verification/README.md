# axis-colors: the discrete rules of a two-player runner

This project models, in Dafny, the game rules of a two-player browser runner
that have nothing to do with pixels:

- **Chunk sequencer.** The level is a strip of chunks laid left to right.
  Each chunk is `normal`, `tunnel`, `platform`, `empty` or `button`. Its type
  is drawn from a weighted table, with adjacency rules that depend on the
  previous chunk.
- **Chunk generation and culling.** Chunks are generated ahead of the view.
  A chunk is destroyed once its end, shifted by the scroll offset, lies
  behind both the fixed line one view width behind the origin and the
  shifted danger front. Destroying a chunk unregisters its colliders.
- **Chunks.** Every type except `empty` has a floor. Each type has its own
  sub-feature: two tunnels, one or two platforms, or a button.
- **Platform latch.** A platform is assigned to one player, or to the
  centre. It takes a life at most once: when the wrong player stands on it,
  or when the right player passes it without standing on it.
- **Button latch.** A button requests one slowdown of the danger front when
  the fused lead player presses it.
- **Danger front, lives and clock.** The danger front advances with a
  speed that ramps with time, and ends the game when it reaches the
  trailing player. Lives are counted down, and the game ends when the count
  reaches 0. The frame clock caps each step at one 60 Hz frame.
- **Asset loader bookkeeping.** Extension-based loader selection, the
  resource names taken from module paths, the download percentage, the
  nested collections that completed assets are filed under, and the
  `total`/`done` counters that fire `ressourcesReady`.
- **Earlier sequencer.** The earlier version draws uniformly over seven
  types and never repeats a type.

Randomness (`Math.random()`), wall-clock readings, the camera projection and
the players' positions are explicit inputs:

- a chunk draws its type from `rand(k).typeVal`, the draw of iteration `k`;
- a chunk's side and lane coins come from `Coins`;
- the clock reads integer milliseconds;
- the danger front receives the projected screen x.

Global objects are threaded explicitly:

- the shared `store` flags become `Session.Store`;
- the lives manager singleton becomes `Lives.Outcome`;
- the physics world becomes `Physics.World`, in which colliders are opaque
  handles.

Module layout (one file each):

| file | module | original |
|---|---|---|
| block_types.dfy | BlockTypes | type, width and weight tables of the current chunks |
| type_draw.dfy | TypeDraw | `generateType` of the current sequencer |
| chunk.dfy | Chunk | the current chunk (`Block`) |
| sequencer.dfy | Sequencer | `BlockManager`: generation, culling, render |
| platform_latch.dfy | PlatformLatch | `Plateform` |
| button_latch.dfy | ButtonLatch | `Button` |
| danger.dfy | Danger | `DangerManager` |
| lives.dfy | Lives | `LivesManager` |
| clock.dfy | Clock | `Time` |
| loader_paths.dfy, loader.dfy | LoaderPaths, Loader | `Loader` |
| legacy.dfy | Legacy | the earlier `BlockManager` and `Block` |
| compare.dfy | Compare | the two sequencers side by side |
| geometry.dfy, session.dfy, physics.dfy, wrappers.dfy | Geometry, Session, Physics, Wrappers | shared vocabulary |
| shares.dfy | Shares | division facts shared by the two type draws |

Three behaviours of the code are worth stating plainly, since the model
keeps them:

- **Lives below 0.** `removeLife` decrements without a floor
  (src/js/World/LivesManager.js:21-24). A call after the count reached 0
  emits -1, which does not end the game again. `Lives.RemoveLife` and
  `Lives.RunAccounting` state this.
- **No clamp on elapsed time.** The danger speed uses the elapsed time as it
  is (src/js/World/DangerManager.js:26-27). `Danger.Speed` promises the base
  speed only for non-negative elapsed time.
- **Starting without `empty`.** In the current chunk table `empty_plateform`
  is commented out, so `BLOCK_TYPE.empty_plateform` is `undefined`. The
  filter clause that forbids `empty` after `empty_plateform`
  (src/js/World/Blocks/BlockManager.js:137-140) therefore fires when there is
  no previous chunk. `TypeDraw.Possible(None)` leaves `empty` out.

The sequencer's physics world holds the chunks' colliders only:
`Sequencer.InitBlocks` starts from a world with nothing registered, and
`Sequencer.Valid` keeps the registered set equal to the colliders of the
live chunks. Colliders registered by other objects (the players, say) are
not part of this model.

## Model

| member | source | states |
|---|---|---|
| BlockTypes.TypeListEnumeratesTypes | src/js/World/Blocks/Block.js:12-22 | `BLOCK_TYPE_LIST` lists each of the five live types exactly once |
| BlockTypes.DimensionTableAgrees | src/js/World/Blocks/Block.js:25-33 | The dimension table maps each live type to its width, and the two commented-out keys collapse into one `undefined` key holding the last value written (3) |
| BlockTypes.ProbabilityTableAgrees | src/js/World/Blocks/Block.js:36-44 | The probability table maps each live type to its weight, and the `undefined` key holds 1 |
| Geometry.LaneZ | src/js/World/Blocks/Plateform.js:66-70 | A centred feature sits on z = 0; otherwise it sits a quarter of the block depth to the negative side exactly when it is on the left |
| TypeDraw.Keep | src/js/World/Blocks/BlockManager.js:129-149 | The filter callback keeps a key exactly when that key is eligible after the previous type |
| TypeDraw.FilterMembers | src/js/World/Blocks/BlockManager.js:129-149 | A filtered list holds exactly the eligible members of its input |
| TypeDraw.FilterKeepsNoRepeats | src/js/World/Blocks/BlockManager.js:129-149 | Filtering a list without repeats gives a list without repeats |
| TypeDraw.PossibleIsFilter | src/js/World/Blocks/BlockManager.js:129-149 | The candidate table for each previous type equals the filter applied to `BLOCK_TYPE_LIST` |
| TypeDraw.Possible | src/js/World/Blocks/BlockManager.js:129-149 | Every candidate is eligible, and `normal` always comes first |
| TypeDraw.PossibleComplete | src/js/World/Blocks/BlockManager.js:124-149 | A type is a candidate exactly when it is eligible, and no candidate repeats |
| TypeDraw.CumGrows | src/js/World/Blocks/BlockManager.js:151-160 | The running weight sum grows by at least each candidate's weight |
| TypeDraw.TotalPositive | src/js/World/Blocks/BlockManager.js:151-154 | The total weight is at least the weight of any candidate, so it is positive |
| TypeDraw.Scan | src/js/World/Blocks/BlockManager.js:155-165 | The loop stops at a candidate whose cumulative-probability bucket contains the draw; it never falls off the end for a draw below 1 |
| TypeDraw.DrawIndex | src/js/World/Blocks/BlockManager.js:155-165 | The drawn index is a valid candidate index whose bucket contains the draw |
| TypeDraw.GenerateType | src/js/World/Blocks/BlockManager.js:120-166 | Inside the first zone the type is `normal`; past it the type is eligible after the previous type |
| TypeDraw.AdjacencyRules | src/js/World/Blocks/BlockManager.js:129-149 | Only `normal` may follow itself; `empty` is never followed by `platform`, nor `platform` by `empty` |
| TypeDraw.DrawBucketIff | src/js/World/Blocks/BlockManager.js:151-165 | The k-th candidate is drawn exactly when the draw lies in its bucket |
| TypeDraw.ShareMonotone | src/js/World/Blocks/BlockManager.js:155-160 | The running probability never decreases from one candidate to the next |
| TypeDraw.BucketWidth | src/js/World/Blocks/BlockManager.js:151-165 | The k-th candidate is drawn exactly when the draw lies in a bucket that starts at the share of the candidates before it and is its weight over the total weight wide |
| TypeDraw.DrawIsFirstAbove | src/js/World/Blocks/BlockManager.js:157-165 | The drawn candidate is the first one whose cumulative share exceeds the draw |
| Chunk.FloorCells | src/js/World/Blocks/Block.js:204-208 | One floor cell per width unit, the i-th at start + i |
| Chunk.CreateFloor | src/js/World/Blocks/Block.js:202-227 | The floor registers one fresh collider, centred on the container, with half extents width/2, 1 and 1.5 |
| Chunk.TunnelLanes | src/js/World/Blocks/Block.js:113-138 | Two tunnels with ids 1 and 2, on opposite sides, sharing the loop flag |
| Chunk.LayPlatforms | src/js/World/Blocks/Block.js:140-167 | A double draw gives platforms 1 and 2 on opposite non-centre lanes; otherwise one platform with id 1 or 2, centred exactly when the centre coin says so; each registers one fresh collider |
| Chunk.Build | src/js/World/Blocks/Block.js:74-194 | A built chunk is well formed: its width is its type's, its container is centred, and its floor covers exactly [start, end]. Its colliders are fresh and registered, and `empty` builds nothing. Its feature matches its type |
| Chunk.OnFloor | src/js/World/Blocks/Block.js:74-80 | A floored chunk other than `platform` is well formed, centred, and owns exactly the one fresh floor collider |
| Chunk.PlatformChunk | src/js/World/Blocks/Block.js:140-167 | A `platform` chunk owns its fresh floor collider followed by its platforms' colliders, all fresh and registered |
| Chunk.Destroy | src/js/World/Blocks/Block.js:231-244 | Every collider of the chunk is unregistered, `removeCollider` is called once per collider in order, and both lists are emptied |
| Physics.CreateCollider | src/js/World/Blocks/Block.js:224-226 | A new collider is a handle never handed out before, and it is registered |
| Physics.RemoveColliders | src/js/World/Blocks/Block.js:237-240 | Exactly the given handles are unregistered, in order, and nothing else changes |
| Sequencer.LastType | src/js/World/Blocks/BlockManager.js:124-127 | The previous type is undefined exactly when no chunk exists, and otherwise is the last chunk's type |
| Sequencer.AppendKeepsValid | src/js/World/Blocks/BlockManager.js:172-191 | Appending a well-formed chunk at the cursor that obeys the type rules keeps the strip contiguous, rule-abiding and collider-disjoint |
| Sequencer.DropFrontKeepsValid | src/js/World/Blocks/BlockManager.js:203-204 | Dropping the first chunk and unregistering its colliders keeps the strip valid |
| Sequencer.AppendBlock | src/js/World/Blocks/BlockManager.js:173-190 | One loop iteration adds one chunk at the cursor, with the drawn type, advances the cursor by its width and registers its colliders |
| Sequencer.GenerateBlocks | src/js/World/Blocks/BlockManager.js:168-192 | Chunks are appended until the cursor passes twice the view width. `nextGenerate` is set one view behind the old cursor. The old chunks are kept. Some chunk is added exactly when the cursor started in range. The new chunks are the draw sequence, and exactly their colliders are registered |
| Sequencer.GenerateOne | src/js/World/Blocks/BlockManager.js:172-191 | One loop pass keeps the strip valid, places the new chunk at the old cursor, advances the cursor by at least one unit and keeps every earlier chunk |
| Sequencer.InitBlocks | src/js/World/Blocks/BlockManager.js:58-61 | Start-up fills the view from one view width behind the origin; the first chunk starts there and is `normal` when that is in the first zone |
| Sequencer.CullLine | src/js/World/Blocks/BlockManager.js:198-201 | The cull line is `Math.min` of the fixed line one view width behind the origin and the danger front shifted by the scroll offset: it lies at or behind both, and is one of them |
| Sequencer.FirstEndsFirst | src/js/World/Blocks/BlockManager.js:197-205 | In a contiguous strip the first chunk ends no later than any other |
| Sequencer.DropFront | src/js/World/Blocks/BlockManager.js:203-204 | `shift` plus `destroy`: the first chunk leaves, its colliders are unregistered |
| Sequencer.DestroyBlocks | src/js/World/Blocks/BlockManager.js:196-207 | The removed chunks are the prefix behind the cull line and every kept chunk ends at or past it. Exactly the removed chunks' colliders are unregistered. The loop throws exactly when the strip runs empty |
| Sequencer.CullOne | src/js/World/Blocks/BlockManager.js:202-205 | One loop pass moves the first chunk to the removed list and unregisters exactly its colliders, keeping the strip valid |
| Sequencer.PastLine | src/js/World/Blocks/BlockManager.js:202 | Once the first chunk ends past the line, every chunk does |
| Sequencer.Render | src/js/World/Blocks/BlockManager.js:211-216 | A frame culls behind the line and then, unless it threw or `nextGenerate` is still ahead, generates; the cursor moves only when it generates |
| Sequencer.FloorsAbut | src/js/World/Blocks/Block.js:76-80 | In a valid strip neighbouring floors meet exactly, without gap or overlap |
| PlatformLatch.Init | src/js/World/Blocks/Plateform.js:45-82 | The box is centred on the platform, half a block width wide and 1.98 deep, at height 2 in its lane; both latches start clear |
| PlatformLatch.HandleError | src/js/World/Blocks/Plateform.js:135-140 | A life is removed exactly when the error latch was clear, and the latch is then set |
| PlatformLatch.HandlePlayerOn | src/js/World/Blocks/Plateform.js:107-133 | Outside the box nothing happens. Inside, a centred platform activates only while fused and errs otherwise, and a lane platform activates for its own player and errs for the other |
| PlatformLatch.HandlePlayerAfter | src/js/World/Blocks/Plateform.js:98-105 | A concerned player wholly past an unactivated platform triggers the error; otherwise nothing changes |
| PlatformLatch.Visit | src/js/World/Blocks/Plateform.js:144-147 | Testing each player in turn only sets latches, and charges a life exactly when the error latch becomes set |
| PlatformLatch.Render | src/js/World/Blocks/Plateform.js:142-148 | An errored platform does nothing; otherwise the visit's guarantees hold |
| PlatformLatch.AtMostOneLifePerPlatform | src/js/World/Blocks/Plateform.js:98-148 | Over any number of frames a platform takes at most one life, exactly when its error latch becomes set, and its latches never clear |
| PlatformLatch.NoChargeOnceLatched | src/js/World/Blocks/Plateform.js:142-143 | Once errored, a platform changes nothing in any later frame |
| ButtonLatch.Init | src/js/World/Blocks/Button.js:35-62 | The box is centred on the block, 0.4 block widths wide and 1.98 deep in its lane, and starts unpressed |
| ButtonLatch.HandlePlayerOn | src/js/World/Blocks/Button.js:70-100 | Inside the box the button latches and requests one slowdown; outside nothing changes |
| ButtonLatch.Render | src/js/World/Blocks/Button.js:102-105 | Only an unpressed button in fused mode looks at the first player; only the latch can change, and a slowdown is requested exactly when it latches |
| ButtonLatch.AtMostOneSlowDown | src/js/World/Blocks/Button.js:70-105 | Over any number of frames a button requests at most one slowdown, exactly when it latches, and never unlatches |
| Danger.Init | src/js/World/DangerManager.js:18-19 | The front starts 60% of the total width behind the origin |
| Danger.Elapsed | src/js/World/DangerManager.js:26 | Elapsed time is 0 before the session starts and otherwise the time since its start |
| Danger.Speed | src/js/World/DangerManager.js:27 | For non-negative elapsed time the speed is at least the base speed |
| Danger.SpeedIsNonDecreasing | src/js/World/DangerManager.js:27 | The speed never decreases as time passes |
| Danger.Clamp01 | src/js/World/DangerManager.js:35 | The progress is clamped into [0, 1], and left unchanged inside it |
| Danger.UpdatePosition | src/js/World/DangerManager.js:25-37 | The front moves by delta times the speed, never backwards while time runs forward; the progress maps the projected x from [-1, 1] onto [0, 1] |
| Danger.CheckLoose | src/js/World/DangerManager.js:39-50 | If the game is not already lost, it is lost exactly when either player is at or behind the front |
| Danger.Render | src/js/World/DangerManager.js:52-56 | Idle until the session started or was lost; otherwise update, then check |
| Danger.FrontIsMonotoneAndEndsOnce | src/js/World/DangerManager.js:25-56 | Over any forward-running frames the front never retreats, the front ends the game at most once, and once lost the outcome stays lost (the front itself keeps moving, as `render` still updates it) |
| Lives.Init | src/js/World/LivesManager.js:7-8 | A fresh manager holds 2 lives and has emitted nothing |
| Lives.EndGame | src/js/World/LivesManager.js:36-37 | Ending the game sets `hasLost` and leaves the count and the other flags alone |
| Lives.Emit | src/js/World/LivesManager.js:31-34 | Each event carries the current count and ends the game exactly when the count is 0 |
| Lives.RemoveLife | src/js/World/LivesManager.js:21-24 | One life less, with no floor at 0; the game is lost after this call exactly when it was lost before or the count was 1 |
| Lives.Loose | src/js/World/LivesManager.js:26-29 | The count drops to 0 and the game is lost, whatever the count was |
| Lives.RunAccounting | src/js/World/LivesManager.js:21-37 | Over any sequence of calls there is one event per call. `endGame` runs once per event that carries 0. `hasLost` is set exactly when it was set before or some event carried 0 |
| Lives.HasLostIsSticky | src/js/World/LivesManager.js:36-37 | No call of the manager clears `hasLost` |
| Clock.Tick | src/js/Tools/Time.js:25-43 | A tick records the reading and the time since start, reports the time since the previous tick capped at 1000/60 ms, and fires exactly while playing |
| Clock.Create | src/js/Tools/Time.js:4-17 | A new clock starts at the first reading, is playing, and has already fired one tick |
| Clock.Play | src/js/Tools/Time.js:18-20 | `play` sets playing and leaves the measured times alone |
| Clock.Pause | src/js/Tools/Time.js:21-23 | `pause` clears playing and leaves the measured times alone |
| Clock.PauseSilencesTicks | src/js/Tools/Time.js:18-43 | A paused clock fires no tick and a playing one does, with the same measured delta; `play` and `pause` undo each other |
| Clock.DeltasNeverOutrunWallTime | src/js/Tools/Time.js:25-43 | With readings that never go back, each delta lies in [0, 1000/60], the reported deltas never sum to more than the wall time that passed, and `elapsed` tracks the last reading |
| LoaderPaths.LastIndexOf | src/js/Tools/Loader.js:191 | The result is -1 exactly when the character is absent; otherwise it is its last position |
| LoaderPaths.Extension | src/js/Tools/Loader.js:189-193 | The extension is empty only for an empty source, and is the whole source when there is no dot |
| LoaderPaths.ExtensionTrailingDot | src/js/Tools/Loader.js:189-193 | A source ending in `.` falls back to the whole source |
| LoaderPaths.ExtensionOfJoin | src/js/Tools/Loader.js:189-193 | `stem.ext` yields `ext` for any dot-free, non-empty extension |
| LoaderPaths.FindIn | src/js/Tools/Loader.js:195-199 | The first table entry listing the extension, or none when no entry lists it |
| LoaderPaths.FindLoaderAgrees | src/js/Tools/Loader.js:43-114 | Searching the loader table dispatches each file type to its loader, and nothing else to any loader |
| LoaderPaths.IndexOf | src/js/Tools/Loader.js:132 | The first occurrence of the separator at or after the start, or none |
| LoaderPaths.BeforeFirst | src/js/Tools/Loader.js:133 | The longest dot-free prefix, stopping just before the first separator |
| LoaderPaths.Lower | src/js/Tools/Loader.js:134 | Lower-casing maps each character in place |
| LoaderPaths.ResourceName | src/js/Tools/Loader.js:130-134 | A name exists exactly when the folder occurs in the path; it has no dot and no upper-case letter |
| LoaderPaths.ResourceNameOfPath | src/js/Tools/Loader.js:130-134 | A path with a single folder occurrence followed by `stem.ext` names the lower-cased stem |
| Loader.Progress | src/js/Tools/Loader.js:116-124 | The event fires exactly when the length is computable; otherwise the percentage is kept; a sane byte count gives a percentage in [0, 99] |
| Loader.FlooredPercent | src/js/Tools/Loader.js:118 | The floored real percentage equals the integer quotient 100·loaded/total, and reaches 100 only when everything is loaded |
| Loader.ProgressIsPercentage | src/js/Tools/Loader.js:116-124 | The percentage is the floored share of bytes loaded, with a full download reset to 0 |
| Loader.CreateNested | src/js/Tools/Loader.js:226-233 | Filing never touches the root's own payload, and an empty path changes nothing |
| Loader.NestedLookup | src/js/Tools/Loader.js:226-233 | After filing under a path whose last name is non-empty, looking that path up gives the value |
| Loader.NestedOffPath | src/js/Tools/Loader.js:226-233 | Filing leaves every path that leaves the filed path unchanged |
| Loader.EmptyHasNoPath | src/js/Tools/Loader.js:21-24 | A fresh collection holds nothing at any path |
| Loader.Split | src/js/Tools/Loader.js:214 | `split('/')` gives at least one piece, none containing the separator |
| Loader.SplitJoin | src/js/Tools/Loader.js:214 | Joining the pieces of a split restores the name |
| Loader.Init | src/js/Tools/Loader.js:17-24 | A fresh loader has counted nothing, started nothing, logged no error, fired no event, and holds the four collections, each empty |
| Loader.InitHoldsNothing | src/js/Tools/Loader.js:17-24 | Nothing can be read back from any collection of a fresh loader |
| Loader.Accepted | src/js/Tools/Loader.js:194-204 | A resource is dispatched exactly when a loader matches its extension |
| Loader.Dispatchable | src/js/Tools/Loader.js:186-209 | Every resource is dispatched exactly when every extension has a loader |
| Loader.Admit | src/js/Tools/Loader.js:187-204 | Each resource bumps `total`; it starts one load, or else logs one error |
| Loader.LoadRessourcesCounts | src/js/Tools/Loader.js:186-209 | `total` grows by the number of resources, and errors plus dispatched loads account for every one |
| Loader.LoadRessourcesStarts | src/js/Tools/Loader.js:186-209 | The loads started are exactly the dispatchable resources, in order |
| Loader.SetRessourcesList | src/js/Tools/Loader.js:180-184 | An empty list fires `ressourcesReady` at once; otherwise the resources are loaded |
| Loader.LoadComplete | src/js/Tools/Loader.js:210-225 | Each completion bumps `done` and fires `ressourceLoad`; `ressourcesReady` fires exactly when `done` reaches `total`; other collections are untouched |
| Loader.CompletedIsFiled | src/js/Tools/Loader.js:210-233 | A completed asset can be read back from its collection along its `/`-separated name |
| Loader.CompleteAll | src/js/Tools/Loader.js:210-225 | Each completion bumps `done` by one and leaves `total` alone |
| Loader.ReadyCount | src/js/Tools/Loader.js:220-224 | Over any completions `ressourcesReady` fires once if `done` crosses `total`, and never otherwise |
| Loader.ReadyIffAllAccepted | src/js/Tools/Loader.js:180-225 | After loading a non-empty list, `ressourcesReady` fires exactly when every resource has completed; a resource without a loader means it never fires |
| Legacy.Place | src/js/World/Block.js:40-105 | The container sits at the chunk's start, and a floored kind gets a w×2×3 box centred on it |
| Legacy.Keep | src/js/World/BlockManager.js:48 | The filter callback keeps a key exactly when it differs from the previous type |
| Legacy.WithoutMembers | src/js/World/BlockManager.js:48 | The filter keeps exactly the types different from the previous one |
| Legacy.WithoutSize | src/js/World/BlockManager.js:48 | Filtering out a present type removes exactly one entry |
| Legacy.KindsEnumerates | src/js/World/Block.js:3-13 | `BLOCK_TYPE_LIST` lists every type |
| Legacy.Possible | src/js/World/BlockManager.js:46-48 | There are 7 candidates with no previous chunk and 6 otherwise |
| Legacy.PossibleIsFilter | src/js/World/BlockManager.js:48 | The candidate table for each previous type equals the filter applied to `BLOCK_TYPE_LIST` |
| Legacy.PossibleComplete | src/js/World/BlockManager.js:46-48 | A type is a candidate exactly when it differs from the previous type, and no candidate repeats |
| Legacy.Scan | src/js/World/BlockManager.js:49-55 | The loop returns the candidate whose uniform bucket contains the draw |
| Legacy.GenerateType | src/js/World/BlockManager.js:42-56 | The first zone gives `normal`; past it the type always differs from the previous one |
| Legacy.UniformBucket | src/js/World/BlockManager.js:49-55 | Candidate i is drawn exactly when the draw lies in [i/n, (i+1)/n) |
| Legacy.InitBlocks | src/js/World/BlockManager.js:22-40 | Chunks are laid contiguously from -0.8 view widths with the drawn types until the cursor passes 0.8 view widths plus one |
| Legacy.LaidAppend | src/js/World/BlockManager.js:29-38 | Placing a chunk at the cursor keeps the strip contiguous and advances the cursor by its width |
| Legacy.NeverRepeats | src/js/World/BlockManager.js:42-56 | Past the first zone no chunk has the type of its predecessor |
| Legacy.FloorSeam | src/js/World/Block.js:41 | Neighbouring floors are apart by half the difference of their widths |
| Legacy.FloorGapExample | src/js/World/Block.js:41 | A `tunnel` at 0 ends its floor at 2, while the `normal` that follows at 4 starts its floor at 3.5 |
| Legacy.PlaceCentred | src/js/World/Block.js:41 | With the container at the chunk centre, the floor covers exactly [start, start + width] |
| Legacy.CentredFloorsMeet | src/js/World/Block.js:41 | With centred containers neighbouring floors meet exactly |
| Compare.NormalRepeatsOnlyInCurrent | src/js/World/Blocks/BlockManager.js:131-132 | After `normal`, the current sequencer keeps `normal` as a candidate and draws it again for every draw below its weight over the total, while the earlier one never draws `normal` after `normal` |

## Left out

- Rendering and visual state are not modelled: meshes, materials, instanced matrices, lights, the post-process pass, gsap animations and sounds.
- The physics engine (rigid bodies, shapes, stepping) is not modelled: colliders are opaque handles.
- Chunk.CreateFloor: as written, `createFloor` throws a `TypeError` at src/js/World/Blocks/Block.js:209. It writes into `this.matrices.floor[this.index]`, but `this.matrices` and `this.index` come from the constructor options (src/js/World/Blocks/Block.js:55-58), and the one place chunks are built (src/js/World/Blocks/BlockManager.js:175-185) passes neither. So every chunk with a floor (`normal`, `tunnel`, `platform`, `button`) throws before its rigid body and collider exist, and the first pass of `generateBlocks` throws. The model follows the evident intent: the instanced-matrix write is left to rendering, and the floor's collider is registered. `Chunk.Build`, `Chunk.OnFloor`, `Chunk.PlatformChunk`, `Sequencer.GenerateBlocks`, `Sequencer.InitBlocks` and `Sequencer.Render` all rest on this.
- Tunnel.js is not part of this model. Once the matrix write at src/js/World/Blocks/Block.js:209 is repaired, building a tunnel chunk would still throw a `TypeError`: `this.colliders.push(...tunnel.colliders)` (src/js/World/Blocks/Block.js:136) spreads `undefined`, since a tunnel has no `colliders` field. The model follows the evident intent: a tunnel contributes no colliders and two geometries.
- `SPHERE_RAY` is imported from `../Player` by src/js/World/Blocks/Plateform.js:6 and src/js/World/Blocks/Button.js:5, but src/js/World/Player.js:6 declares it without exporting it. As written the import does not resolve: native ES modules refuse to load, and where a bundler lets it through the value is `undefined`, so every box test compares against `NaN` and fails. The model follows the evident intent and uses the player's radius 0.3.
- Player movement, keyboard and gamepad input, the camera projection and the end-screen DOM are not modelled. They enter as inputs or are not modelled at all.
- The leaderboard, the virtual keyboard and the rest of `endGame` after `store.hasLost = true` are not modelled. They are DOM and network side effects.
- `requestAnimationFrame` scheduling and `Time.stop` (src/js/Tools/Time.js:45-47) are not modelled. They only cancel the browser's frame callback.
- The loader's asynchronous fetches are not modelled: `import.meta.glob`, the three.js loaders, `setTimeout` and the one-second delay before `ressourcesReady`. Completions are inputs, and a ready event is counted when it is scheduled.
- ButtonLatch.HandlePlayerOn, ButtonLatch.Render, ButtonLatch.AtMostOneSlowDown: as written, `this.dangerManager.slowDown()` (src/js/World/Blocks/Button.js:98) throws a `TypeError`, since `DangerManager` (src/js/World/DangerManager.js:6-57) defines no `slowDown`. The throw comes after the latch is set (src/js/World/Blocks/Button.js:87), so the latch still holds. But the button sound (src/js/World/Blocks/Button.js:99) never plays, and the exception ends the rest of that frame's `tick` listeners; the next frame is already queued (src/js/Tools/Time.js:27). The model follows the evident intent and counts one requested slowdown, with no effect on the danger front.
- Floating-point rounding is not modelled: coordinates are exact reals, so checks that compare a sum such as 0.0005 + elapsed·1e-7 hold exactly.
- Chunk.Destroy: the model identifies a collider description with the collider created from it. The source pushes the `ColliderDesc` (src/js/World/Blocks/Block.js:218-226, src/js/World/Blocks/Plateform.js:88-95) and discards the collider that `createCollider` returns, so `destroy` hands descriptions to `removeCollider` (src/js/World/Blocks/Block.js:237-239). The rigid bodies (src/js/World/Blocks/Block.js:216, src/js/World/Blocks/Plateform.js:86) and the platforms' and buttons' `tick` listeners (src/js/World/Blocks/Plateform.js:42, src/js/World/Blocks/Button.js:32) are never released and outlive `destroy`; neither is modelled.
- Loader.CompleteAll: it does not check that a completion belongs to a load that was started; it counts completions. ReadyIffAllAccepted therefore bounds the completions by the loads started.
- LoaderPaths.Lower: it lower-cases ASCII letters only; JavaScript's `toLowerCase` also maps other scripts.
- LoaderPaths.ResourceName: a path without the folder makes `split(...)[1]` undefined and the next call throw; the result is `None` instead.
- ButtonLatch.Render: it requires at least one player, because the source reads `players[0]` without a check.
- Sequencer.DestroyBlocks: the `TypeError` thrown when the strip runs empty is the `crashed` flag. The render frame stops there, as the exception aborts it.

## Findings

| source | as written | input that shows it | evidently intended | confidence | as-written member | corrected member |
|---|---|---|---|---|---|---|
| src/js/World/Block.js:41 | The earlier chunk puts its container at the chunk's start, but its floor box (line 101) is centred on the container, so neighbouring floors are apart by half the difference of their widths | a `tunnel` (width 4) at x = 0 then a `normal` at x = 4: the floors are [-2, 2] and [3.5, 4.5], leaving a gap of 1.5 | the container sits at the chunk's centre, as the current chunk does (src/js/World/Blocks/Block.js:76-80), so floors tile the strip | high (not executed) | Legacy.FloorGapExample | Legacy.CentredFloorsMeet |
