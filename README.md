# Room runtime of the Undertale clone, in Dafny

This project models the part of the pygame Undertale clone that brings a room
to life from the decompiled game data:

- **the room loader** (`room_loader.py`): reads `<room>.json` records into
  room data with defaults, parses the room's hex colour, lists and caches rooms;
- **the asset manager** (`asset_manager.py`): loads sprite frames, backgrounds
  (exact PNG, `_0` PNG, then any texture page whose name contains the
  background's), and sprite metadata, each behind a grow-only cache;
- **the object system** (`object_system.py`): builds interactive objects from
  room records, classifies them as collidable or interactable by keywords in
  their names, attaches save-point and door behaviours, picks their sprites,
  tests collisions and draws them;
- **the game room** (`game_room.py`): builds a room's background layers,
  tile layer and objects, answers proximity and collision queries, draws the
  room, and, in a walkable room, runs the per-frame tick that animates, draws,
  handles events and moves the player character with collision revert and
  clamping to the room.

The file system and the image and JSON decoders are not modelled as I/O.
Each is given as a value instead:

- a room directory (`RoomDir`) whose files hold a decoded JSON record, or
  none when the file does not parse;
- an `AssetFiles` value mapping sprite file names and texture pages to
  decodable or undecodable images, and sprite JSON names to records.

Each cache is modelled twice:

- as the field of a class that the methods update (`RoomLoader.cache`,
  `AssetManager.spriteCache`, …);
- as a pure step function from the old cache to the result and the new cache
  (`LoadStep`, `SpriteStep`, `BackgroundStep`). Each method is proved to
  follow its step function.

Lemmas connect these steps to a cache-free reading of the files
(`BackgroundFromFiles`, `SpriteFromFiles`). They show that a cache which
agrees with the files keeps agreeing with them, and so never changes an
answer.

The shared `globals` module is modelled by the class `GlobalState.Globals`.
It has these fields:

- the interaction lock;
- a count of `globals.quit()` calls;
- the list of rooms passed to `chara.go_to_room`;
- a count of save popups opened.

The player character is `GlobalState.Character`. A frame's drawing is the
ordered list of blits it performs (`GameRooms.DrawOp`).

Files: `wrappers.dfy` (`Option`), `text.dfy` (Python string operations used
by the source: `lower()`, `in` on strings, `replace`, `str(int)`, `sorted`),
`room_loader.dfy`, `asset_manager.dfy`, `global_state.dfy`,
`object_system.dfy`, `game_room.dfy`.

Behaviours of the code worth noting:

- A tile whose source rectangle falls outside its background image is skipped
  silently. No placeholder is drawn.
- The walkable room blits the character at its position before events and keys
  move it in the same frame.
- The walk animation never cycles through frames. Every frame it shows the
  first frame of the facing's cycle. On a moving frame whose tick count reaches
  a multiple of 10, the `for` loop leaves the last frame instead.

## Model

| member | source | states |
|---|---|---|
| RoomLoading.RoomDataDefaults | room_loader.py:13-23 | a record missing a field gets caption "", size 640x480, speed 30, colour "#000000FF" (opaque black) and empty background, view, object and tile lists |
| RoomLoading.RoomDataKeepsPresentFields | room_loader.py:13-23 | a field present in the record is taken unchanged, and the record itself is kept as `json` |
| RoomLoading.HexByteRoundTrip | room_loader.py:30-33 | two hex digits written for a byte read back as that byte |
| RoomLoading.ParseColour | room_loader.py:25-42 | `get_background_color`: remove every `#`; eight hex digits give R, G, B, A from the four pairs; six give R, G, B with alpha 255; anything else, or a pair that is not hex, gives opaque black |
| RoomLoading.HexPairFormat | room_loader.py:30-33 | two hex digits of either case read as a byte whose two-digit spelling is the pair, lower-cased |
| RoomLoading.HexPairIgnoresCase | room_loader.py:30-33 | `int(pair, 16)` gives the same result for upper-, lower- and mixed-case digits |
| RoomLoading.ParseThenFormatRgba | room_loader.py:28-34 | any eight hex digits of either case parse to the colour whose `#RRGGBBAA` spelling is those digits, lower-cased: each pair is one component, in order |
| RoomLoading.ParseThenFormatRgb | room_loader.py:35-39 | any six hex digits of either case parse to an opaque colour whose `#RRGGBB` spelling is those digits, lower-cased |
| RoomLoading.ColourIgnoresCase | room_loader.py:28-39 | upper-case, lower-case and mixed-case spellings of a 6- or 8-digit colour parse to the same colour |
| RoomLoading.ColourRoundTripRgba | room_loader.py:28-34 | an 8-digit `#RRGGBBAA` colour parses to exactly those four components |
| RoomLoading.ColourRoundTripRgb | room_loader.py:35-39 | a 6-digit `#RRGGBB` colour parses to those components with alpha 255 |
| RoomLoading.MalformedColourIsBlack | room_loader.py:27-42 | after removing `#`, any other length, or a non-hex character in a 6- or 8-character colour, gives black |
| RoomLoading.ColourIgnoresHashes | room_loader.py:28 | every `#`, wherever it stands, is removed before parsing |
| RoomLoading.DefaultColourIsBlack | room_loader.py:19 | the default colour is opaque black |
| RoomLoading.RoomFileNameRoundTrip | room_loader.py:59-62 | the name listed for the file `<room>.json` is `<room>` |
| RoomLoading.JsonRoomNamesMembers | room_loader.py:59-62 | a name is collected exactly when some directory entry ending in `.json` yields it |
| RoomLoading.ListedRooms | room_loader.py:53-63 | the listed rooms are sorted and a permutation of the names of the `.json` entries; a missing directory lists none |
| RoomLoading.RuinsOnlyMembers | room_loader.py:90-93 | a room is a Ruins room exactly when it is listed and its lower-cased name contains "ruins" |
| RoomLoading.RuinsOnlyAppend | room_loader.py:93 | the filter keeps the order of the list it filters |
| RoomLoading.RuinsOnlySorted | room_loader.py:90-93 | the Ruins rooms of a sorted list are sorted |
| RoomLoading.LoadStep | room_loader.py:65-88 | the cache only grows, keeps every old entry, holds the room exactly when it loaded, and a miss reads the room's file |
| RoomLoading.LoadStepMemo | room_loader.py:68-69 | once a room has loaded, loading it again returns the same data and leaves the cache alone, whatever the directory holds then |
| RoomLoading.RoomLoader.constructor | room_loader.py:48-51 | a new loader starts with an empty cache |
| RoomLoading.RoomLoader.ListRooms | room_loader.py:53-63 | the loop returns the sorted room names |
| RoomLoading.RoomLoader.LoadRoom | room_loader.py:65-88 | the result and the new cache are the load step from the old cache |
| RoomLoading.RoomLoader.GetRuinsRooms | room_loader.py:90-93 | the listed rooms filtered to those whose lower-cased name contains "ruins" |
| RoomLoading.RoomLoaderSlot.constructor | room_loader.py:96-97 | there is no loader before the first request |
| RoomLoading.RoomLoaderSlot.GetRoomLoader | room_loader.py:99-104 | the first call creates a loader with an empty cache; every later call returns that same loader |
| Text.Lower | object_system.py:115 | `str.lower()` on ASCII: same length, each upper-case letter replaced by its lower-case one |
| Text.ReplaceAll | object_system.py:147 | `str.replace(pattern, replacement)`: every non-overlapping occurrence, scanning left to right |
| Text.SortNames | room_loader.py:63 | the result is sorted and is a permutation of its input |
| Text.ReplaceAbsent | object_system.py:147 | replacing a pattern that does not occur leaves the string unchanged |
| Text.ReplaceLeading | object_system.py:147 | a leading occurrence of the pattern is replaced and replacement continues after it |
| AssetManagement.SpriteDataDefaults | asset_manager.py:11-18 | metadata fields missing from the JSON default to "", 0, 0, no frames and an empty bbox; present ones are kept |
| AssetManagement.MetadataFromFiles | asset_manager.py:49-58 | a metadata miss reads `<sprite>.json`; none when it is missing or does not parse |
| AssetManagement.MetadataStep | asset_manager.py:44-58 | the metadata cache only grows, holds the sprite exactly when its metadata loaded, and a miss reads `<sprite>.json` |
| AssetManagement.AssetManager.LoadSpriteMetadata | asset_manager.py:44-58 | the result and the new metadata cache are the metadata step from the old cache |
| AssetManagement.SpriteKeyInjective | asset_manager.py:62 | distinct (sprite, frame) pairs get distinct cache keys |
| AssetManagement.SpriteFromFiles | asset_manager.py:68-78 | a sprite miss reads `sprites/<sprite>_<frame>.png`; none when it is missing or does not decode |
| AssetManagement.SpriteStep | asset_manager.py:60-78 | the sprite cache only grows, holds the key exactly when the frame loaded, and a miss reads `<sprite>_<frame>.png` |
| AssetManagement.SpriteHitIgnoresFiles | asset_manager.py:64-65 | a cached frame is returned as cached, whatever the files hold now |
| AssetManagement.SpriteStepAgrees | asset_manager.py:60-78 | with a cache that agrees with the files, a load returns what the files hold and the cache keeps agreeing |
| AssetManagement.AssetManager.LoadSprite | asset_manager.py:60-78 | the result and the new sprite cache are the sprite step from the old cache for key `<sprite>_<frame>` |
| AssetManagement.FirstDecodable | asset_manager.py:86-105 | no image exactly when every candidate fails to decode; otherwise the image of a candidate preceded only by failures |
| AssetManagement.FirstDecodableSkips | asset_manager.py:93-94 | candidates that fail to decode are passed over |
| AssetManagement.BackgroundFromFiles | asset_manager.py:85-107 | a background miss yields the first decodable file of `<bg>.png`, `<bg>_0.png`, then the matching texture pages in listing order |
| AssetManagement.ExactPngWins | asset_manager.py:86-92 | a decodable `<bg>.png` is the background, whatever else exists |
| AssetManagement.TexpageFallback | asset_manager.py:96-105 | when neither PNG pattern decodes, the background is the first decodable texture page whose lower-cased name contains the lower-cased background name |
| AssetManagement.BackgroundStep | asset_manager.py:80-107 | the background cache only grows, holds the name exactly when a background loaded, and a miss reads the files in pattern order |
| AssetManagement.BackgroundHitIgnoresFiles | asset_manager.py:82-83 | a cached background is returned as cached, whatever the files hold now |
| AssetManagement.BackgroundStepAgrees | asset_manager.py:80-107 | with a cache that agrees with the files, a load returns what the files give and the cache keeps agreeing |
| AssetManagement.AssetManager.LoadBackground | asset_manager.py:80-107 | the result and the new background cache are the background step from the old cache |
| AssetManagement.ScanTexpage | asset_manager.py:97-105 | the texture-page loop returns the first decodable page whose name matches |
| AssetManagement.PlaceholderSurface | asset_manager.py:109-113 | a surface of the requested size filled with the given colour |
| AssetManagement.PlaceholderIsPurple | asset_manager.py:109-113 | without a colour argument the placeholder is filled with (128, 0, 128) |
| AssetManagement.AssetManager.constructor | asset_manager.py:31-42 | a new manager starts with empty sprite, background and metadata caches |
| AssetManagement.AssetManagerSlot.constructor | asset_manager.py:116-117 | there is no manager before the first request |
| AssetManagement.AssetManagerSlot.GetAssetManager | asset_manager.py:119-124 | the first call creates a manager with empty caches; every later call returns that same manager |
| ObjectSystem.OverlapIsSharedPixel | object_system.py:164 | two rectangles collide exactly when they share a pixel, so an empty rectangle collides with nothing |
| ObjectSystem.IsCollidable | object_system.py:113-116 | `_is_collidable`: the lower-cased name contains "solid", "wall", "block" or "collision" |
| ObjectSystem.IsInteractable | object_system.py:118-121 | `_is_interactable`: the lower-cased name contains "save", "door", "sign", "npc", "item" or "chest" |
| ObjectSystem.ClassificationIgnoresCase | object_system.py:113-121 | classification depends only on the lower-cased name |
| ObjectSystem.CollidableByKeyword | object_system.py:113-116 | a name containing "solid", "wall", "block" or "collision" is collidable |
| ObjectSystem.InteractableByKeyword | object_system.py:118-121 | a name containing "save", "door", "sign", "npc", "item" or "chest" is interactable |
| ObjectSystem.SavePointClasses | object_system.py:113-121 | a save point is interactable and not collidable |
| ObjectSystem.SolidClasses | object_system.py:113-121 | `obj_solidtall` is collidable and not interactable |
| ObjectSystem.DoorInteractable | object_system.py:118-121 | every `obj_door…` name is interactable |
| ObjectSystem.BehaviorFor | object_system.py:66-82 | `get_behavior_for_object`: the behaviour table's entry for the name, or none |
| ObjectSystem.BehaviorTable | object_system.py:66-82 | exactly the save point and the two doors get a behaviour: the save menu, and doors to room_ruins2 (marker B) and room_ruins1 (marker A) |
| ObjectSystem.BehaviorImpliesInteractable | object_system.py:66-82 | every object with a behaviour is interactable, while `obj_doorBmusicfade` is interactable without one |
| ObjectSystem.SpriteNameFor | object_system.py:126-148 | the sprite name `_load_sprite` loads frame 0 of: the table's entry when it is set, else the name with `obj_` replaced by `spr_` unless it is solid or a marker |
| ObjectSystem.NoSpriteIffSolidOrMarker | object_system.py:126-148 | an object gets no sprite name exactly when its lower-cased name contains "solid" or "marker" |
| ObjectSystem.SpriteFallback | object_system.py:145-148 | an object outside the table that is neither solid nor a marker uses its name with `obj_` replaced by `spr_` |
| ObjectSystem.SpriteTableOverrides | object_system.py:126-140 | the table wins: `obj_doorB` uses `spr_doorA`, the main character `spr_maincharad`, and `obj_solidtall` none |
| ObjectSystem.ObjectFrom | object_system.py:87-111 | the object a record gives once its sprite is known: fields with their defaults, visible, flags and behaviour from the name, rectangle from the sprite or 20x20 |
| ObjectSystem.ObjectDefaults | object_system.py:88-99 | a record without fields gives position 0, name "", id 0, scale 1.0, rotation 0.0, visible, neither collidable nor interactable, no behaviour |
| ObjectSystem.ObjectFromConsistent | object_system.py:87-111 | an object's flags, behaviour and rectangle follow its name and sprite; the rectangle is at its position with the sprite's size, or 20x20 without a sprite |
| ObjectSystem.SpriteLoadAgrees | object_system.py:123-148 | with a sprite cache that agrees with the files, an object's sprite is frame 0 of its sprite name read from the files |
| ObjectSystem.NewGameObject | object_system.py:87-111 | the object is built from its record, and its surface and the new sprite cache are the sprite lookup from the old cache |
| ObjectSystem.CollisionNeedsCollidableTag | object_system.py:160-164 | an object collides with a rectangle exactly when it is collidable and its rectangle overlaps |
| ObjectSystem.SavePointNeverBlocks | object_system.py:160-164 | a save point never collides |
| ObjectSystem.DrawObject | object_system.py:166-180 | nothing happens exactly when the object is invisible or has no sprite; `transform.scale` raises exactly when a factor is not 1.0 and `int(width*scale_x)` or `int(height*scale_y)` is negative, with those lengths; otherwise one blit at the position minus the offset, scaled exactly when a factor is not 1.0 |
| ObjectSystem.Trunc | object_system.py:175-176 | `int()` on a float truncates toward zero: the result is within 1 of the value, on the side of 0 |
| ObjectSystem.ScaledLengthNegative | object_system.py:175-177 | a requested scaled length is negative exactly when length times factor is -1.0 or less |
| ObjectSystem.DrawRaisesIff | object_system.py:174-177 | drawing raises exactly for a visible object with a sprite, a factor other than 1.0, and width*scale_x or height*scale_y at most -1.0 |
| ObjectSystem.MirroredObjectRaises | object_system.py:174-177 | a visible 20-pixel-wide sprite mirrored with `scale.x == -1.0` raises with width -20 |
| ObjectSystem.InteractEffect | object_system.py:155-158 | `interact` on the globals: nothing without a behaviour, else the save point's or the door's effect |
| ObjectSystem.InteractEffectBounds | object_system.py:26-62 | an interaction keeps the lock as it found it, never quits, opens at most one popup and only with the lock free, and appends at most one room request, always to an existing room |
| ObjectSystem.InteractNoOps | object_system.py:155-158 | an object without a behaviour does nothing; a save point does nothing while the lock is held |
| ObjectSystem.SavePointInteract | object_system.py:31-43 | with the lock free, one popup is opened and the lock is released afterwards; with it held, nothing happens |
| ObjectSystem.DoorInteract | object_system.py:53-62 | a door with a non-empty target that exists sends the player there; otherwise nothing happens |
| ObjectSystem.Interact | object_system.py:155-158 | the globals change as the object's behaviour prescribes |
| GameRooms.BackgroundLayerRule | game_room.py:60-68 | an entry adds one layer exactly when it is enabled, names a background and that background loads |
| GameRooms.EnabledBackgroundsAppend | game_room.py:58-68 | layers keep the order of their entries |
| GameRooms.BackgroundsAgree | game_room.py:58-68 | with an agreeing cache, the layers loaded are those the files determine and the cache keeps agreeing |
| GameRooms.LoadBackgrounds | game_room.py:58-68 | the layers and the new background cache are the threaded background loads from the old cache |
| GameRooms.TileDefaults | game_room.py:78-87 | a tile without fields copies the 20x20 square at the origin of background "" to the origin |
| GameRooms.PlaceTileRule | game_room.py:89-99 | a tile is placed exactly when its background loads and its source region lies inside the image, at its position |
| GameRooms.OutOfBoundsTileSkipped | game_room.py:91-99 | a tile whose background fails or whose region falls outside it leaves the layer unchanged |
| GameRooms.TileBlitsAppend | game_room.py:77-99 | tile blits keep the order of their tiles |
| GameRooms.TilesAgree | game_room.py:70-99 | with an agreeing cache, the blits made are those the files determine and the cache keeps agreeing |
| GameRooms.LoadTiles | game_room.py:70-99 | no layer without tiles; otherwise a room-sized layer with the threaded tile blits, and the new background cache |
| GameRooms.ObjectsFrom | game_room.py:101-105 | one object per record, in record order, each built from its record |
| GameRooms.ObjectsAgree | game_room.py:101-105 | with an agreeing sprite cache, the i-th object is the one its record and the files determine |
| GameRooms.LoadObjects | game_room.py:101-105 | the objects and the new sprite cache are the threaded object builds from the old cache |
| GameRooms.Near | game_room.py:111-112 | the distance test `dist < radius`, decided on squared integers |
| GameRooms.NearbyObjects | game_room.py:107-114 | the objects passing the distance test, in object order |
| GameRooms.NearbyMembers | game_room.py:107-114 | an object is near exactly when it is in the room and strictly within the radius |
| GameRooms.NearbyAppend | game_room.py:107-114 | nearby objects keep the room's order |
| GameRooms.ExactRadiusExcluded | game_room.py:111-113 | for every object and radius, an object at exactly the radius is not near, and with a non-negative radius it is near for the next larger radius |
| GameRooms.CollisionMonotone | game_room.py:116-121 | the room collides with a rectangle exactly when one of its objects does |
| GameRooms.FirstRaise | game_room.py:160-163 | the index of the first object whose drawing raises: no object before it raises, and the object there does |
| GameRooms.ObjectDrawsSplit | game_room.py:160-163 | the object loop draws the objects before the first raising one, then ends with that object's error |
| GameRooms.ObjectDrawsStopAt | game_room.py:160-163 | once an object raises, no later object is drawn |
| GameRooms.ObjectDrawsRaised | game_room.py:160-163 | the object loop ends in an error exactly when some object raises, and an error is only ever its last step |
| GameRooms.ObjectDrawShape | object_system.py:166-180 | each object gives at most one step, which is an error exactly when the object raises |
| GameRooms.ObjectDrawsMembers | game_room.py:160-163 | when no object raises, exactly the visible objects with a sprite, other than the main character's, are blitted, each at its position |
| GameRooms.ObjectDrawsAppend | game_room.py:160-163 | objects are drawn in list order, so a later object is drawn over an earlier one; the later objects are drawn only if none of the earlier ones raised |
| GameRooms.ObjectDrawsSingle | game_room.py:161-163 | a drawable object other than the main character gives exactly one blit, a raising one its error, and any other object nothing |
| GameRooms.MainCharaNotDrawn | game_room.py:161-163 | the room never draws `obj_mainchara`, so that object never makes the frame raise |
| GameRooms.RoomDrawOps | game_room.py:140-165 | what `draw` performs: nothing for a room that failed to load; else fill, layers, tile layer, then the objects up to and including the first one that raises |
| GameRooms.RoomDrawRaised | game_room.py:140-165 | the room's drawing raises exactly when the room loaded and one of its objects cannot be scaled |
| GameRooms.DrawRoomObject | game_room.py:161-163 | one turn of the object loop performs that object's step and reports whether it raised |
| GameRooms.DrawRoomObjects | game_room.py:160-163 | the object loop performs exactly the object draws, stopping at the first raise |
| GameRooms.RoomDrawOrder | game_room.py:140-165 | a loaded room fills with its colour, then blits its layers in order, then the tile layer |
| GameRooms.GameRoom.constructor | game_room.py:19-56 | the room is loaded through the loader; on success the name is the caption or the room name, and the layers, tiles and objects are built in that order through the asset caches; on failure nothing is built |
| GameRooms.GameRoom.GetNearbyObjects | game_room.py:107-114 | the loop returns the objects strictly within the radius, in order |
| GameRooms.GameRoom.CheckCollision | game_room.py:116-121 | true exactly when some object collides with the rectangle |
| GameRooms.GameRoom.Draw | game_room.py:140-165 | nothing for a room that failed to load; otherwise fill, layers, tile layer, then the drawable objects, stopping with the error of the first object that cannot be scaled |
| GameRooms.RoomBuildAgrees | game_room.py:33-105 | with agreeing caches, a loaded room holds exactly the layers, tile blits and objects its files determine |
| GameRooms.Move | game_room.py:233-252 | the held-key step: moving cleared, then left, right, up and down in that order each turn and shift the character |
| GameRooms.Settle | game_room.py:254-258 | a moving step that collides with an object, using a 19x29 rectangle, is undone |
| GameRooms.Clamp | game_room.py:262-266 | one coordinate clamped to `max(0, min(v, limit))` |
| GameRooms.TickPose | game_room.py:219-266 | the pose after a tick: moved and settled while the lock is free, then clamped to the room minus 20 |
| GameRooms.MoveSummary | game_room.py:233-252 | the held keys' shifts add up, the last held key in the order left, right, up, down sets the facing, and any held key sets moving |
| GameRooms.SettleWhole | game_room.py:254-258 | a step is kept or undone as a whole, facing and moving stay, and a kept move does not collide |
| GameRooms.ClampBounds | game_room.py:262-266 | the clamped coordinate is `max(0, min(v, limit))`: never negative, within a non-negative limit, unchanged when in range, idempotent |
| GameRooms.RevertExample | game_room.py:233-258 | at (100, 100) with speed 4 and right held, a collidable 20x20 object at (104, 100) sends the character back to (100, 100), facing right |
| GameRooms.LockedTickOnlyClamps | game_room.py:219-266 | with the lock held, keys do nothing but the position is still clamped; a position in range stays |
| GameRooms.FirstInteractable | game_room.py:228-231 | none exactly when no object is interactable; otherwise an interactable object preceded only by non-interactable ones |
| GameRooms.FirstInteractableAt | game_room.py:228-231 | the scan that stops at the first interactable object finds it |
| GameRooms.EventEffect | game_room.py:220-231 | one event: quit and escape call `globals.quit()`; accept interacts with the first interactable object within 50 |
| GameRooms.EventsEffect | game_room.py:220-231 | the events of a tick applied in order |
| GameRooms.EventsEffectBounds | game_room.py:219-231 | handling events keeps the lock, adds at most one popup and one quit call per event, and only ever requests existing rooms |
| GameRooms.AcceptWithNothingNear | game_room.py:226-231 | accept with no interactable object within 50 changes nothing |
| GameRooms.AnimationStep | game_room.py:195-203 | one animation step: frame 0 of the cycle, or its last frame on a moving tick that reaches a multiple of 10 |
| GameRooms.AnimationShowsEnds | game_room.py:195-203 | only the first or the last frame of a cycle is ever shown; a still character shows the first with the tick unchanged; a moving one advances the tick |
| GameRooms.AnimationPeriodic | game_room.py:199-203 | of ten moving ticks from a multiple of 10, only the one that reaches the next multiple shows the last frame |
| GameRooms.CharaCycle | game_room.py:190-193 | a cycle loads exactly when each of its frames does, and then its i-th image is frame i of the sprite scaled by 2 |
| GameRooms.ScaleBy2 | game_room.py:187-188 | a frame is scaled to twice its width and height |
| GameRooms.WalkableGameRoom.constructor | game_room.py:171-182 | the room is built as `GameRoom` builds it (load step, name, layers, tiles, objects, asset caches); the walking frames come from the sprite files, not through the asset caches, and are loaded exactly when the room loaded, up and down cycles of 4, left and right of 2; the tick starts at 0 |
| GameRooms.WalkableGameRoom.WalkAnimateLoop | game_room.py:195-203 | the sprite and tick become those of one animation step for the current facing |
| GameRooms.WalkableGameRoom.HandleEvents | game_room.py:219-231 | the globals change as the events prescribe, in order |
| GameRooms.WalkableGameRoom.MoveCharacter | game_room.py:233-258 | the pose becomes the held-key step, undone on collision |
| GameRooms.WalkableGameRoom.Draw | game_room.py:205-266 | one frame: room drawing; when that raises, nothing else changes; otherwise the animated character is drawn at its old position, then, with the lock free, the events and the move are applied, and the position is clamped to the room |

## Left out

- Pixels: fills, blits, `subsurface().copy()`, `transform.scale` and layer flips are recorded as draw operations or image values. No pixel data is modelled.
- A `ValueError` from `transform.scale` ends the frame's draw list with a `ScaleError` step, and the rest of the frame does not run. Where the exception goes next, out of the game loop, is not part of this model.
- JSON parsing and image decoding: a file either decodes to a value or does not (`Raw`, `ImageFile`); contents of unread fields such as `views`, `frames` and `bbox` are opaque.
- File paths: the directories `decompilation/room`, `sprites`, `decompilation/texpage` and `decompilation/sprite` are the separate maps of `RoomDir` and `AssetFiles`; `os.path.join`, `os.path.exists` and the base path are not modelled. `list_rooms` takes the directory's entries in the order given.
- `BackgroundData`, `background_metadata` and `bg_dir`: never read by the code, so not modelled.
- Printing of warnings and errors, `pygame.display.set_caption`, music and `clock.tick(30)`: output or timing only.
- The `Room` base class (`super().__init__`, `super().draw`, `on_enter`) and `self.id = hash(room_name) % 10000`: the base class and Python's string hash are not part of this model; `on_enter` only sets the caption and plays music.
- `self.background`, the room-sized surface filled at load time: the frame's own fill is modelled instead, and the surface is never drawn.
- `update` on objects and behaviours: both do nothing.
- `globals.quit()` is counted rather than ending the program; `chara.go_to_room` is recorded as a room request; `rooms.get_room` is the set `knownRooms` of rooms it resolves.
- The save popup's input loop is a count of presses; the popup's own behaviour is not part of this model.
- `DoorBehavior.target_marker` is kept in the behaviour but the door never uses it, as in the code.
- RoomLoading.ParseColour: for a two-character pair, `int(pair, 16)` also accepts a leading `+` (`"+a"` is 10), leading or trailing whitespace, ASCII or Unicode (`" a"` is 10), and non-ASCII decimal digits (`"١١"` is 17, so `"#١١١١١١"` is (17, 17, 17)); the model reads each of these as malformed and gives black. A `-` pair gives a negative component that `pygame.Color` rejects, which is black in both, and no two-character pair can hold a valid underscore.
- Text.Lower: lower-cases ASCII only; Python's `lower()` also folds non-ASCII letters.
- Positions and scales: object and tile positions are integers, and scale factors and rotation are reals; the float arithmetic of `dist < radius` is decided exactly as `radius > 0 and dx*dx + dy*dy < radius*radius`.
- GameRooms.SourceInside: a negative source position or size is treated as a failed `subsurface` (pygame normalises some negative sizes instead).
- A room with a negative width or height, for which `pygame.Surface` raises: not modelled.
- The walk frames are read from the same sprite files as the asset manager (`sprites/`); a missing frame raises in the source, so the walkable room's constructor requires them to exist when the room loads.
- The module-level singletons `get_room_loader` and `get_asset_manager` are modelled by slot classes; the game room takes the loader and the manager as parameters.
- `chara.pos` and `chara.x`/`chara.y` are one position in the model; the character class itself is not part of this model.
- `globals.accept` is a set of keys; the model has one accept key.
