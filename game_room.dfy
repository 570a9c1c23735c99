/**
 * A room built from its JSON record: the enabled background layers, the tile
 * layer composed from background images, and the game objects in record
 * order; the collision and proximity queries over those objects; what a frame
 * draws; and the walkable room's per-frame tick, which animates, draws and
 * moves the player character.
 *
 * Drawing is modelled as the ordered list of blits a frame performs, not as
 * pixels.
 */
module GameRooms {
  import opened Wrappers
  import opened Text
  import opened RoomLoading
  import opened AssetManagement
  import opened GlobalState
  import opened ObjectSystem

  // ---------------------------------------------------------------------------
  // Background layers
  // ---------------------------------------------------------------------------

  /** The background an entry of `bgs` asks for: only enabled entries (default: disabled) with a non-empty name. */
  function BackgroundRequest(bg: BgRecord): Option<string> {
    if bg.enabled.GetOr(false) && bg.bg.GetOr("") != "" then Some(bg.bg.value) else None
  }

  /** `_load_backgrounds` on the background cache: the layers loaded, in order, and the cache afterwards. */
  function BackgroundsFrom(cache: map<string, Image>, files: AssetFiles, bgs: seq<BgRecord>): (seq<Image>, map<string, Image>) {
    if |bgs| == 0 then ([], cache)
    else
      var prefix := BackgroundsFrom(cache, files, bgs[..|bgs| - 1]);
      match BackgroundRequest(bgs[|bgs| - 1])
      case None => prefix
      case Some(name) =>
        var step := BackgroundStep(prefix.1, files, name);
        (if step.0.Some? then prefix.0 + [step.0.value] else prefix.0, step.1)
  }

  /** The layer one entry contributes, read straight from the files. */
  function BackgroundLayer(files: AssetFiles, bg: BgRecord): seq<Image> {
    match BackgroundRequest(bg)
    case None => []
    case Some(name) =>
      match BackgroundFromFiles(files, name)
      case None => []
      case Some(image) => [image]
  }

  /** The background layers of a room, read straight from the files. */
  function EnabledBackgrounds(files: AssetFiles, bgs: seq<BgRecord>): seq<Image> {
    if |bgs| == 0 then [] else EnabledBackgrounds(files, bgs[..|bgs| - 1]) + BackgroundLayer(files, bgs[|bgs| - 1])
  }

  /** An entry contributes a layer exactly when it is enabled, names a background and that background loads. */
  lemma BackgroundLayerRule(files: AssetFiles, bg: BgRecord)
    ensures |BackgroundLayer(files, bg)| <= 1
    ensures BackgroundLayer(files, bg) != [] <==>
      bg.enabled == Some(true) && bg.bg.Some? && bg.bg.value != "" && BackgroundFromFiles(files, bg.bg.value).Some?
    ensures BackgroundLayer(files, bg) != [] ==> BackgroundLayer(files, bg) == [BackgroundFromFiles(files, bg.bg.value).value]
  {
  }

  /** Layers keep the order of their entries: the layers of two runs of entries are concatenated. */
  lemma {:induction false} EnabledBackgroundsAppend(files: AssetFiles, a: seq<BgRecord>, b: seq<BgRecord>)
    ensures EnabledBackgrounds(files, a + b) == EnabledBackgrounds(files, a) + EnabledBackgrounds(files, b)
  {
    if |b| == 0 {
      assert a + b == a;
    } else {
      var init, last := b[..|b| - 1], b[|b| - 1];
      assert (a + b)[..|a + b| - 1] == a + init;
      assert (a + b)[|a + b| - 1] == last;
      assert EnabledBackgrounds(files, a + b) == EnabledBackgrounds(files, a + init) + BackgroundLayer(files, last);
      EnabledBackgroundsAppend(files, a, init);
      assert EnabledBackgrounds(files, b) == EnabledBackgrounds(files, init) + BackgroundLayer(files, last);
    }
  }

  /** With a faithful cache, the layers loaded are the ones the files hold, and the cache stays faithful. */
  lemma {:induction false} BackgroundsAgree(cache: map<string, Image>, files: AssetFiles, bgs: seq<BgRecord>)
    requires BackgroundCacheAgrees(cache, files)
    ensures BackgroundsFrom(cache, files, bgs).0 == EnabledBackgrounds(files, bgs)
    ensures BackgroundCacheAgrees(BackgroundsFrom(cache, files, bgs).1, files)
  {
    if |bgs| > 0 {
      var prefix := BackgroundsFrom(cache, files, bgs[..|bgs| - 1]);
      BackgroundsAgree(cache, files, bgs[..|bgs| - 1]);
      var request := BackgroundRequest(bgs[|bgs| - 1]);
      if request.Some? {
        BackgroundStepAgrees(prefix.1, files, request.value);
      }
    }
  }

  /** `_load_backgrounds`. */
  method LoadBackgrounds(am: AssetManager, files: AssetFiles, bgs: seq<BgRecord>) returns (surfaces: seq<Image>)
    modifies am`backgroundCache
    ensures (surfaces, am.backgroundCache) == BackgroundsFrom(old(am.backgroundCache), files, bgs)
  {
    surfaces := [];
    var i := 0;
    while i < |bgs|
      invariant 0 <= i <= |bgs|
      invariant (surfaces, am.backgroundCache) == BackgroundsFrom(old(am.backgroundCache), files, bgs[..i])
    {
      assert bgs[..i + 1][..i] == bgs[..i];
      var bg := bgs[i];
      if bg.enabled.GetOr(false) {
        var name := bg.bg.GetOr("");
        if name != "" {
          var surface := am.LoadBackground(name, files);
          if surface.Some? {
            surfaces := surfaces + [surface.value];
          }
        }
      }
      i := i + 1;
    }
    assert bgs[..i] == bgs;
  }

  // ---------------------------------------------------------------------------
  // Tiles
  // ---------------------------------------------------------------------------

  /** A tile record with its defaults filled in. */
  datatype Tile = Tile(bg: string, x: int, y: int, width: int, height: int, srcX: int, srcY: int)

  /** Copying the `width` x `height` region at (`srcX`, `srcY`) of `source` to (`x`, `y`) of the tile layer. */
  datatype TileBlit = TileBlit(source: Image, srcX: int, srcY: int, width: int, height: int, x: int, y: int)

  /** The room-sized tile layer and the blits composed onto it, in order. */
  datatype TileLayer = TileLayer(width: int, height: int, blits: seq<TileBlit>)

  const DefaultTileSize := 20

  /** Missing fields default to background "", position and source (0, 0), size 20x20. */
  function TileOf(t: TileRecord): Tile {
    var pos := t.pos.GetOr(PosRecord(None, None));
    var size := t.size.GetOr(SizeRecord(None, None));
    var src := t.sourcepos.GetOr(PosRecord(None, None));
    Tile(t.bg.GetOr(""), pos.x.GetOr(0), pos.y.GetOr(0), size.width.GetOr(DefaultTileSize), size.height.GetOr(DefaultTileSize),
      src.x.GetOr(0), src.y.GetOr(0))
  }

  /** `subsurface` accepts the source rectangle only when it lies inside the image. */
  predicate SourceInside(t: Tile, image: Image) {
    && 0 <= t.srcX && 0 <= t.srcY && 0 <= t.width && 0 <= t.height
    && t.srcX + t.width <= image.width && t.srcY + t.height <= image.height
  }

  /** The blit a tile makes once its background is loaded: none if it did not load or the region falls outside it. */
  function PlaceTile(t: Tile, image: Option<Image>): seq<TileBlit> {
    if image.Some? && SourceInside(t, image.value) then [TileBlit(image.value, t.srcX, t.srcY, t.width, t.height, t.x, t.y)] else []
  }

  /** The tile loop of `_load_tiles` on the background cache: the blits made and the cache afterwards. */
  function TilesFrom(cache: map<string, Image>, files: AssetFiles, tiles: seq<TileRecord>): (seq<TileBlit>, map<string, Image>) {
    if |tiles| == 0 then ([], cache)
    else
      var prefix := TilesFrom(cache, files, tiles[..|tiles| - 1]);
      var t := TileOf(tiles[|tiles| - 1]);
      var step := BackgroundStep(prefix.1, files, t.bg);
      (prefix.0 + PlaceTile(t, step.0), step.1)
  }

  /** The blit a tile record yields, read straight from the files. */
  function TileBlitOf(files: AssetFiles, rec: TileRecord): seq<TileBlit> {
    PlaceTile(TileOf(rec), BackgroundFromFiles(files, TileOf(rec).bg))
  }

  /** The tile blits of a room, read straight from the files. */
  function TileBlits(files: AssetFiles, tiles: seq<TileRecord>): seq<TileBlit> {
    if |tiles| == 0 then [] else TileBlits(files, tiles[..|tiles| - 1]) + TileBlitOf(files, tiles[|tiles| - 1])
  }

  /** The tile layer exists only when the room has tiles. */
  function TileLayerOf(data: RoomData, blits: seq<TileBlit>): Option<TileLayer> {
    if |data.tiles| == 0 then None else Some(TileLayer(data.width, data.height, blits))
  }

  /** A tile record without fields draws the 20x20 square at the origin of background "" to the origin. */
  lemma TileDefaults()
    ensures TileOf(TileRecord(None, None, None, None)) == Tile("", 0, 0, 20, 20, 0, 0)
  {
  }

  /** A tile is placed exactly when its background loads and its source region lies inside that image. */
  lemma PlaceTileRule(t: Tile, image: Option<Image>)
    ensures |PlaceTile(t, image)| <= 1
    ensures PlaceTile(t, image) != [] <==> image.Some? && SourceInside(t, image.value)
    ensures PlaceTile(t, image) != [] ==> var b := PlaceTile(t, image)[0];
      b.source == image.value && b.x == t.x && b.y == t.y && b.srcX + b.width <= image.value.width && b.srcY + b.height <= image.value.height
  {
  }

  /** A tile whose region falls outside its image, or whose background does not load, is skipped without a trace. */
  lemma OutOfBoundsTileSkipped(files: AssetFiles, tiles: seq<TileRecord>, t: TileRecord)
    requires var image := BackgroundFromFiles(files, TileOf(t).bg); image.None? || !SourceInside(TileOf(t), image.value)
    ensures TileBlits(files, tiles + [t]) == TileBlits(files, tiles)
  {
    assert (tiles + [t])[..|tiles + [t]| - 1] == tiles;
  }

  /** Blits keep the order of their tiles. */
  lemma {:induction false} TileBlitsAppend(files: AssetFiles, a: seq<TileRecord>, b: seq<TileRecord>)
    ensures TileBlits(files, a + b) == TileBlits(files, a) + TileBlits(files, b)
  {
    if |b| == 0 {
      assert a + b == a;
    } else {
      var init, last := b[..|b| - 1], b[|b| - 1];
      assert (a + b)[..|a + b| - 1] == a + init;
      assert (a + b)[|a + b| - 1] == last;
      assert TileBlits(files, a + b) == TileBlits(files, a + init) + TileBlitOf(files, last);
      TileBlitsAppend(files, a, init);
      assert TileBlits(files, b) == TileBlits(files, init) + TileBlitOf(files, last);
    }
  }

  /** With a faithful cache, the blits made are the ones the files determine, and the cache stays faithful. */
  lemma {:induction false} TilesAgree(cache: map<string, Image>, files: AssetFiles, tiles: seq<TileRecord>)
    requires BackgroundCacheAgrees(cache, files)
    ensures TilesFrom(cache, files, tiles).0 == TileBlits(files, tiles)
    ensures BackgroundCacheAgrees(TilesFrom(cache, files, tiles).1, files)
  {
    if |tiles| > 0 {
      var prefix := TilesFrom(cache, files, tiles[..|tiles| - 1]);
      TilesAgree(cache, files, tiles[..|tiles| - 1]);
      BackgroundStepAgrees(prefix.1, files, TileOf(tiles[|tiles| - 1]).bg);
    }
  }

  /** The tile loop after one more tile. */
  lemma TilesFromSnoc(cache: map<string, Image>, files: AssetFiles, tiles: seq<TileRecord>, i: nat)
    requires i < |tiles|
    ensures var prefix := TilesFrom(cache, files, tiles[..i]);
      var step := BackgroundStep(prefix.1, files, TileOf(tiles[i]).bg);
      TilesFrom(cache, files, tiles[..i + 1]) == (prefix.0 + PlaceTile(TileOf(tiles[i]), step.0), step.1)
  {
    assert tiles[..i + 1][..i] == tiles[..i];
  }

  /** `_load_tiles`. */
  method LoadTiles(am: AssetManager, files: AssetFiles, data: RoomData) returns (layer: Option<TileLayer>)
    modifies am`backgroundCache
    ensures layer == TileLayerOf(data, TilesFrom(old(am.backgroundCache), files, data.tiles).0)
    ensures am.backgroundCache == TilesFrom(old(am.backgroundCache), files, data.tiles).1
  {
    if |data.tiles| == 0 {
      return None;
    }
    var tiles := data.tiles;
    var blits: seq<TileBlit> := [];
    var i := 0;
    while i < |tiles|
      invariant 0 <= i <= |tiles|
      invariant (blits, am.backgroundCache) == TilesFrom(old(am.backgroundCache), files, tiles[..i])
    {
      TilesFromSnoc(old(am.backgroundCache), files, tiles, i);
      var t := TileOf(tiles[i]);
      var source := am.LoadBackground(t.bg, files);
      ghost var before := blits;
      if source.Some? {
        if SourceInside(t, source.value) {
          blits := blits + [TileBlit(source.value, t.srcX, t.srcY, t.width, t.height, t.x, t.y)];
        }
      }
      assert blits == before + PlaceTile(t, source);
      i := i + 1;
    }
    assert tiles[..i] == tiles;
    return Some(TileLayer(data.width, data.height, blits));
  }

  // ---------------------------------------------------------------------------
  // Objects
  // ---------------------------------------------------------------------------

  /** `_load_objects` on the sprite cache: one object per record, in record order, and the cache afterwards. */
  function ObjectsFrom(cache: map<string, Image>, files: AssetFiles, recs: seq<ObjRecord>): (built: (seq<GameObject>, map<string, Image>))
    ensures |built.0| == |recs|
    ensures forall i :: 0 <= i < |recs| ==> built.0[i] == ObjectFrom(recs[i], built.0[i].surface)
  {
    if |recs| == 0 then ([], cache)
    else
      var prefix := ObjectsFrom(cache, files, recs[..|recs| - 1]);
      var last := recs[|recs| - 1];
      var step := SpriteLoad(prefix.1, files, TagOf(last));
      (prefix.0 + [ObjectFrom(last, step.0)], step.1)
  }

  /** The object a record yields, read straight from the files. */
  function ObjectOf(files: AssetFiles, rec: ObjRecord): GameObject {
    ObjectFrom(rec, SpriteOf(files, TagOf(rec)))
  }

  /** With a faithful cache, the i-th object is the one built from the i-th record, and the cache stays faithful. */
  lemma {:induction false} ObjectsAgree(cache: map<string, Image>, files: AssetFiles, recs: seq<ObjRecord>)
    requires SpriteCacheAgrees(cache, files)
    ensures forall i :: 0 <= i < |recs| ==> ObjectsFrom(cache, files, recs).0[i] == ObjectOf(files, recs[i])
    ensures SpriteCacheAgrees(ObjectsFrom(cache, files, recs).1, files)
  {
    if |recs| > 0 {
      var prefix := ObjectsFrom(cache, files, recs[..|recs| - 1]);
      ObjectsAgree(cache, files, recs[..|recs| - 1]);
      SpriteLoadAgrees(prefix.1, files, TagOf(recs[|recs| - 1]));
    }
  }

  /** `_load_objects`. */
  method LoadObjects(am: AssetManager, files: AssetFiles, recs: seq<ObjRecord>) returns (objects: seq<GameObject>)
    modifies am`spriteCache
    ensures (objects, am.spriteCache) == ObjectsFrom(old(am.spriteCache), files, recs)
  {
    objects := [];
    var i := 0;
    while i < |recs|
      invariant 0 <= i <= |recs|
      invariant (objects, am.spriteCache) == ObjectsFrom(old(am.spriteCache), files, recs[..i])
    {
      assert recs[..i + 1][..i] == recs[..i];
      var o := NewGameObject(recs[i], am, files);
      objects := objects + [o];
      i := i + 1;
    }
    assert recs[..i] == recs;
  }

  // ---------------------------------------------------------------------------
  // Queries
  // ---------------------------------------------------------------------------

  /**
   * `((o.x - x) ** 2 + (o.y - y) ** 2) ** 0.5 < radius`, decided exactly on
   * integers: a square root is never negative, so a radius of 0 or less admits nothing.
   */
  predicate Near(o: GameObject, x: int, y: int, radius: int) {
    radius > 0 && (o.x - x) * (o.x - x) + (o.y - y) * (o.y - y) < radius * radius
  }

  /** The objects near (x, y), in object order. */
  function NearbyObjects(objects: seq<GameObject>, x: int, y: int, radius: int): seq<GameObject> {
    if |objects| == 0 then []
    else
      var last := objects[|objects| - 1];
      NearbyObjects(objects[..|objects| - 1], x, y, radius) + (if Near(last, x, y, radius) then [last] else [])
  }

  /** Exactly the objects strictly within the radius are near. */
  lemma {:induction false} NearbyMembers(objects: seq<GameObject>, x: int, y: int, radius: int, o: GameObject)
    ensures o in NearbyObjects(objects, x, y, radius) <==> o in objects && Near(o, x, y, radius)
  {
    if |objects| > 0 {
      NearbyMembers(objects[..|objects| - 1], x, y, radius, o);
      assert objects == objects[..|objects| - 1] + [objects[|objects| - 1]];
    }
  }

  /** Nearby objects keep the order of the objects: the result for two runs is concatenated. */
  lemma {:induction false} NearbyAppend(a: seq<GameObject>, b: seq<GameObject>, x: int, y: int, radius: int)
    ensures NearbyObjects(a + b, x, y, radius) == NearbyObjects(a, x, y, radius) + NearbyObjects(b, x, y, radius)
  {
    if |b| == 0 {
      assert a + b == a;
    } else {
      var init, last := b[..|b| - 1], b[|b| - 1];
      assert (a + b)[..|a + b| - 1] == a + init;
      assert (a + b)[|a + b| - 1] == last;
      NearbyAppend(a, init, x, y, radius);
    }
  }

  /** The comparison is strict: an object at exactly the radius is not near, but it is for any larger radius. */
  lemma ExactRadiusExcluded(o: GameObject, x: int, y: int, radius: int)
    requires (o.x - x) * (o.x - x) + (o.y - y) * (o.y - y) == radius * radius
    ensures !Near(o, x, y, radius)
    ensures radius >= 0 ==> Near(o, x, y, radius + 1)
  {
    assert (radius + 1) * (radius + 1) == radius * radius + 2 * radius + 1;
  }

  /** `check_collision` over all objects: some object collides with the rectangle. */
  predicate AnyCollides(objects: seq<GameObject>, r: Rect) {
    exists i :: 0 <= i < |objects| && Collides(objects[i], r)
  }

  /** Adding an object never removes a collision, and adding a colliding one creates one. */
  lemma CollisionMonotone(objects: seq<GameObject>, o: GameObject, r: Rect)
    ensures AnyCollides(objects + [o], r) <==> AnyCollides(objects, r) || Collides(o, r)
  {
    var more := objects + [o];
    if AnyCollides(objects, r) {
      var i :| 0 <= i < |objects| && Collides(objects[i], r);
      assert more[i] == objects[i];
    }
    if Collides(o, r) {
      assert more[|objects|] == o;
    }
    if AnyCollides(more, r) {
      var i :| 0 <= i < |more| && Collides(more[i], r);
      if i < |objects| {
        assert objects[i] == more[i];
      }
    }
  }

  // ---------------------------------------------------------------------------
  // Drawing
  // ---------------------------------------------------------------------------

  /** One step of a frame's drawing, in the order performed. */
  datatype DrawOp =
    | Fill(color: Color)
    | BlitSurface(image: Image)
    | BlitTiles(layer: TileLayer)
    | BlitObject(tag: string, blit: ObjectBlit)
    | BlitCharacter(image: Image, x: int, y: int)
      /** The `ValueError` an object's scaling raised; nothing after it in the frame runs. */
    | ScaleError(tag: string, w: int, h: int)

  const MainCharaTag := "obj_mainchara"

  /** `GameRoom.draw` draws every object except the player's placeholder, when it is visible and has a sprite. */
  predicate DrawnInRoom(o: GameObject) {
    o.tag != MainCharaTag && DrawObject(o, 0, 0).Blitted?
  }

  /** Drawing this object raises, which ends the frame. */
  predicate RaisesInRoom(o: GameObject) {
    o.tag != MainCharaTag && DrawObject(o, 0, 0).NegativeSize?
  }

  /** A frame whose drawing raised ends with the error. */
  predicate FrameRaised(ops: seq<DrawOp>) {
    |ops| > 0 && ops[|ops| - 1].ScaleError?
  }

  function SurfaceBlits(surfaces: seq<Image>): (ops: seq<DrawOp>)
    ensures |ops| == |surfaces|
    ensures forall i :: 0 <= i < |surfaces| ==> ops[i] == BlitSurface(surfaces[i])
  {
    if |surfaces| == 0 then [] else SurfaceBlits(surfaces[..|surfaces| - 1]) + [BlitSurface(surfaces[|surfaces| - 1])]
  }

  /** What `draw` performs for one object of the room. */
  function ObjectDraw(o: GameObject): seq<DrawOp> {
    if o.tag == MainCharaTag then []
    else
      match DrawObject(o, 0, 0)
      case Skipped => []
      case Blitted(blit) => [BlitObject(o.tag, blit)]
      case NegativeSize(w, h) => [ScaleError(o.tag, w, h)]
  }

  /** The object loop of `draw`: objects in order, until one of them raises. */
  function ObjectDraws(objects: seq<GameObject>): seq<DrawOp> {
    if |objects| == 0 then []
    else ObjectDraw(objects[0]) + (if RaisesInRoom(objects[0]) then [] else ObjectDraws(objects[1..]))
  }

  /** Index of the first object whose drawing raises, or the number of objects when none does. */
  function FirstRaise(objects: seq<GameObject>): (k: nat)
    ensures k <= |objects|
    ensures forall j :: 0 <= j < k ==> !RaisesInRoom(objects[j])
    ensures k < |objects| ==> RaisesInRoom(objects[k])
  {
    if |objects| == 0 then 0
    else if RaisesInRoom(objects[0]) then 0
    else 1 + FirstRaise(objects[1..])
  }

  /** The object loop draws the objects before the first raising one, then stops with its error. */
  lemma ObjectDrawsSplit(objects: seq<GameObject>)
    ensures var k := FirstRaise(objects);
      ObjectDraws(objects) == ObjectDraws(objects[..k]) + (if k < |objects| then ObjectDraw(objects[k]) else [])
  {
    var k := FirstRaise(objects);
    NoneRaisePrefix(objects, k);
    if k < |objects| {
      ObjectDrawsStopAt(objects, k);
      ObjectDrawsPrefixStep(objects, k);
    } else {
      assert objects[..k] == objects;
      assert ObjectDraws(objects) + [] == ObjectDraws(objects);
    }
  }

  /** No object before the first raising one raises. */
  lemma NoneRaisePrefix(objects: seq<GameObject>, k: nat)
    requires k <= |objects|
    requires forall j :: 0 <= j < k ==> !RaisesInRoom(objects[j])
    ensures NoneRaise(objects[..k])
  {
    forall o | o in objects[..k]
      ensures !RaisesInRoom(o)
    {
      var i :| 0 <= i < k && objects[..k][i] == o;
      assert objects[i] == o;
    }
  }

  /** Among objects none of which raises, exactly the drawable ones are blitted, each at its position. */
  lemma {:induction false} ObjectDrawsMembers(objects: seq<GameObject>, op: DrawOp)
    requires NoneRaise(objects)
    ensures op in ObjectDraws(objects) <==>
      exists o :: o in objects && DrawnInRoom(o) && op == BlitObject(o.tag, DrawObject(o, 0, 0).blit)
  {
    if |objects| > 0 {
      var first, rest := objects[0], objects[1..];
      NoneRaiseCons(objects);
      ObjectDrawsMembers(rest, op);
      if exists o :: o in objects && DrawnInRoom(o) && op == BlitObject(o.tag, DrawObject(o, 0, 0).blit) {
        var o :| o in objects && DrawnInRoom(o) && op == BlitObject(o.tag, DrawObject(o, 0, 0).blit);
        if o != first {
          assert o in rest;
        }
      }
    }
  }

  /** One turn of the object loop. */
  lemma ObjectDrawsFrom(objects: seq<GameObject>, j: nat)
    requires j < |objects|
    ensures ObjectDraws(objects[j..]) ==
      ObjectDraw(objects[j]) + (if RaisesInRoom(objects[j]) then [] else ObjectDraws(objects[j + 1..]))
  {
    assert objects[j..][0] == objects[j];
    assert objects[j..][1..] == objects[j + 1..];
  }

  /** No object of the list raises when drawn. */
  predicate NoneRaise(objects: seq<GameObject>) {
    forall o :: o in objects ==> !RaisesInRoom(o)
  }

  lemma NoneRaiseCons(objects: seq<GameObject>)
    requires |objects| > 0
    ensures NoneRaise(objects) <==> !RaisesInRoom(objects[0]) && NoneRaise(objects[1..])
  {
    assert objects == [objects[0]] + objects[1..];
    assert forall o :: o in objects <==> o == objects[0] || o in objects[1..];
  }

  lemma ConcatAssoc<T>(a: seq<T>, b: seq<T>, c: seq<T>)
    ensures a + (b + c) == (a + b) + c
  {
  }

  /** Objects are drawn in order, so a later object is drawn over an earlier one; a raise stops the loop. */
  lemma {:induction false} ObjectDrawsAppend(a: seq<GameObject>, b: seq<GameObject>)
    ensures ObjectDraws(a + b) == ObjectDraws(a) + (if NoneRaise(a) then ObjectDraws(b) else [])
  {
    if |a| == 0 {
      assert a + b == b;
    } else {
      var first, rest := a[0], a[1..];
      var ab := a + b;
      assert ab[0] == first;
      assert ab[1..] == rest + b;
      NoneRaiseCons(a);
      if RaisesInRoom(first) {
        assert ObjectDraws(ab) == ObjectDraw(first);
        assert ObjectDraws(a) == ObjectDraw(first);
      } else {
        ObjectDrawsAppend(rest, b);
        var tail := if NoneRaise(rest) then ObjectDraws(b) else [];
        var head, mid := ObjectDraw(first), ObjectDraws(rest);
        assert ObjectDraws(ab) == head + ObjectDraws(rest + b);
        assert ObjectDraws(rest + b) == mid + tail;
        assert ObjectDraws(a) == head + mid;
        ConcatAssoc(head, mid, tail);
      }
    }
  }

  /** After objects none of which raised, the loop draws the next one. */
  lemma ObjectDrawsSnoc(objects: seq<GameObject>, o: GameObject)
    requires NoneRaise(objects)
    ensures ObjectDraws(objects + [o]) == ObjectDraws(objects) + ObjectDraw(o)
    ensures NoneRaise(objects + [o]) <==> !RaisesInRoom(o)
  {
    ObjectDrawsAppend(objects, [o]);
    assert [o][1..] == [];
    assert forall p :: p in objects + [o] <==> p in objects || p == o;
  }

  /** The loop's invariant carried over one object that did not raise. */
  lemma ObjectDrawsPrefixStep(objects: seq<GameObject>, j: nat)
    requires j < |objects| && NoneRaise(objects[..j])
    ensures ObjectDraws(objects[..j + 1]) == ObjectDraws(objects[..j]) + ObjectDraw(objects[j])
    ensures NoneRaise(objects[..j + 1]) <==> !RaisesInRoom(objects[j])
  {
    assert objects[..j + 1] == objects[..j] + [objects[j]];
    ObjectDrawsSnoc(objects[..j], objects[j]);
  }

  /** The first object that raises ends the loop. */
  lemma {:induction false} ObjectDrawsStopAt(objects: seq<GameObject>, j: nat)
    requires j < |objects| && NoneRaise(objects[..j]) && RaisesInRoom(objects[j])
    ensures ObjectDraws(objects) == ObjectDraws(objects[..j + 1])
  {
    var first, pre := objects[0], objects[..j + 1];
    assert pre[0] == first;
    if j == 0 {
      assert pre[1..] == [];
      assert ObjectDraws(objects) == ObjectDraw(first);
      assert ObjectDraws(pre) == ObjectDraw(first);
    } else {
      var rest := objects[1..];
      assert first in objects[..j];
      assert NoneRaise(rest[..j - 1]) by {
        forall o | o in rest[..j - 1]
          ensures !RaisesInRoom(o)
        {
          var i :| 0 <= i < j - 1 && rest[..j - 1][i] == o;
          assert objects[..j][i + 1] == o;
        }
      }
      assert rest[j - 1] == objects[j];
      ObjectDrawsStopAt(rest, j - 1);
      assert pre[1..] == rest[..j];
      assert ObjectDraws(objects) == ObjectDraw(first) + ObjectDraws(rest);
      assert ObjectDraws(pre) == ObjectDraw(first) + ObjectDraws(pre[1..]);
    }
  }

  /** A frame raises exactly when some object's drawing raises, and the error is then its last step. */
  lemma {:induction false} ObjectDrawsRaised(objects: seq<GameObject>)
    ensures FrameRaised(ObjectDraws(objects)) <==> !NoneRaise(objects)
    ensures forall k :: 0 <= k < |ObjectDraws(objects)| - 1 ==> !ObjectDraws(objects)[k].ScaleError?
  {
    if |objects| > 0 {
      var first, rest := objects[0], objects[1..];
      NoneRaiseCons(objects);
      ObjectDrawsRaised(rest);
      ObjectDrawShape(first);
      var head, tail := ObjectDraw(first), ObjectDraws(rest);
      if RaisesInRoom(first) {
        assert ObjectDraws(objects) == head;
      } else {
        assert ObjectDraws(objects) == head + tail;
        if |tail| == 0 {
          assert head + tail == head;
        }
      }
    }
  }

  /** One object yields at most one step, and that step is an error exactly when the object raises. */
  lemma ObjectDrawShape(o: GameObject)
    ensures |ObjectDraw(o)| <= 1
    ensures forall k :: 0 <= k < |ObjectDraw(o)| ==> (ObjectDraw(o)[k].ScaleError? <==> RaisesInRoom(o))
    ensures RaisesInRoom(o) ==> |ObjectDraw(o)| == 1
  {
  }

  /** Each drawable object yields exactly one blit, a raising one its error, and every other object nothing. */
  lemma ObjectDrawsSingle(o: GameObject)
    ensures ObjectDraws([o]) ==
      if DrawnInRoom(o) then [BlitObject(o.tag, DrawObject(o, 0, 0).blit)]
      else if RaisesInRoom(o) then [ScaleError(o.tag, DrawObject(o, 0, 0).w, DrawObject(o, 0, 0).h)]
      else []
  {
    assert [o][1..] == [];
  }

  /** The player's placeholder object is never drawn by the room, and never raises. */
  lemma {:induction false} MainCharaNotDrawn(objects: seq<GameObject>, blit: ObjectBlit, w: int, h: int)
    ensures BlitObject(MainCharaTag, blit) !in ObjectDraws(objects)
    ensures ScaleError(MainCharaTag, w, h) !in ObjectDraws(objects)
  {
    if |objects| > 0 {
      MainCharaNotDrawn(objects[1..], blit, w, h);
    }
  }

  /** What `GameRoom.draw` does: nothing for a room that failed to load; else fill, layers, tiles, objects. */
  function RoomDrawOps(data: Option<RoomData>, surfaces: seq<Image>, tiles: Option<TileLayer>, objects: seq<GameObject>): seq<DrawOp> {
    if data.None? then []
    else
      [Fill(BackgroundColor(data.value))] + SurfaceBlits(surfaces)
        + (if tiles.Some? then [BlitTiles(tiles.value)] else []) + ObjectDraws(objects)
  }

  /** A loaded room first fills with its colour, then draws its layers in order, then the tile layer if any. */
  lemma RoomDrawOrder(data: Option<RoomData>, surfaces: seq<Image>, tiles: Option<TileLayer>, objects: seq<GameObject>)
    requires data.Some?
    ensures var ops := RoomDrawOps(data, surfaces, tiles, objects);
      && ops[0] == Fill(BackgroundColor(data.value))
      && (forall i :: 0 <= i < |surfaces| ==> ops[1 + i] == BlitSurface(surfaces[i]))
      && (tiles.Some? ==> ops[1 + |surfaces|] == BlitTiles(tiles.value))
  {
  }

  /** `GameRoom.draw` raises exactly when the room loaded and one of its objects cannot be scaled. */
  lemma RoomDrawRaised(data: Option<RoomData>, surfaces: seq<Image>, tiles: Option<TileLayer>, objects: seq<GameObject>)
    ensures FrameRaised(RoomDrawOps(data, surfaces, tiles, objects)) <==> data.Some? && !NoneRaise(objects)
  {
    ObjectDrawsRaised(objects);
  }

  /** One turn of the object loop of `GameRoom.draw`: skip the player's object, else `obj.draw`. */
  method DrawRoomObject(o: GameObject) returns (step: seq<DrawOp>, raised: bool)
    ensures step == ObjectDraw(o) && (raised <==> RaisesInRoom(o))
  {
    if o.tag == MainCharaTag {
      return [], false;
    }
    var outcome := DrawObject(o, 0, 0);
    match outcome {
      case Skipped => step, raised := [], false;
      case Blitted(blit) => step, raised := [BlitObject(o.tag, blit)], false;
      case NegativeSize(w, h) => step, raised := [ScaleError(o.tag, w, h)], true;
    }
  }

  /** The object loop of `GameRoom.draw`: each object in turn, stopping at the first that raises. */
  method DrawRoomObjects(objects: seq<GameObject>) returns (ops: seq<DrawOp>)
    ensures ops == ObjectDraws(objects)
  {
    ops := [];
    var j := 0;
    while j < |objects|
      invariant 0 <= j <= |objects|
      invariant NoneRaise(objects[..j]) && ops == ObjectDraws(objects[..j])
    {
      var step, raised := DrawRoomObject(objects[j]);
      ObjectDrawsPrefixStep(objects, j);
      ops := ops + step;
      if raised {
        ObjectDrawsStopAt(objects, j);
        return;
      }
      j := j + 1;
    }
    assert objects[..j] == objects;
  }

  // ---------------------------------------------------------------------------
  // GameRoom
  // ---------------------------------------------------------------------------

  class GameRoom {
    const roomName: string
    /** `room_data`: `None` when the room failed to load. */
    const data: Option<RoomData>
    /** `name`: the caption, or the room name when the caption is empty; left to the base room when loading failed. */
    const name: Option<string>
    const bgSurfaces: seq<Image>
    const tileLayer: Option<TileLayer>
    const objects: seq<GameObject>
    const isWalkable: bool

    /** `GameRoom(room_name)` with the shared room loader and asset manager. */
    constructor (roomName: string, loader: RoomLoader, am: AssetManager, dir: RoomDir, files: AssetFiles)
      modifies loader, am
      ensures this.roomName == roomName && isWalkable
      ensures (data, loader.cache) == LoadStep(old(loader.cache), dir, roomName)
      ensures am.spriteMetadata == old(am.spriteMetadata)
      ensures data.None? ==>
        && name == None && bgSurfaces == [] && tileLayer == None && objects == []
        && am.backgroundCache == old(am.backgroundCache) && am.spriteCache == old(am.spriteCache)
      ensures data.Some? ==>
        var d := data.value;
        var bgs := BackgroundsFrom(old(am.backgroundCache), files, d.backgrounds);
        var tiles := TilesFrom(bgs.1, files, d.tiles);
        var objs := ObjectsFrom(old(am.spriteCache), files, d.objects);
        && name == Some(if d.caption != "" then d.caption else roomName)
        && bgSurfaces == bgs.0 && tileLayer == TileLayerOf(d, tiles.0) && objects == objs.0
        && am.backgroundCache == tiles.1 && am.spriteCache == objs.1
    {
      var loaded := loader.LoadRoom(roomName, dir);
      this.roomName := roomName;
      isWalkable := true;
      data := loaded;
      if loaded.None? {
        name := None;
        bgSurfaces := [];
        tileLayer := None;
        objects := [];
      } else {
        var d := loaded.value;
        name := Some(if d.caption != "" then d.caption else roomName);
        var surfaces := LoadBackgrounds(am, files, d.backgrounds);
        var layer := LoadTiles(am, files, d);
        var objs := LoadObjects(am, files, d.objects);
        bgSurfaces := surfaces;
        tileLayer := layer;
        objects := objs;
      }
    }

    /** `get_nearby_objects(x, y, radius)`. */
    method GetNearbyObjects(x: int, y: int, radius: int := 50) returns (nearby: seq<GameObject>)
      ensures nearby == NearbyObjects(objects, x, y, radius)
    {
      nearby := [];
      var i := 0;
      while i < |objects|
        invariant 0 <= i <= |objects|
        invariant nearby == NearbyObjects(objects[..i], x, y, radius)
      {
        assert objects[..i + 1][..i] == objects[..i];
        var o := objects[i];
        if radius > 0 && (o.x - x) * (o.x - x) + (o.y - y) * (o.y - y) < radius * radius {
          nearby := nearby + [o];
        }
        i := i + 1;
      }
      assert objects[..i] == objects;
    }

    /** `check_collision(rect)`: stops at the first object that collides. */
    method CheckCollision(r: Rect) returns (hit: bool)
      ensures hit <==> AnyCollides(objects, r)
    {
      var i := 0;
      while i < |objects|
        invariant 0 <= i <= |objects|
        invariant forall j :: 0 <= j < i ==> !Collides(objects[j], r)
      {
        if Collides(objects[i], r) {
          return true;
        }
        i := i + 1;
      }
      return false;
    }

    /** `draw`. */
    method Draw() returns (ops: seq<DrawOp>)
      ensures ops == RoomDrawOps(data, bgSurfaces, tileLayer, objects)
    {
      if data.None? {
        return [];
      }
      ops := [Fill(BackgroundColor(data.value))];
      var i := 0;
      while i < |bgSurfaces|
        invariant 0 <= i <= |bgSurfaces|
        invariant ops == [Fill(BackgroundColor(data.value))] + SurfaceBlits(bgSurfaces[..i])
      {
        assert bgSurfaces[..i + 1][..i] == bgSurfaces[..i];
        ops := ops + [BlitSurface(bgSurfaces[i])];
        i := i + 1;
      }
      assert bgSurfaces[..i] == bgSurfaces;
      if tileLayer.Some? {
        ops := ops + [BlitTiles(tileLayer.value)];
      }
      var objectOps := DrawRoomObjects(objects);
      ops := ops + objectOps;
    }
  }

  /** With faithful caches, a loaded room holds exactly the layers, tiles and objects its files determine. */
  lemma RoomBuildAgrees(bgCache: map<string, Image>, spriteCache: map<string, Image>, files: AssetFiles, d: RoomData)
    requires BackgroundCacheAgrees(bgCache, files) && SpriteCacheAgrees(spriteCache, files)
    ensures var bgs := BackgroundsFrom(bgCache, files, d.backgrounds);
      && bgs.0 == EnabledBackgrounds(files, d.backgrounds)
      && TilesFrom(bgs.1, files, d.tiles).0 == TileBlits(files, d.tiles)
      && (forall i :: 0 <= i < |d.objects| ==> ObjectsFrom(spriteCache, files, d.objects).0[i] == ObjectOf(files, d.objects[i]))
  {
    BackgroundsAgree(bgCache, files, d.backgrounds);
    TilesAgree(BackgroundsFrom(bgCache, files, d.backgrounds).1, files, d.tiles);
    ObjectsAgree(spriteCache, files, d.objects);
  }

  // ---------------------------------------------------------------------------
  // The walk controller
  // ---------------------------------------------------------------------------

  /** The four movement keys as `pygame.key.get_pressed()` reports them. */
  datatype Held = Held(left: bool, right: bool, up: bool, down: bool)

  datatype Key = Escape | Accept | OtherKey

  /** The events `pygame.event.get()` returns that the controller looks at. */
  datatype Event = QuitEvent | KeyDown(key: Key) | OtherEvent

  const CharaWidth := 19
  const CharaHeight := 29
  const InteractRadius := 50
  const EdgeMargin := 20
  const AnimationPeriod := 10

  /** The held-key step: keys are looked at in the order left, right, up, down; each held one turns and shifts the character. */
  function Move(p: Pose, speed: int, held: Held): Pose {
    var p0 := p.(moving := false);
    var p1 := if held.left then p0.(dir := 3, moving := true, x := p0.x - speed) else p0;
    var p2 := if held.right then p1.(dir := 1, moving := true, x := p1.x + speed) else p1;
    var p3 := if held.up then p2.(dir := 0, moving := true, y := p2.y - speed) else p2;
    if held.down then p3.(dir := 2, moving := true, y := p3.y + speed) else p3
  }

  /** Shifts add up, the last held key in the order left, right, up, down sets the facing, and any held key sets `moving`. */
  lemma MoveSummary(p: Pose, speed: int, held: Held)
    ensures var q := Move(p, speed, held);
      && q.x == p.x - (if held.left then speed else 0) + (if held.right then speed else 0)
      && q.y == p.y - (if held.up then speed else 0) + (if held.down then speed else 0)
      && q.moving == (held.left || held.right || held.up || held.down)
      && q.dir == (if held.down then 2 else if held.up then 0 else if held.right then 1 else if held.left then 3 else p.dir)
  {
  }

  /** The character's collision rectangle at a pose. */
  function CharaRect(p: Pose): Rect {
    Rect(p.x, p.y, CharaWidth, CharaHeight)
  }

  /** Undoes the whole step (both coordinates, not facing or `moving`) when the moved character collides. */
  function Settle(before: Pose, after: Pose, objects: seq<GameObject>): Pose {
    if after.moving && AnyCollides(objects, CharaRect(after)) then after.(x := before.x, y := before.y) else after
  }

  /** A step is kept whole or undone whole, and a kept step never ends in a collision. */
  lemma SettleWhole(before: Pose, after: Pose, objects: seq<GameObject>)
    ensures var q := Settle(before, after, objects);
      && q.dir == after.dir && q.moving == after.moving
      && ((q.x, q.y) == (after.x, after.y) || (q.x, q.y) == (before.x, before.y))
      && (after.moving && (q.x, q.y) == (after.x, after.y) && (after.x, after.y) != (before.x, before.y) ==> !AnyCollides(objects, CharaRect(after)))
  {
  }

  function Clamp(v: int, limit: int): int {
    if v > limit then (if limit < 0 then 0 else limit) else if v < 0 then 0 else v
  }

  /** Clamping the position to [0, width - 20] x [0, height - 20]; facing and `moving` are kept. */
  function ClampPose(p: Pose, width: int, height: int): Pose {
    p.(x := Clamp(p.x, width - EdgeMargin), y := Clamp(p.y, height - EdgeMargin))
  }

  /** `max(0, min(v, limit))`: never negative, never past a non-negative limit, and a value already in range stays. */
  lemma ClampBounds(v: int, limit: int)
    ensures Clamp(v, limit) >= 0
    ensures limit >= 0 ==> Clamp(v, limit) <= limit
    ensures limit < 0 ==> Clamp(v, limit) == 0
    ensures 0 <= v <= limit ==> Clamp(v, limit) == v
    ensures Clamp(Clamp(v, limit), limit) == Clamp(v, limit)
    ensures Clamp(v, limit) == (if 0 > (if v < limit then v else limit) then 0 else (if v < limit then v else limit))
  {
  }

  /** The position a tick leaves the character at: moved and settled while the lock is free, then clamped either way. */
  function TickPose(locked: bool, p: Pose, speed: int, held: Held, objects: seq<GameObject>, width: int, height: int): Pose {
    ClampPose(if locked then p else Settle(p, Move(p, speed, held), objects), width, height)
  }

  /** Starting at (100, 100) with speed 4 and only right held, a wall at (104, 100) sends the character back to (100, 100). */
  lemma RevertExample(wall: GameObject, objects: seq<GameObject>, dir: int, moving: bool)
    requires wall.collidable && wall.rect == Rect(104, 100, 20, 20)
    requires wall in objects
    ensures TickPose(false, Pose(100, 100, dir, moving), 4, Held(false, true, false, false), objects, 640, 480) == Pose(100, 100, 1, true)
  {
    var i :| 0 <= i < |objects| && objects[i] == wall;
    assert Collides(objects[i], Rect(104, 100, 19, 29));
  }

  /** While the lock is held the keys do nothing, but the position is still clamped. */
  lemma LockedTickOnlyClamps(p: Pose, speed: int, held: Held, objects: seq<GameObject>, width: int, height: int)
    ensures TickPose(true, p, speed, held, objects, width, height) == ClampPose(p, width, height)
    ensures width >= 20 && height >= 20 && 0 <= p.x <= width - 20 && 0 <= p.y <= height - 20 ==>
      TickPose(true, p, speed, held, objects, width, height) == p
  {
  }

  /** The first interactable object, in order. */
  function FirstInteractable(objects: seq<GameObject>): (r: Option<GameObject>)
    ensures r.None? <==> forall i :: 0 <= i < |objects| ==> !objects[i].interactable
    ensures r.Some? ==>
      exists i :: 0 <= i < |objects| && objects[i] == r.value && r.value.interactable && forall j :: 0 <= j < i ==> !objects[j].interactable
  {
    if |objects| == 0 then None
    else if objects[0].interactable then Some(objects[0])
    else
      var r := FirstInteractable(objects[1..]);
      if r.Some? then
        var i :| 0 <= i < |objects[1..]| && objects[1..][i] == r.value && r.value.interactable
          && forall j :: 0 <= j < i ==> !objects[1..][j].interactable;
        assert objects[i + 1] == r.value;
        r
      else
        r
  }

  /** The first interactable object is found by scanning: everything before position k is not interactable. */
  lemma FirstInteractableAt(objects: seq<GameObject>, k: nat)
    requires k < |objects| && objects[k].interactable
    requires forall j :: 0 <= j < k ==> !objects[j].interactable
    ensures FirstInteractable(objects) == Some(objects[k])
  {
    var r := FirstInteractable(objects);
    var i :| 0 <= i < |objects| && objects[i] == r.value && r.value.interactable
      && forall j :: 0 <= j < i ==> !objects[j].interactable;
    assert i == k by {
      assert i <= k;
      assert k <= i;
    }
  }

  /** What one event does to the globals: quit and escape call `globals.quit()`; accept interacts with the first interactable object within 50. */
  function EventEffect(s: Shared, e: Event, objects: seq<GameObject>, x: int, y: int, knownRooms: set<string>): Shared {
    match e
    case QuitEvent => s.(quitCalls := s.quitCalls + 1)
    case KeyDown(Escape) => s.(quitCalls := s.quitCalls + 1)
    case KeyDown(Accept) =>
      (match FirstInteractable(NearbyObjects(objects, x, y, InteractRadius))
       case None => s
       case Some(o) => InteractEffect(s, o, knownRooms))
    case KeyDown(OtherKey) => s
    case OtherEvent => s
  }

  /** The events of one tick, in order. */
  function EventsEffect(s: Shared, events: seq<Event>, objects: seq<GameObject>, x: int, y: int, knownRooms: set<string>): Shared {
    if |events| == 0 then s
    else EventEffect(EventsEffect(s, events[..|events| - 1], objects, x, y, knownRooms), events[|events| - 1], objects, x, y, knownRooms)
  }

  /** Handling events keeps the lock as it was, opens at most one popup per accept press, and only requests known rooms. */
  lemma {:induction false} EventsEffectBounds(s: Shared, events: seq<Event>, objects: seq<GameObject>, x: int, y: int, knownRooms: set<string>)
    ensures var t := EventsEffect(s, events, objects, x, y, knownRooms);
      && t.eventLock == s.eventLock
      && s.savesOpened <= t.savesOpened <= s.savesOpened + |events|
      && s.quitCalls <= t.quitCalls <= s.quitCalls + |events|
      && (RequestsKnown(s, knownRooms) ==> RequestsKnown(t, knownRooms))
  {
    if |events| > 0 {
      var mid := EventsEffect(s, events[..|events| - 1], objects, x, y, knownRooms);
      EventsEffectBounds(s, events[..|events| - 1], objects, x, y, knownRooms);
      var e := events[|events| - 1];
      if e == KeyDown(Accept) {
        var first := FirstInteractable(NearbyObjects(objects, x, y, InteractRadius));
        if first.Some? {
          InteractEffectBounds(mid, first.value, knownRooms);
        }
      }
    }
  }

  /** Pressing accept with no interactable object within 50 does nothing. */
  lemma AcceptWithNothingNear(s: Shared, objects: seq<GameObject>, x: int, y: int, knownRooms: set<string>)
    requires forall o :: o in objects && Near(o, x, y, InteractRadius) ==> !o.interactable
    ensures EventEffect(s, KeyDown(Accept), objects, x, y, knownRooms) == s
  {
    var nearby := NearbyObjects(objects, x, y, InteractRadius);
    forall i | 0 <= i < |nearby|
      ensures !nearby[i].interactable
    {
      NearbyMembers(objects, x, y, InteractRadius, nearby[i]);
    }
  }

  /** One animation step: frame 0 of the cycle, or its last frame on moving ticks that reach a multiple of 10. */
  function AnimationStep(cycle: seq<Image>, tick: nat, moving: bool): (Image, nat)
    requires |cycle| > 0
  {
    var t := if moving then tick + 1 else tick;
    (if moving && t % AnimationPeriod == 0 then cycle[|cycle| - 1] else cycle[0], t)
  }

  /** The animation never cycles: it only ever shows the first or the last frame, and a still character shows the first. */
  lemma AnimationShowsEnds(cycle: seq<Image>, tick: nat, moving: bool)
    requires |cycle| > 0
    ensures var step := AnimationStep(cycle, tick, moving);
      && (step.0 == cycle[0] || step.0 == cycle[|cycle| - 1])
      && (!moving ==> step == (cycle[0], tick))
      && (moving ==> step.1 == tick + 1)
  {
  }

  /** Of ten consecutive moving ticks, exactly the one that reaches a multiple of 10 shows the last frame. */
  lemma AnimationPeriodic(cycle: seq<Image>, tick: nat, k: nat)
    requires |cycle| > 0 && tick % 10 == 0 && k < 10
    ensures AnimationStep(cycle, tick + k, true).0 == (if k == 9 then cycle[|cycle| - 1] else cycle[0])
  {
  }

  /** The walking frames of one direction, each loaded from `sprites/` and scaled by 2. */
  function CharaCycle(files: AssetFiles, prefix: string, n: nat): (r: Option<seq<Image>>)
    ensures r.Some? <==> forall i :: 0 <= i < n ==> SpriteFromFiles(files, SpriteKey(prefix, i)).Some?
    ensures r.Some? ==> |r.value| == n
    ensures r.Some? ==> forall i :: 0 <= i < n ==> r.value[i] == ScaleBy2(SpriteFromFiles(files, SpriteKey(prefix, i)).value)
  {
    if n == 0 then Some([])
    else
      var init := CharaCycle(files, prefix, n - 1);
      var frame := SpriteFromFiles(files, SpriteKey(prefix, n - 1));
      if init.Some? && frame.Some? then Some(init.value + [ScaleBy2(frame.value)]) else None
  }

  /** `scale(img, 2)`. */
  function ScaleBy2(image: Image): (scaled: Image)
    ensures scaled.width == 2 * image.width && scaled.height == 2 * image.height
  {
    Scaled(image.width * 2, image.height * 2, image)
  }

  /** `walk_animate_init` needs every walking frame: a missing or undecodable one raises. */
  predicate WalkFramesPresent(files: AssetFiles) {
    && CharaCycle(files, "spr_maincharau", 4).Some?
    && CharaCycle(files, "spr_maincharad", 4).Some?
    && CharaCycle(files, "spr_maincharal", 2).Some?
    && CharaCycle(files, "spr_maincharar", 2).Some?
  }

  class WalkableGameRoom {
    const room: GameRoom
    const chara: Character
    /** `chara_layer` is set exactly when the room loaded. */
    const hasCharaLayer: bool
    const upCycle: seq<Image>
    const rightCycle: seq<Image>
    const downCycle: seq<Image>
    const leftCycle: seq<Image>
    var walkTick: nat

    predicate Valid() {
      hasCharaLayer ==> room.data.Some? && |upCycle| == 4 && |downCycle| == 4 && |leftCycle| == 2 && |rightCycle| == 2
    }

    /** `[upcycle, right_cycle, down_cycle, left_cycle][dir]`, with Python's negative indices. */
    function CycleFor(dir: int): seq<Image>
      requires -4 <= dir < 4
    {
      [upCycle, rightCycle, downCycle, leftCycle][if dir < 0 then dir + 4 else dir]
    }

    /** `WalkableGameRoom(room_name)`; the walking frames are loaded only when the room loads, and must then exist. */
    constructor (roomName: string, loader: RoomLoader, am: AssetManager, dir: RoomDir, files: AssetFiles, chara: Character)
      requires LoadStep(loader.cache, dir, roomName).0.Some? ==> WalkFramesPresent(files)
      modifies loader, am
      ensures Valid() && fresh(room) && room.roomName == roomName && this.chara == chara && walkTick == 0
      ensures (room.data, loader.cache) == LoadStep(old(loader.cache), dir, roomName)
      ensures hasCharaLayer <==> room.data.Some?
      ensures room.isWalkable && am.spriteMetadata == old(am.spriteMetadata)
      ensures room.data.None? ==>
        && room.name == None && room.bgSurfaces == [] && room.tileLayer == None && room.objects == []
        && am.backgroundCache == old(am.backgroundCache) && am.spriteCache == old(am.spriteCache)
      ensures room.data.Some? ==>
        var d := room.data.value;
        var bgs := BackgroundsFrom(old(am.backgroundCache), files, d.backgrounds);
        var tiles := TilesFrom(bgs.1, files, d.tiles);
        var objs := ObjectsFrom(old(am.spriteCache), files, d.objects);
        && room.name == Some(if d.caption != "" then d.caption else roomName)
        && room.bgSurfaces == bgs.0 && room.tileLayer == TileLayerOf(d, tiles.0) && room.objects == objs.0
        && am.backgroundCache == tiles.1 && am.spriteCache == objs.1
      ensures hasCharaLayer ==>
        && upCycle == CharaCycle(files, "spr_maincharau", 4).value
        && downCycle == CharaCycle(files, "spr_maincharad", 4).value
        && leftCycle == CharaCycle(files, "spr_maincharal", 2).value
        && rightCycle == CharaCycle(files, "spr_maincharar", 2).value
    {
      var r := new GameRoom(roomName, loader, am, dir, files);
      room := r;
      this.chara := chara;
      walkTick := 0;
      if r.data.Some? {
        hasCharaLayer := true;
        upCycle := CharaCycle(files, "spr_maincharau", 4).value;
        downCycle := CharaCycle(files, "spr_maincharad", 4).value;
        leftCycle := CharaCycle(files, "spr_maincharal", 2).value;
        rightCycle := CharaCycle(files, "spr_maincharar", 2).value;
      } else {
        hasCharaLayer := false;
        upCycle, downCycle, leftCycle, rightCycle := [], [], [], [];
      }
    }

    /** `walk_animate_loop`. */
    method WalkAnimateLoop()
      requires Valid() && hasCharaLayer && -4 <= chara.dir < 4
      modifies this`walkTick, chara`sprite
      ensures var step := AnimationStep(CycleFor(chara.dir), old(walkTick), chara.moving);
        chara.sprite == Some(step.0) && walkTick == step.1
    {
      var cycle := CycleFor(chara.dir);
      chara.sprite := Some(cycle[0]);
      if chara.moving {
        walkTick := walkTick + 1;
        if walkTick % AnimationPeriod == 0 {
          for i := 0 to |cycle|
            invariant chara.sprite == Some(if i == 0 then cycle[0] else cycle[i - 1])
            invariant walkTick == old(walkTick) + 1
          {
            chara.sprite := Some(cycle[i]);
          }
        }
      }
    }

    /** The event loop of `draw`, run while the lock is free. */
    method HandleEvents(events: seq<Event>, g: Globals, popupPresses: nat, knownRooms: set<string>)
      modifies g
      ensures g.State() == EventsEffect(old(g.State()), events, room.objects, chara.x, chara.y, knownRooms)
    {
      var i := 0;
      while i < |events|
        invariant 0 <= i <= |events|
        invariant g.State() == EventsEffect(old(g.State()), events[..i], room.objects, chara.x, chara.y, knownRooms)
      {
        assert events[..i + 1][..i] == events[..i];
        var e := events[i];
        if e == QuitEvent || e == KeyDown(Escape) {
          g.quitCalls := g.quitCalls + 1;
        }
        if e == KeyDown(Accept) {
          var nearby := room.GetNearbyObjects(chara.x, chara.y, InteractRadius);
          var k := 0;
          while k < |nearby| && !nearby[k].interactable
            invariant 0 <= k <= |nearby|
            invariant forall j :: 0 <= j < k ==> !nearby[j].interactable
          {
            k := k + 1;
          }
          if k < |nearby| {
            FirstInteractableAt(nearby, k);
            Interact(nearby[k], g, popupPresses, knownRooms);
          }
        }
        i := i + 1;
      }
      assert events[..i] == events;
    }

    /** The held-key step of `draw` and its revert on collision. */
    method MoveCharacter(held: Held)
      modifies chara`x, chara`y, chara`dir, chara`moving
      ensures chara.Posture() == Settle(old(chara.Posture()), Move(old(chara.Posture()), chara.movespeed, held), room.objects)
    {
      chara.moving := false;
      var oldX, oldY := chara.x, chara.y;
      if held.left {
        chara.dir := 3;
        chara.moving := true;
        chara.x := chara.x - chara.movespeed;
      }
      if held.right {
        chara.dir := 1;
        chara.moving := true;
        chara.x := chara.x + chara.movespeed;
      }
      if held.up {
        chara.dir := 0;
        chara.moving := true;
        chara.y := chara.y - chara.movespeed;
      }
      if held.down {
        chara.dir := 2;
        chara.moving := true;
        chara.y := chara.y + chara.movespeed;
      }
      if chara.moving {
        var hit := room.CheckCollision(Rect(chara.x, chara.y, CharaWidth, CharaHeight));
        if hit {
          chara.x, chara.y := oldX, oldY;
        }
      }
    }

    /**
     * `WalkableGameRoom.draw`, one frame: the room is drawn, then the
     * character is animated and drawn where it stands, then (lock free) events
     * and held keys are handled, then the position is clamped to the room.
     * When the room's drawing raises, nothing after it runs.
     */
    method Draw(events: seq<Event>, held: Held, g: Globals, popupPresses: nat, knownRooms: set<string>) returns (ops: seq<DrawOp>)
      requires Valid() && -4 <= chara.dir < 4
      modifies this`walkTick, chara, g
      ensures !hasCharaLayer || FrameRaised(RoomDrawOps(room.data, room.bgSurfaces, room.tileLayer, room.objects)) ==>
        && ops == RoomDrawOps(room.data, room.bgSurfaces, room.tileLayer, room.objects)
        && walkTick == old(walkTick) && g.State() == old(g.State())
        && chara.Posture() == old(chara.Posture()) && chara.sprite == old(chara.sprite)
      ensures hasCharaLayer && !FrameRaised(RoomDrawOps(room.data, room.bgSurfaces, room.tileLayer, room.objects)) ==>
        var step := AnimationStep(CycleFor(old(chara.dir)), old(walkTick), old(chara.moving));
        && ops == RoomDrawOps(room.data, room.bgSurfaces, room.tileLayer, room.objects) + [BlitCharacter(step.0, old(chara.x), old(chara.y))]
        && walkTick == step.1 && chara.sprite == Some(step.0)
        && chara.Posture() == TickPose(old(g.eventLock), old(chara.Posture()), chara.movespeed, held, room.objects,
             room.data.value.width, room.data.value.height)
        && g.State() == (if old(g.eventLock) then old(g.State())
             else EventsEffect(old(g.State()), events, room.objects, old(chara.x), old(chara.y), knownRooms))
      ensures chara.movespeed == old(chara.movespeed)
    {
      ops := room.Draw();
      if !hasCharaLayer || FrameRaised(ops) {
        return;
      }
      WalkAnimateLoop();
      ops := ops + [BlitCharacter(chara.sprite.value, chara.x, chara.y)];
      if !g.eventLock {
        HandleEvents(events, g, popupPresses, knownRooms);
        MoveCharacter(held);
      }
      var d := room.data.value;
      chara.x := Clamp(chara.x, d.width - EdgeMargin);
      chara.y := Clamp(chara.y, d.height - EdgeMargin);
    }
  }
}
