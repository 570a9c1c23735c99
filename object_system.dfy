/**
 * Game objects placed in a room: how a type tag is classified (blocks
 * movement, can be interacted with), which sprite it shows, its collision
 * rectangle, which behaviour an interaction runs, and what the two behaviours
 * (save point, door) do to the shared globals.
 */
module ObjectSystem {
  import opened Wrappers
  import opened Text
  import opened RoomLoading
  import opened AssetManagement
  import opened GlobalState

  // ---------------------------------------------------------------------------
  // Rectangles
  // ---------------------------------------------------------------------------

  /** A `pygame.Rect` with a non-negative size. */
  datatype Rect = Rect(x: int, y: int, width: nat, height: nat)

  /**
   * `pygame.Rect.colliderect`: an empty rectangle touches nothing; otherwise
   * each starts strictly before the other ends, on both axes.
   */
  predicate Overlap(a: Rect, b: Rect) {
    && a.width > 0 && a.height > 0 && b.width > 0 && b.height > 0
    && a.x < b.x + b.width && a.y < b.y + b.height
    && b.x < a.x + a.width && b.y < a.y + a.height
  }

  /** The pixel (px, py) lies in the rectangle. */
  predicate Inside(r: Rect, px: int, py: int) {
    r.x <= px < r.x + r.width && r.y <= py < r.y + r.height
  }

  /** Two rectangles collide exactly when some pixel lies in both. */
  lemma OverlapIsSharedPixel(a: Rect, b: Rect)
    ensures Overlap(a, b) <==> exists px, py :: Inside(a, px, py) && Inside(b, px, py)
  {
    if Overlap(a, b) {
      var px := if a.x < b.x then b.x else a.x;
      var py := if a.y < b.y then b.y else a.y;
      assert Inside(a, px, py) && Inside(b, px, py);
    }
  }

  // ---------------------------------------------------------------------------
  // Classification by keywords in the lower-cased tag
  // ---------------------------------------------------------------------------

  const CollidableKeywords: seq<string> := ["solid", "wall", "block", "collision"]
  const InteractableKeywords: seq<string> := ["save", "door", "sign", "npc", "item", "chest"]

  /** `_is_collidable`. */
  predicate IsCollidable(tag: string) {
    ContainsAny(Lower(tag), CollidableKeywords)
  }

  /** `_is_interactable`. */
  predicate IsInteractable(tag: string) {
    ContainsAny(Lower(tag), InteractableKeywords)
  }

  /** The classification ignores case: a tag and its lower-case form are classified alike. */
  lemma ClassificationIgnoresCase(tag: string)
    ensures IsCollidable(Lower(tag)) == IsCollidable(tag)
    ensures IsInteractable(Lower(tag)) == IsInteractable(tag)
  {
    LowerIdempotent(tag);
  }

  /** A lower-case keyword anywhere in the tag occurs in its lower-cased form. */
  lemma KeywordInTag(prefix: string, keyword: string, suffix: string)
    requires forall i :: 0 <= i < |keyword| ==> !('A' <= keyword[i] <= 'Z')
    ensures Contains(Lower(prefix + keyword + suffix), keyword)
  {
    var tag := prefix + keyword + suffix;
    LowerOfLowerCase(keyword);
    assert Lower(tag)[|prefix|..|prefix| + |keyword|] == Lower(keyword);
    ContainsAt(Lower(tag), keyword, |prefix|);
  }

  /** A blocking keyword anywhere in the tag makes it collidable. */
  lemma CollidableByKeyword(prefix: string, keyword: string, suffix: string)
    requires keyword in CollidableKeywords
    ensures IsCollidable(prefix + keyword + suffix)
  {
    KeywordInTag(prefix, keyword, suffix);
  }

  /** An interaction keyword anywhere in the tag makes it interactable. */
  lemma InteractableByKeyword(prefix: string, keyword: string, suffix: string)
    requires keyword in InteractableKeywords
    ensures IsInteractable(prefix + keyword + suffix)
  {
    KeywordInTag(prefix, keyword, suffix);
  }

  /** Without `l` and `w` in either case, no blocking keyword can occur. */
  lemma NotCollidable(tag: string)
    requires 'l' !in tag && 'L' !in tag && 'w' !in tag && 'W' !in tag
    ensures !IsCollidable(tag)
  {
    var t := Lower(tag);
    LowerAvoids(tag, 'l');
    LowerAvoids(tag, 'w');
    MissingCharNotContained(t, "solid", 'l');
    MissingCharNotContained(t, "wall", 'w');
    MissingCharNotContained(t, "block", 'l');
    MissingCharNotContained(t, "collision", 'l');
  }

  /** Without `v`, `r`, `g`, `n`, `e` and `c` in either case, no interaction keyword can occur. */
  lemma NotInteractable(tag: string)
    requires 'v' !in tag && 'V' !in tag && 'r' !in tag && 'R' !in tag && 'g' !in tag && 'G' !in tag
    requires 'n' !in tag && 'N' !in tag && 'e' !in tag && 'E' !in tag && 'c' !in tag && 'C' !in tag
    ensures !IsInteractable(tag)
  {
    var t := Lower(tag);
    LowerAvoids(tag, 'v');
    LowerAvoids(tag, 'r');
    LowerAvoids(tag, 'g');
    LowerAvoids(tag, 'n');
    LowerAvoids(tag, 'e');
    LowerAvoids(tag, 'c');
    MissingCharNotContained(t, "save", 'v');
    MissingCharNotContained(t, "door", 'r');
    MissingCharNotContained(t, "sign", 'g');
    MissingCharNotContained(t, "npc", 'n');
    MissingCharNotContained(t, "item", 'e');
    MissingCharNotContained(t, "chest", 'c');
  }

  lemma SavePointInteractable()
    ensures IsInteractable("obj_savepoint")
  {
    InteractableByKeyword("obj_", "save", "point");
    assert "obj_" + "save" + "point" == "obj_savepoint";
  }

  /** The save point is interactable but never blocks movement. */
  lemma SavePointClasses()
    ensures IsInteractable("obj_savepoint") && !IsCollidable("obj_savepoint")
  {
    SavePointInteractable();
    NotCollidable("obj_savepoint");
  }

  lemma SolidCollidable()
    ensures IsCollidable("obj_solidtall")
  {
    CollidableByKeyword("obj_", "solid", "tall");
    assert "obj_" + "solid" + "tall" == "obj_solidtall";
  }

  /** A solid blocks movement and cannot be interacted with. */
  lemma SolidClasses()
    ensures IsCollidable("obj_solidtall") && !IsInteractable("obj_solidtall")
  {
    SolidCollidable();
    NotInteractable("obj_solidtall");
  }

  lemma DoorInteractable(suffix: string)
    ensures IsInteractable("obj_door" + suffix)
  {
    InteractableByKeyword("obj_", "door", suffix);
    assert "obj_" + "door" + suffix == "obj_door" + suffix;
  }

  // ---------------------------------------------------------------------------
  // Behaviours
  // ---------------------------------------------------------------------------

  datatype Behavior = SavePoint | Door(targetRoom: string, targetMarker: string)

  /** `OBJECT_BEHAVIORS`: keyed by the exact tag. */
  const ObjectBehaviors: map<string, Behavior> := map[
    "obj_savepoint" := SavePoint,
    "obj_doorA" := Door("room_ruins2", "B"),
    "obj_doorB" := Door("room_ruins1", "A")]

  /** `get_behavior_for_object`. */
  function BehaviorFor(tag: string): Option<Behavior> {
    if tag in ObjectBehaviors then Some(ObjectBehaviors[tag]) else None
  }

  /** Exactly three tags, matched case-sensitively, have a behaviour. */
  lemma BehaviorTable(tag: string)
    ensures BehaviorFor(tag).Some? <==> tag == "obj_savepoint" || tag == "obj_doorA" || tag == "obj_doorB"
    ensures BehaviorFor("obj_savepoint") == Some(SavePoint)
    ensures BehaviorFor("obj_doorA") == Some(Door("room_ruins2", "B"))
    ensures BehaviorFor("obj_doorB") == Some(Door("room_ruins1", "A"))
  {
  }

  /** Every tag with a behaviour is interactable; the converse fails, e.g. for the music-fading door. */
  lemma BehaviorImpliesInteractable(tag: string)
    ensures BehaviorFor(tag).Some? ==> IsInteractable(tag)
    ensures IsInteractable("obj_doorBmusicfade") && BehaviorFor("obj_doorBmusicfade").None?
  {
    SavePointInteractable();
    DoorInteractable("A");
    assert "obj_door" + "A" == "obj_doorA";
    DoorInteractable("B");
    assert "obj_door" + "B" == "obj_doorB";
    DoorInteractable("Bmusicfade");
    assert "obj_door" + "Bmusicfade" == "obj_doorBmusicfade";
  }

  // ---------------------------------------------------------------------------
  // Sprite names
  // ---------------------------------------------------------------------------

  /** The table in `_load_sprite`: `None` entries mean "no sprite of its own". */
  const ObjToSprite: map<string, Option<string>> := map[
    "obj_mainchara" := Some("spr_maincharad"),
    "obj_savepoint" := Some("spr_savepoint"),
    "obj_marker" := None,
    "obj_markerA" := None,
    "obj_markerB" := None,
    "obj_markerX" := None,
    "obj_doorA" := Some("spr_doorA"),
    "obj_doorB" := Some("spr_doorA"),
    "obj_doorBmusicfade" := Some("spr_doorA"),
    "obj_solidtall" := None,
    "obj_solidsmall" := None,
    "obj_solidlong" := None,
    "obj_solidtall_2" := None]

  /** Python's `str.replace("obj_", "spr_")`. */
  function ObjToSprPrefix(tag: string): string {
    ReplaceAll(tag, "obj_", "spr_")
  }

  /** The sprite `_load_sprite` asks for (at frame 0), or `None` when it loads none. */
  function SpriteNameFor(tag: string): Option<string> {
    var listed := if tag in ObjToSprite then ObjToSprite[tag] else None;
    if listed.Some? && |listed.value| > 0 then listed
    else if !Contains(Lower(tag), "solid") && !Contains(Lower(tag), "marker") then Some(ObjToSprPrefix(tag))
    else None
  }

  /** A tag free of `l`, `L`, `k` and `K` mentions neither "solid" nor "marker", in any case. */
  lemma NeitherSolidNorMarker(tag: string)
    requires 'l' !in tag && 'L' !in tag && 'k' !in tag && 'K' !in tag
    ensures !Contains(Lower(tag), "solid") && !Contains(Lower(tag), "marker")
  {
    LowerAvoids(tag, 'l');
    LowerAvoids(tag, 'k');
    MissingCharNotContained(Lower(tag), "solid", 'l');
    MissingCharNotContained(Lower(tag), "marker", 'k');
  }

  /** An object has no sprite exactly when its lower-cased tag mentions "solid" or "marker". */
  lemma NoSpriteIffSolidOrMarker(tag: string)
    ensures SpriteNameFor(tag).None? <==> Contains(Lower(tag), "solid") || Contains(Lower(tag), "marker")
  {
    if tag in ObjToSprite && ObjToSprite[tag].Some? {
      assert tag == "obj_mainchara" || tag == "obj_savepoint" || tag == "obj_doorA"
        || tag == "obj_doorB" || tag == "obj_doorBmusicfade";
      NeitherSolidNorMarker(tag);
    }
  }

  /** A tag outside the table and free of "solid"/"marker" loads its own name with `obj_` turned into `spr_`. */
  lemma SpriteFallback(rest: string)
    requires "obj_" + rest !in ObjToSprite
    requires !Contains(Lower("obj_" + rest), "solid") && !Contains(Lower("obj_" + rest), "marker")
    ensures SpriteNameFor("obj_" + rest) == Some("spr_" + ObjToSprPrefix(rest))
  {
    ReplaceLeading("obj_", rest, "spr_");
  }

  lemma SolidNoSprite()
    ensures Contains(Lower("obj_solidtall"), "solid")
  {
    KeywordInTag("obj_", "solid", "tall");
    assert "obj_" + "solid" + "tall" == "obj_solidtall";
  }

  /** The table wins over the fallback: both doors show door A, and the character faces down. */
  lemma SpriteTableOverrides()
    ensures SpriteNameFor("obj_doorB") == Some("spr_doorA")
    ensures SpriteNameFor("obj_mainchara") == Some("spr_maincharad")
    ensures SpriteNameFor("obj_solidtall") == None
  {
    SolidCollidable();
    SolidNoSprite();
  }

  // ---------------------------------------------------------------------------
  // Game objects
  // ---------------------------------------------------------------------------

  /** An `InteractiveGameObject`: its fields are only assigned while it is built. */
  datatype GameObject = GameObject(
    x: int,
    y: int,
    tag: string,
    instanceId: int,
    scaleX: real,
    scaleY: real,
    rotation: real,
    surface: Option<Image>,
    visible: bool,
    collidable: bool,
    interactable: bool,
    behavior: Option<Behavior>,
    rect: Rect)

  const DefaultObjectSize := 20

  /** The collision rectangle: the sprite's size at the object's position, or 20x20 without a sprite. */
  function RectFor(x: int, y: int, surface: Option<Image>): Rect {
    if surface.Some? then Rect(x, y, surface.value.width, surface.value.height)
    else Rect(x, y, DefaultObjectSize, DefaultObjectSize)
  }

  function TagOf(rec: ObjRecord): string {
    rec.obj.GetOr("")
  }

  /** The object built from a record, once its sprite lookup has produced `surface`. */
  function ObjectFrom(rec: ObjRecord, surface: Option<Image>): GameObject {
    var pos := rec.pos.GetOr(PosRecord(None, None));
    var scale := rec.scale.GetOr(ScaleRecord(None, None));
    var x := pos.x.GetOr(0);
    var y := pos.y.GetOr(0);
    var tag := TagOf(rec);
    GameObject(
      x, y, tag, rec.instanceid.GetOr(0), scale.x.GetOr(1.0), scale.y.GetOr(1.0), rec.rotation.GetOr(0.0),
      surface, true, IsCollidable(tag), IsInteractable(tag), BehaviorFor(tag), RectFor(x, y, surface))
  }

  /** The fields of an object agree with its tag and sprite as the constructor derives them. */
  predicate Consistent(o: GameObject) {
    && o.collidable == IsCollidable(o.tag)
    && o.interactable == IsInteractable(o.tag)
    && o.behavior == BehaviorFor(o.tag)
    && o.rect == RectFor(o.x, o.y, o.surface)
  }

  /** Missing fields default to position 0, tag "", id 0, scale 1.0 and rotation 0.0; the object starts visible. */
  lemma ObjectDefaults(surface: Option<Image>)
    ensures var o := ObjectFrom(ObjRecord(None, None, None, None, None), surface);
      && o.x == 0 && o.y == 0 && o.tag == "" && o.instanceId == 0
      && o.scaleX == 1.0 && o.scaleY == 1.0 && o.rotation == 0.0
      && o.visible && !o.collidable && !o.interactable && o.behavior == None
  {
    var o := ObjectFrom(ObjRecord(None, None, None, None, None), surface);
    MissingCharNotContained(Lower(""), "solid", 's');
    MissingCharNotContained(Lower(""), "wall", 'w');
    MissingCharNotContained(Lower(""), "block", 'b');
    MissingCharNotContained(Lower(""), "collision", 'c');
    MissingCharNotContained(Lower(""), "save", 's');
    MissingCharNotContained(Lower(""), "door", 'd');
    MissingCharNotContained(Lower(""), "sign", 's');
    MissingCharNotContained(Lower(""), "npc", 'n');
    MissingCharNotContained(Lower(""), "item", 'i');
    MissingCharNotContained(Lower(""), "chest", 'c');
  }

  /** A built object is consistent, stands where its record says, and its rectangle has the sprite's size or 20x20. */
  lemma ObjectFromConsistent(rec: ObjRecord, surface: Option<Image>)
    ensures Consistent(ObjectFrom(rec, surface))
    ensures var o := ObjectFrom(rec, surface);
      && o.rect.x == o.x && o.rect.y == o.y
      && (surface.Some? ==> o.rect.width == surface.value.width && o.rect.height == surface.value.height)
      && (surface.None? ==> o.rect.width == 20 && o.rect.height == 20)
  {
  }

  /** `_load_sprite` on the sprite cache: the surface (if any) and the cache afterwards. */
  function SpriteLoad(cache: map<string, Image>, files: AssetFiles, tag: string): (Option<Image>, map<string, Image>) {
    match SpriteNameFor(tag)
    case None => (None, cache)
    case Some(name) => SpriteStep(cache, files, SpriteKey(name, 0))
  }

  /** What `_load_sprite` finds when the cache agrees with the files. */
  function SpriteOf(files: AssetFiles, tag: string): Option<Image> {
    match SpriteNameFor(tag)
    case None => None
    case Some(name) => SpriteFromFiles(files, SpriteKey(name, 0))
  }

  /** With a faithful cache, loading an object's sprite finds what the files hold and keeps the cache faithful. */
  lemma SpriteLoadAgrees(cache: map<string, Image>, files: AssetFiles, tag: string)
    requires SpriteCacheAgrees(cache, files)
    ensures SpriteLoad(cache, files, tag).0 == SpriteOf(files, tag)
    ensures SpriteCacheAgrees(SpriteLoad(cache, files, tag).1, files)
  {
    if SpriteNameFor(tag).Some? {
      SpriteStepAgrees(cache, files, SpriteKey(SpriteNameFor(tag).value, 0));
    }
  }

  /** `InteractiveGameObject(obj_data, asset_manager)`. */
  method NewGameObject(rec: ObjRecord, am: AssetManager, files: AssetFiles) returns (o: GameObject)
    modifies am`spriteCache
    ensures (o.surface, am.spriteCache) == SpriteLoad(old(am.spriteCache), files, TagOf(rec))
    ensures o == ObjectFrom(rec, o.surface)
  {
    var pos := rec.pos.GetOr(PosRecord(None, None));
    var scale := rec.scale.GetOr(ScaleRecord(None, None));
    var x := pos.x.GetOr(0);
    var y := pos.y.GetOr(0);
    var tag := TagOf(rec);
    var surface: Option<Image> := None;
    var spriteName := SpriteNameFor(tag);
    if spriteName.Some? {
      surface := am.LoadSprite(spriteName.value, 0, files);
    }
    o := GameObject(
      x, y, tag, rec.instanceid.GetOr(0), scale.x.GetOr(1.0), scale.y.GetOr(1.0), rec.rotation.GetOr(0.0),
      surface, true, IsCollidable(tag), IsInteractable(tag), BehaviorFor(tag), RectFor(x, y, surface));
  }

  /** `check_collision(rect)`. */
  predicate Collides(o: GameObject, r: Rect) {
    o.collidable && Overlap(o.rect, r)
  }

  /** Only objects whose tag names a blocking keyword ever collide, and those do wherever they overlap. */
  lemma CollisionNeedsCollidableTag(o: GameObject, r: Rect)
    requires Consistent(o)
    ensures Collides(o, r) <==> IsCollidable(o.tag) && Overlap(o.rect, r)
  {
  }

  /** A save point never blocks, wherever it stands. */
  lemma SavePointNeverBlocks(rec: ObjRecord, surface: Option<Image>, r: Rect)
    requires rec.obj == Some("obj_savepoint")
    ensures !Collides(ObjectFrom(rec, surface), r)
  {
    SavePointClasses();
  }

  /** What `draw` blits: the surface at the position minus the camera offset, scaled when a factor is not 1.0. */
  datatype ObjectBlit = ObjectBlit(image: Image, x: int, y: int, scale: Option<(real, real)>)

  /**
   * What `draw` does with one object: nothing, one blit, or the `ValueError`
   * that `pygame.transform.scale` raises when the scaled width or height is
   * negative.
   */
  datatype DrawOutcome = Skipped | Blitted(blit: ObjectBlit) | NegativeSize(w: int, h: int)

  /** Python's `int()` on a float: truncation toward zero. */
  function Trunc(r: real): (n: int)
    ensures 0.0 <= r ==> n as real <= r < n as real + 1.0
    ensures r < 0.0 ==> n as real - 1.0 < r <= n as real
  {
    if r >= 0.0 then r.Floor else -((-r).Floor)
  }

  /** `int(length * factor)`: the length `draw` asks `pygame.transform.scale` for. */
  function ScaledLength(length: nat, factor: real): int {
    Trunc(length as real * factor)
  }

  /** A scaled length is negative exactly when the product is -1.0 or less. */
  lemma ScaledLengthNegative(length: nat, factor: real)
    ensures ScaledLength(length, factor) < 0 <==> length as real * factor <= -1.0
  {
  }

  /** `draw` scales the sprite, and one of the requested lengths is negative. */
  predicate ScalingFails(o: GameObject)
    requires o.surface.Some?
  {
    && (o.scaleX != 1.0 || o.scaleY != 1.0)
    && (ScaledLength(o.surface.value.width, o.scaleX) < 0 || ScaledLength(o.surface.value.height, o.scaleY) < 0)
  }

  function DrawObject(o: GameObject, offsetX: int, offsetY: int): (d: DrawOutcome)
    ensures d.Skipped? <==> !o.visible || o.surface.None?
    ensures d.NegativeSize? <==> o.visible && o.surface.Some? && ScalingFails(o)
    ensures d.NegativeSize? ==> d.w == ScaledLength(o.surface.value.width, o.scaleX) && d.h == ScaledLength(o.surface.value.height, o.scaleY)
    ensures d.Blitted? ==> d.blit.image == o.surface.value && d.blit.x + offsetX == o.x && d.blit.y + offsetY == o.y
    ensures d.Blitted? ==> (d.blit.scale.None? <==> o.scaleX == 1.0 && o.scaleY == 1.0)
  {
    if !o.visible || o.surface.None? then Skipped
    else if ScalingFails(o) then NegativeSize(ScaledLength(o.surface.value.width, o.scaleX), ScaledLength(o.surface.value.height, o.scaleY))
    else if o.scaleX != 1.0 || o.scaleY != 1.0 then Blitted(ObjectBlit(o.surface.value, o.x - offsetX, o.y - offsetY, Some((o.scaleX, o.scaleY))))
    else Blitted(ObjectBlit(o.surface.value, o.x - offsetX, o.y - offsetY, None))
  }

  /** Drawing a visible object with a sprite raises exactly when a factor is not 1.0 and a scaled product is -1.0 or less. */
  lemma DrawRaisesIff(o: GameObject, offsetX: int, offsetY: int)
    ensures DrawObject(o, offsetX, offsetY).NegativeSize? <==>
      && o.visible && o.surface.Some? && (o.scaleX != 1.0 || o.scaleY != 1.0)
      && (o.surface.value.width as real * o.scaleX <= -1.0 || o.surface.value.height as real * o.scaleY <= -1.0)
  {
    if o.surface.Some? {
      ScaledLengthNegative(o.surface.value.width, o.scaleX);
      ScaledLengthNegative(o.surface.value.height, o.scaleY);
    }
  }

  /** A mirrored 20x20 sprite (`scale.x == -1.0`) cannot be drawn: `draw` raises. */
  lemma MirroredObjectRaises(o: GameObject)
    requires o.visible && o.surface.Some? && o.surface.value.width == 20 && o.scaleX == -1.0
    ensures DrawObject(o, 0, 0) == NegativeSize(-20, ScaledLength(o.surface.value.height, o.scaleY))
  {
    ScaledLengthNegative(20, -1.0);
  }

  // ---------------------------------------------------------------------------
  // Interaction
  // ---------------------------------------------------------------------------

  /** A save point opens its popup only when nobody holds the lock, and releases the lock afterwards. */
  function SavePointEffect(s: Shared): Shared {
    if s.eventLock then s else s.(savesOpened := s.savesOpened + 1)
  }

  /** A door sends the player to its target room when it names one that exists. */
  function DoorEffect(s: Shared, targetRoom: string, knownRooms: set<string>): Shared {
    if |targetRoom| > 0 && targetRoom in knownRooms then s.(roomRequests := s.roomRequests + [targetRoom]) else s
  }

  /** `interact`: the object's behaviour, once, or nothing without one. */
  function InteractEffect(s: Shared, o: GameObject, knownRooms: set<string>): Shared {
    match o.behavior
    case None => s
    case Some(SavePoint) => SavePointEffect(s)
    case Some(Door(target, _)) => DoorEffect(s, target, knownRooms)
  }

  /** Every requested room is a non-empty name of an existing room. */
  predicate RequestsKnown(s: Shared, knownRooms: set<string>) {
    forall i :: 0 <= i < |s.roomRequests| ==> |s.roomRequests[i]| > 0 && s.roomRequests[i] in knownRooms
  }

  /**
   * An interaction leaves the lock as it found it, never quits, opens at most
   * one popup, requests at most one room, and only existing ones.
   */
  lemma InteractEffectBounds(s: Shared, o: GameObject, knownRooms: set<string>)
    ensures var t := InteractEffect(s, o, knownRooms);
      && t.eventLock == s.eventLock
      && t.quitCalls == s.quitCalls
      && (t.savesOpened == s.savesOpened || (t.savesOpened == s.savesOpened + 1 && !s.eventLock))
      && (t.roomRequests == s.roomRequests || (|t.roomRequests| == |s.roomRequests| + 1 && t.roomRequests[..|s.roomRequests|] == s.roomRequests))
      && (RequestsKnown(s, knownRooms) ==> RequestsKnown(t, knownRooms))
  {
    var t := InteractEffect(s, o, knownRooms);
    if t.roomRequests != s.roomRequests {
      assert t.roomRequests[..|s.roomRequests|] == s.roomRequests;
    }
  }

  /** Without a behaviour, interacting changes nothing; with the lock held, only a door has an effect. */
  lemma InteractNoOps(s: Shared, o: GameObject, knownRooms: set<string>)
    ensures o.behavior.None? ==> InteractEffect(s, o, knownRooms) == s
    ensures s.eventLock && o.behavior == Some(SavePoint) ==> InteractEffect(s, o, knownRooms) == s
  {
  }

  /** `SavePointBehavior.on_interact`: `popupPresses` is how many inputs the popup takes to finish. */
  method SavePointInteract(g: Globals, popupPresses: nat)
    modifies g
    ensures g.State() == SavePointEffect(old(g.State()))
  {
    if !g.eventLock {
      g.eventLock := true;
      g.savesOpened := g.savesOpened + 1;
      var remaining := popupPresses;
      while remaining > 0
        invariant g.eventLock
        invariant g.State() == old(g.State()).(eventLock := true, savesOpened := old(g.savesOpened) + 1)
      {
        remaining := remaining - 1;
      }
      g.eventLock := false;
    }
  }

  /** `DoorBehavior.on_interact`; `knownRooms` are the names `rooms.get_room` resolves. */
  method DoorInteract(targetRoom: string, g: Globals, knownRooms: set<string>)
    modifies g
    ensures g.State() == DoorEffect(old(g.State()), targetRoom, knownRooms)
  {
    if |targetRoom| > 0 {
      if targetRoom in knownRooms {
        g.roomRequests := g.roomRequests + [targetRoom];
      }
    }
  }

  /** `InteractiveGameObject.interact`. */
  method Interact(o: GameObject, g: Globals, popupPresses: nat, knownRooms: set<string>)
    modifies g
    ensures g.State() == InteractEffect(old(g.State()), o, knownRooms)
  {
    match o.behavior
    case None =>
    case Some(SavePoint) => SavePointInteract(g, popupPresses);
    case Some(Door(target, _)) => DoorInteract(target, g, knownRooms);
  }
}
