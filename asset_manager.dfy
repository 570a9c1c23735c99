/**
 * The asset cache: an append-only memo of sprite frames (keyed
 * `"{name}_{frame}"`), of background images (keyed by name) and of sprite
 * metadata. On a miss it probes a fixed, ordered list of candidate files and
 * the first one that decodes wins; a file that is missing or does not decode
 * is a miss and never an error.
 *
 * The file system is a value handed to each call (`AssetFiles`): three
 * directories, each mapping a file name to what `pygame.image.load` or
 * `json.load` makes of it. Pixels are not modelled; an image is its size and
 * an opaque identity.
 */
module AssetManagement {
  import opened Wrappers
  import opened Text
  import opened RoomLoading

  // ---------------------------------------------------------------------------
  // Images and files
  // ---------------------------------------------------------------------------

  datatype Rgb = Rgb(r: int, g: int, b: int)

  /**
   * A surface: one decoded from a file (identified by `pixels`), a solid fill,
   * or what `pygame.transform.scale` makes of another surface.
   */
  datatype Image =
    | Decoded(width: nat, height: nat, pixels: nat)
    | Filled(width: nat, height: nat, color: Rgb)
    | Scaled(width: nat, height: nat, original: Image)

  /** What `pygame.image.load` makes of an existing file. */
  datatype ImageFile = Decodable(image: Image) | Undecodable

  /** An entry of the texture-page directory, in `os.listdir` order. */
  datatype TexpageEntry = TexpageEntry(name: string, file: ImageFile)

  /** A sprite metadata file: `{name, width, height, frames, bbox}`, every field optional. */
  datatype SpriteRecord = SpriteRecord(
    name: Option<string>,
    width: Option<int>,
    height: Option<int>,
    frames: Option<seq<Raw>>,
    bbox: Option<map<string, Raw>>)

  /** What opening and decoding a sprite metadata file yields. */
  datatype SpriteFile = SpriteJson(record: SpriteRecord) | BadSpriteJson

  /** The asset directories under the base path. */
  datatype AssetFiles = AssetFiles(
    sprites: map<string, ImageFile>,        // sprites/: file name to content
    texpage: Option<seq<TexpageEntry>>,     // decompilation/texpage/, None when it does not exist
    spriteJson: map<string, SpriteFile>)    // decompilation/sprite/: file name to content

  // ---------------------------------------------------------------------------
  // Sprite metadata
  // ---------------------------------------------------------------------------

  datatype SpriteData = SpriteData(name: string, width: int, height: int, frames: seq<Raw>, bbox: map<string, Raw>)

  /** `SpriteData(sprite_json)`: every field read with `dict.get` and its default. */
  function NewSpriteData(j: SpriteRecord): SpriteData {
    SpriteData(j.name.GetOr(""), j.width.GetOr(0), j.height.GetOr(0), j.frames.GetOr([]), j.bbox.GetOr(map[]))
  }

  /** Missing fields default to name "", size 0x0, no frames and an empty bbox; present ones are kept. */
  lemma SpriteDataDefaults(j: SpriteRecord)
    ensures var d := NewSpriteData(j);
      && d.name == (if j.name.Some? then j.name.value else "")
      && d.width == (if j.width.Some? then j.width.value else 0)
      && d.height == (if j.height.Some? then j.height.value else 0)
      && d.frames == (if j.frames.Some? then j.frames.value else [])
      && d.bbox == (if j.bbox.Some? then j.bbox.value else map[])
  {
  }

  /** Reading `decompilation/sprite/<name>.json`, `None` when it is missing or does not parse. */
  function MetadataFromFiles(files: AssetFiles, spriteName: string): Option<SpriteData> {
    var fileName := spriteName + ".json";
    if fileName in files.spriteJson && files.spriteJson[fileName].SpriteJson? then
      Some(NewSpriteData(files.spriteJson[fileName].record))
    else
      None
  }

  /** `load_sprite_metadata` on a cache: memoises successes only; the cache only grows. */
  function MetadataStep(cache: map<string, SpriteData>, files: AssetFiles, spriteName: string): (step: (Option<SpriteData>, map<string, SpriteData>))
    ensures cache.Keys <= step.1.Keys <= cache.Keys + {spriteName}
    ensures forall k :: k in cache ==> step.1[k] == cache[k]
    ensures step.0.Some? <==> spriteName in step.1
    ensures step.0.Some? ==> step.1[spriteName] == step.0.value
    ensures spriteName !in cache ==> step.0 == MetadataFromFiles(files, spriteName)
  {
    if spriteName in cache then (Some(cache[spriteName]), cache)
    else
      var r := MetadataFromFiles(files, spriteName);
      (r, if r.Some? then cache[spriteName := r.value] else cache)
  }

  // ---------------------------------------------------------------------------
  // Sprites
  // ---------------------------------------------------------------------------

  /** `f"{sprite_name}_{frame}"`: the cache key, and the stem of the file name. */
  function SpriteKey(spriteName: string, frame: int): string {
    spriteName + "_" + IntToString(frame)
  }

  /** Splits a string at its last `'_'`: the part before it and the part after it. */
  function SplitAtLastUnderscore(k: string): (string, string) {
    if |k| == 0 then ("", "")
    else if k[|k| - 1] == '_' then (k[..|k| - 1], "")
    else
      var (before, after) := SplitAtLastUnderscore(k[..|k| - 1]);
      (before, after + [k[|k| - 1]])
  }

  lemma {:induction false} SplitAfterUnderscore(before: string, after: string)
    requires '_' !in after
    ensures SplitAtLastUnderscore(before + "_" + after) == (before, after)
  {
    var k := before + "_" + after;
    if |after| == 0 {
      assert k[..|k| - 1] == before;
    } else {
      var init := after[..|after| - 1];
      assert k[..|k| - 1] == before + "_" + init;
      assert '_' !in init;
      SplitAfterUnderscore(before, init);
      assert init + [after[|after| - 1]] == after;
    }
  }

  /**
   * Different (name, frame) pairs never share a cache key: a numeral holds no
   * `'_'`, so the key's last `'_'` separates the name from the frame.
   */
  lemma SpriteKeyInjective(name1: string, frame1: int, name2: string, frame2: int)
    requires SpriteKey(name1, frame1) == SpriteKey(name2, frame2)
    ensures name1 == name2 && frame1 == frame2
  {
    IntToStringNoUnderscore(frame1);
    IntToStringNoUnderscore(frame2);
    SplitAfterUnderscore(name1, IntToString(frame1));
    SplitAfterUnderscore(name2, IntToString(frame2));
    IntToStringInjective(frame1, frame2);
  }

  /** Loading `sprites/<key>.png`: `None` when it is missing or does not decode. */
  function SpriteFromFiles(files: AssetFiles, key: string): Option<Image> {
    var fileName := key + ".png";
    if fileName in files.sprites && files.sprites[fileName].Decodable? then Some(files.sprites[fileName].image) else None
  }

  /** `load_sprite` on a cache: memoises successes only; the cache only grows. */
  function SpriteStep(cache: map<string, Image>, files: AssetFiles, key: string): (step: (Option<Image>, map<string, Image>))
    ensures cache.Keys <= step.1.Keys <= cache.Keys + {key}
    ensures forall k :: k in cache ==> step.1[k] == cache[k]
    ensures step.0.Some? <==> key in step.1
    ensures step.0.Some? ==> step.1[key] == step.0.value
    ensures key !in cache ==> step.0 == SpriteFromFiles(files, key)
  {
    if key in cache then (Some(cache[key]), cache)
    else
      var r := SpriteFromFiles(files, key);
      (r, if r.Some? then cache[key := r.value] else cache)
  }

  /** On a hit the files are not consulted: the outcome is the same whatever they hold. */
  lemma SpriteHitIgnoresFiles(cache: map<string, Image>, files: AssetFiles, other: AssetFiles, key: string)
    requires key in cache
    ensures SpriteStep(cache, files, key) == SpriteStep(cache, other, key) == (Some(cache[key]), cache)
  {
  }

  /** Every cached frame is what its file decodes to now: the files have not changed since. */
  ghost predicate SpriteCacheAgrees(cache: map<string, Image>, files: AssetFiles) {
    forall k :: k in cache ==> SpriteFromFiles(files, k) == Some(cache[k])
  }

  /** With unchanged files, the memo is invisible: a load returns what the files hold, and the cache stays faithful. */
  lemma SpriteStepAgrees(cache: map<string, Image>, files: AssetFiles, key: string)
    requires SpriteCacheAgrees(cache, files)
    ensures SpriteStep(cache, files, key).0 == SpriteFromFiles(files, key)
    ensures SpriteCacheAgrees(SpriteStep(cache, files, key).1, files)
  {
  }

  // ---------------------------------------------------------------------------
  // Backgrounds
  // ---------------------------------------------------------------------------

  /** The files of `sprites/` with the given names that exist, in the given order. */
  function PatternFiles(files: AssetFiles, patterns: seq<string>): seq<ImageFile> {
    if |patterns| == 0 then []
    else (if patterns[0] in files.sprites then [files.sprites[patterns[0]]] else []) + PatternFiles(files, patterns[1..])
  }

  /** The texture-page files whose lower-cased name contains the lower-cased background name, in listing order. */
  function TexpageMatches(entries: seq<TexpageEntry>, bgName: string): seq<ImageFile> {
    if |entries| == 0 then []
    else (if Contains(Lower(entries[0].name), Lower(bgName)) then [entries[0].file] else []) + TexpageMatches(entries[1..], bgName)
  }

  /** The two file names tried in `sprites/`, in order. */
  function BackgroundPatterns(bgName: string): seq<string> {
    [bgName + ".png", bgName + "_0.png"]
  }

  /**
   * Every file `load_background` tries on a miss, in order: `<name>.png`, then
   * `<name>_0.png` in `sprites/`, then the matching texture-page files.
   */
  function BackgroundCandidates(files: AssetFiles, bgName: string): seq<ImageFile> {
    PatternFiles(files, BackgroundPatterns(bgName)) + TexpageCandidates(files, bgName)
  }

  predicate AllUndecodable(candidates: seq<ImageFile>) {
    forall i :: 0 <= i < |candidates| ==> candidates[i].Undecodable?
  }

  /** The image of the first candidate that decodes. */
  function FirstDecodable(candidates: seq<ImageFile>): (r: Option<Image>)
    ensures r.None? <==> AllUndecodable(candidates)
    ensures r.Some? ==> exists i :: 0 <= i < |candidates| && candidates[i] == Decodable(r.value) && AllUndecodable(candidates[..i])
  {
    if |candidates| == 0 then None
    else if candidates[0].Decodable? then
      assert AllUndecodable(candidates[..0]);
      Some(candidates[0].image)
    else
      var r := FirstDecodable(candidates[1..]);
      if r.Some? then
        var i :| 0 <= i < |candidates[1..]| && candidates[1..][i] == Decodable(r.value) && AllUndecodable(candidates[1..][..i]);
        assert candidates[..i + 1] == [candidates[0]] + candidates[1..][..i];
        r
      else
        r
  }

  /** Candidates that all failed are skipped. */
  lemma {:induction false} FirstDecodableSkips(failed: seq<ImageFile>, rest: seq<ImageFile>)
    requires AllUndecodable(failed)
    ensures FirstDecodable(failed + rest) == FirstDecodable(rest)
  {
    if |failed| > 0 {
      var tail := failed[1..] + rest;
      assert failed[0].Undecodable?;
      assert failed + rest == [failed[0]] + tail;
      FirstDecodableCons(failed[0], tail);
      assert FirstDecodable(failed + rest) == FirstDecodable(tail);
      assert AllUndecodable(failed[1..]) by {
        forall i | 0 <= i < |failed[1..]|
          ensures failed[1..][i].Undecodable?
        {
          assert failed[1..][i] == failed[i + 1];
        }
      }
      FirstDecodableSkips(failed[1..], rest);
    } else {
      assert failed + rest == rest;
    }
  }

  /** The background `load_background` finds on a miss. */
  function BackgroundFromFiles(files: AssetFiles, bgName: string): Option<Image> {
    FirstDecodable(BackgroundCandidates(files, bgName))
  }

  /** A decodable `sprites/<name>.png` wins over everything else. */
  lemma ExactPngWins(files: AssetFiles, bgName: string)
    requires bgName + ".png" in files.sprites && files.sprites[bgName + ".png"].Decodable?
    ensures BackgroundFromFiles(files, bgName) == Some(files.sprites[bgName + ".png"].image)
  {
    var patterns := BackgroundPatterns(bgName);
    var rest := PatternFiles(files, patterns[1..]);
    assert PatternFiles(files, patterns) == [files.sprites[bgName + ".png"]] + rest;
    assert BackgroundCandidates(files, bgName) == [files.sprites[bgName + ".png"]] + (rest + TexpageCandidates(files, bgName));
    FirstDecodableCons(files.sprites[bgName + ".png"], rest + TexpageCandidates(files, bgName));
  }

  /** Without a decodable `sprites/` candidate, the first decodable matching texture page wins. */
  lemma TexpageFallback(files: AssetFiles, bgName: string)
    requires AllUndecodable(PatternFiles(files, BackgroundPatterns(bgName)))
    requires files.texpage.Some?
    ensures BackgroundFromFiles(files, bgName) == FirstDecodable(TexpageMatches(files.texpage.value, bgName))
  {
    FirstDecodableSkips(PatternFiles(files, BackgroundPatterns(bgName)), TexpageMatches(files.texpage.value, bgName));
  }

  /** `load_background` on a cache keyed by name alone: memoises successes only; the cache only grows. */
  function BackgroundStep(cache: map<string, Image>, files: AssetFiles, bgName: string): (step: (Option<Image>, map<string, Image>))
    ensures cache.Keys <= step.1.Keys <= cache.Keys + {bgName}
    ensures forall k :: k in cache ==> step.1[k] == cache[k]
    ensures step.0.Some? <==> bgName in step.1
    ensures step.0.Some? ==> step.1[bgName] == step.0.value
    ensures bgName !in cache ==> step.0 == BackgroundFromFiles(files, bgName)
  {
    if bgName in cache then (Some(cache[bgName]), cache)
    else
      var r := BackgroundFromFiles(files, bgName);
      (r, if r.Some? then cache[bgName := r.value] else cache)
  }

  /** On a hit the files are not consulted. */
  lemma BackgroundHitIgnoresFiles(cache: map<string, Image>, files: AssetFiles, other: AssetFiles, bgName: string)
    requires bgName in cache
    ensures BackgroundStep(cache, files, bgName) == BackgroundStep(cache, other, bgName) == (Some(cache[bgName]), cache)
  {
  }

  ghost predicate BackgroundCacheAgrees(cache: map<string, Image>, files: AssetFiles) {
    forall k :: k in cache ==> BackgroundFromFiles(files, k) == Some(cache[k])
  }

  lemma BackgroundStepAgrees(cache: map<string, Image>, files: AssetFiles, bgName: string)
    requires BackgroundCacheAgrees(cache, files)
    ensures BackgroundStep(cache, files, bgName).0 == BackgroundFromFiles(files, bgName)
    ensures BackgroundCacheAgrees(BackgroundStep(cache, files, bgName).1, files)
  {
  }

  // ---------------------------------------------------------------------------
  // Placeholders
  // ---------------------------------------------------------------------------

  const PlaceholderColor := Rgb(128, 0, 128)

  /** `create_placeholder_surface`: a `width` x `height` surface filled with `color` (purple by default). */
  function PlaceholderSurface(width: nat, height: nat, color: Rgb := PlaceholderColor): (s: Image)
    ensures s.width == width && s.height == height
    ensures s.Filled? && s.color == color
  {
    Filled(width, height, color)
  }

  /** Without a colour argument, the placeholder is purple, (128, 0, 128). */
  lemma PlaceholderIsPurple(width: nat, height: nat)
    ensures PlaceholderSurface(width, height) == Filled(width, height, Rgb(128, 0, 128))
  {
  }

  // ---------------------------------------------------------------------------
  // AssetManager and the module-level instance
  // ---------------------------------------------------------------------------

  class AssetManager {
    var spriteCache: map<string, Image>
    var backgroundCache: map<string, Image>
    var spriteMetadata: map<string, SpriteData>

    constructor ()
      ensures spriteCache == map[] && backgroundCache == map[] && spriteMetadata == map[]
    {
      spriteCache := map[];
      backgroundCache := map[];
      spriteMetadata := map[];
    }

    /** `load_sprite_metadata`. */
    method LoadSpriteMetadata(spriteName: string, files: AssetFiles) returns (r: Option<SpriteData>)
      modifies this`spriteMetadata
      ensures (r, spriteMetadata) == MetadataStep(old(spriteMetadata), files, spriteName)
    {
      if spriteName in spriteMetadata {
        return Some(spriteMetadata[spriteName]);
      }
      var fileName := spriteName + ".json";
      if fileName in files.spriteJson {
        match files.spriteJson[fileName]
        case SpriteJson(record) =>
          var data := NewSpriteData(record);
          spriteMetadata := spriteMetadata[spriteName := data];
          return Some(data);
        case BadSpriteJson =>
      }
      return None;
    }

    /** `load_sprite(sprite_name, frame)`. */
    method LoadSprite(spriteName: string, frame: int, files: AssetFiles) returns (r: Option<Image>)
      modifies this`spriteCache
      ensures (r, spriteCache) == SpriteStep(old(spriteCache), files, SpriteKey(spriteName, frame))
    {
      var key := SpriteKey(spriteName, frame);
      if key in spriteCache {
        return Some(spriteCache[key]);
      }
      var fileName := key + ".png";
      if fileName in files.sprites {
        match files.sprites[fileName]
        case Decodable(image) =>
          spriteCache := spriteCache[key := image];
          return Some(image);
        case Undecodable =>
      }
      return None;
    }

    /** `load_background(bg_name)`: the two `sprites/` patterns, then the texture pages. */
    method LoadBackground(bgName: string, files: AssetFiles) returns (r: Option<Image>)
      modifies this`backgroundCache
      ensures (r, backgroundCache) == BackgroundStep(old(backgroundCache), files, bgName)
    {
      if bgName in backgroundCache {
        return Some(backgroundCache[bgName]);
      }
      var patterns := BackgroundPatterns(bgName);
      var i := 0;
      assert patterns[i..] == patterns;
      while i < |patterns|
        invariant 0 <= i <= |patterns|
        invariant BackgroundFromFiles(files, bgName) == FirstDecodable(PatternFiles(files, patterns[i..]) + TexpageCandidates(files, bgName))
        invariant backgroundCache == old(backgroundCache)
      {
        PatternStep(files, patterns, i, TexpageCandidates(files, bgName));
        if patterns[i] in files.sprites {
          match files.sprites[patterns[i]]
          case Decodable(image) =>
            backgroundCache := backgroundCache[bgName := image];
            return Some(image);
          case Undecodable =>
        }
        i := i + 1;
      }
      assert patterns[i..] == [];
      assert PatternFiles(files, patterns[i..]) + TexpageCandidates(files, bgName) == TexpageCandidates(files, bgName);
      assert BackgroundFromFiles(files, bgName) == FirstDecodable(TexpageCandidates(files, bgName));
      if files.texpage.Some? {
        r := ScanTexpage(files.texpage.value, bgName);
        if r.Some? {
          backgroundCache := backgroundCache[bgName := r.value];
        }
        return;
      }
      return None;
    }
  }

  /** The texture-page part of `load_background`: the first matching page that decodes, in listing order. */
  method ScanTexpage(entries: seq<TexpageEntry>, bgName: string) returns (r: Option<Image>)
    ensures r == FirstDecodable(TexpageMatches(entries, bgName))
  {
    var j := 0;
    while j < |entries|
      invariant 0 <= j <= |entries|
      invariant FirstDecodable(TexpageMatches(entries, bgName)) == FirstDecodable(TexpageMatches(entries[j..], bgName))
    {
      var entry := entries[j];
      TexpageMatchesUnfold(entries, j, bgName);
      if Contains(Lower(entry.name), Lower(bgName)) {
        FirstDecodableCons(entry.file, TexpageMatches(entries[j + 1..], bgName));
        if entry.file.Decodable? {
          return Some(entry.file.image);
        }
      }
      j := j + 1;
    }
    assert entries[j..] == [];
    return None;
  }

  /** The texture-page part of the candidates. */
  function TexpageCandidates(files: AssetFiles, bgName: string): seq<ImageFile> {
    if files.texpage.Some? then TexpageMatches(files.texpage.value, bgName) else []
  }

  lemma TexpageMatchesUnfold(entries: seq<TexpageEntry>, j: nat, bgName: string)
    requires j < |entries|
    ensures Contains(Lower(entries[j].name), Lower(bgName)) ==> TexpageMatches(entries[j..], bgName) == [entries[j].file] + TexpageMatches(entries[j + 1..], bgName)
    ensures !Contains(Lower(entries[j].name), Lower(bgName)) ==> TexpageMatches(entries[j..], bgName) == TexpageMatches(entries[j + 1..], bgName)
  {
    assert entries[j..][1..] == entries[j + 1..];
  }

  /** One step of the `sprites/` scan: a decodable file ends it, anything else moves on. */
  lemma PatternStep(files: AssetFiles, patterns: seq<string>, i: nat, tail: seq<ImageFile>)
    requires i < |patterns|
    ensures FirstDecodable(PatternFiles(files, patterns[i..]) + tail) ==
      if patterns[i] in files.sprites && files.sprites[patterns[i]].Decodable? then Some(files.sprites[patterns[i]].image)
      else FirstDecodable(PatternFiles(files, patterns[i + 1..]) + tail)
  {
    assert patterns[i..][1..] == patterns[i + 1..];
    var rest := PatternFiles(files, patterns[i + 1..]) + tail;
    if patterns[i] in files.sprites {
      assert PatternFiles(files, patterns[i..]) + tail == [files.sprites[patterns[i]]] + rest;
      FirstDecodableCons(files.sprites[patterns[i]], rest);
    } else {
      assert PatternFiles(files, patterns[i..]) + tail == rest;
    }
  }

  lemma FirstDecodableCons(c: ImageFile, rest: seq<ImageFile>)
    ensures FirstDecodable([c] + rest) == if c.Decodable? then Some(c.image) else FirstDecodable(rest)
  {
    assert ([c] + rest)[1..] == rest;
  }

  /** The module-level `_asset_manager` behind `get_asset_manager()`. */
  class AssetManagerSlot {
    var instance: AssetManager?

    constructor ()
      ensures instance == null
    {
      instance := null;
    }

    /** Creates the manager on the first call and returns that same manager on every later one. */
    method GetAssetManager() returns (manager: AssetManager)
      modifies this
      ensures old(instance) != null ==> manager == old(instance)
      ensures old(instance) == null ==> fresh(manager)
      ensures old(instance) == null ==> manager.spriteCache == map[] && manager.backgroundCache == map[] && manager.spriteMetadata == map[]
      ensures instance == manager
    {
      if instance == null {
        instance := new AssetManager();
      }
      manager := instance;
    }
  }
}
