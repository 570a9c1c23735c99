/**
 * The room catalogue: one room record per `room/<name>.json` file, read into
 * a `RoomData` with documented defaults for every missing field, memoised by
 * room name, plus the sorted listing of the room directory.
 *
 * JSON decoding and the file system are not modelled: a room file is already
 * a `RoomRecord` (every field optional, as `dict.get` sees it) or unreadable.
 */
module RoomLoading {
  import opened Wrappers
  import opened Text

  // ---------------------------------------------------------------------------
  // Room records, as decoded from JSON
  // ---------------------------------------------------------------------------

  /** A JSON value that the room runtime carries along but never interprets. */
  datatype Raw = Raw(text: string)

  datatype PosRecord = PosRecord(x: Option<int>, y: Option<int>)
  datatype SizeRecord = SizeRecord(width: Option<int>, height: Option<int>)
  datatype ScaleRecord = ScaleRecord(x: Option<real>, y: Option<real>)

  /** An entry of `bgs`: `{bg, enabled}`. */
  datatype BgRecord = BgRecord(bg: Option<string>, enabled: Option<bool>)

  /** An entry of `objs`: `{pos, obj, instanceid, scale, rotation}`. */
  datatype ObjRecord = ObjRecord(
    pos: Option<PosRecord>,
    obj: Option<string>,
    instanceid: Option<int>,
    scale: Option<ScaleRecord>,
    rotation: Option<real>)

  /** An entry of `tiles`: `{bg, pos, size, sourcepos}`. */
  datatype TileRecord = TileRecord(
    bg: Option<string>,
    pos: Option<PosRecord>,
    size: Option<SizeRecord>,
    sourcepos: Option<PosRecord>)

  /** A whole room file. */
  datatype RoomRecord = RoomRecord(
    caption: Option<string>,
    size: Option<SizeRecord>,
    speed: Option<int>,
    colour: Option<string>,
    bgs: Option<seq<BgRecord>>,
    views: Option<seq<Raw>>,
    objs: Option<seq<ObjRecord>>,
    tiles: Option<seq<TileRecord>>)

  const EmptyRoomRecord := RoomRecord(None, None, None, None, None, None, None, None)

  // ---------------------------------------------------------------------------
  // RoomData: a record with its defaults filled in
  // ---------------------------------------------------------------------------

  datatype RoomData = RoomData(
    json: RoomRecord,
    caption: string,
    width: int,
    height: int,
    speed: int,
    colour: string,
    backgrounds: seq<BgRecord>,
    views: seq<Raw>,
    objects: seq<ObjRecord>,
    tiles: seq<TileRecord>)

  const DefaultWidth := 640
  const DefaultHeight := 480
  const DefaultSpeed := 30
  const DefaultColour := "#000000FF"

  /** `RoomData(room_json)`: every field read with `dict.get` and its default. */
  function NewRoomData(j: RoomRecord): RoomData {
    var size := j.size.GetOr(SizeRecord(None, None));
    RoomData(
      j,
      j.caption.GetOr(""),
      size.width.GetOr(DefaultWidth),
      size.height.GetOr(DefaultHeight),
      j.speed.GetOr(DefaultSpeed),
      j.colour.GetOr(DefaultColour),
      j.bgs.GetOr([]),
      j.views.GetOr([]),
      j.objs.GetOr([]),
      j.tiles.GetOr([]))
  }

  // ---------------------------------------------------------------------------
  // Background colour
  // ---------------------------------------------------------------------------

  /** An RGBA colour as `pygame.Color` holds it. */
  datatype Color = Color(r: int, g: int, b: int, a: int)

  /** `pygame.Color(0, 0, 0)`: opaque black, the fallback of every failed parse. */
  const Black := Color(0, 0, 0, 255)

  /** The value of one hexadecimal digit, either case. */
  function HexValue(c: char): Option<nat> {
    if '0' <= c <= '9' then Some(c as int - '0' as int)
    else if 'a' <= c <= 'f' then Some(c as int - 'a' as int + 10)
    else if 'A' <= c <= 'F' then Some(c as int - 'A' as int + 10)
    else None
  }

  /** `int(pair, 16)` on a two-character slice; `None` where Python raises. */
  function HexPair(pair: string): Option<nat>
    requires |pair| == 2
  {
    var hi, lo := HexValue(pair[0]), HexValue(pair[1]);
    if hi.Some? && lo.Some? then Some(16 * hi.value + lo.value) else None
  }

  /** `self.colour.replace("#", "")`. */
  function StripHashes(colour: string): string {
    ReplaceAll(colour, "#", "")
  }

  /** `RoomData.get_background_color` on the colour string. */
  function ParseColour(colour: string): Color {
    var h := StripHashes(colour);
    if |h| == 8 then
      var r, g, b, a := HexPair(h[0..2]), HexPair(h[2..4]), HexPair(h[4..6]), HexPair(h[6..8]);
      if r.Some? && g.Some? && b.Some? && a.Some? then Color(r.value, g.value, b.value, a.value) else Black
    else if |h| == 6 then
      var r, g, b := HexPair(h[0..2]), HexPair(h[2..4]), HexPair(h[4..6]);
      if r.Some? && g.Some? && b.Some? then Color(r.value, g.value, b.value, 255) else Black
    else
      Black
  }

  function BackgroundColor(data: RoomData): Color {
    ParseColour(data.colour)
  }

  /** A lower-case hexadecimal digit, the inverse of `HexValue`. */
  function HexDigit(n: nat): char
    requires n < 16
  {
    if n < 10 then ('0' as int + n) as char else ('a' as int + n - 10) as char
  }

  predicate IsByte(n: int) {
    0 <= n < 256
  }

  /** Two hexadecimal digits for a byte. */
  function HexByte(n: int): string
    requires IsByte(n)
  {
    [HexDigit(n / 16), HexDigit(n % 16)]
  }

  predicate IsRgba(c: Color) {
    IsByte(c.r) && IsByte(c.g) && IsByte(c.b) && IsByte(c.a)
  }

  /** The `#RRGGBBAA` spelling room files use. */
  function FormatRgba(c: Color): string
    requires IsRgba(c)
  {
    "#" + HexByte(c.r) + HexByte(c.g) + HexByte(c.b) + HexByte(c.a)
  }

  /** The `#RRGGBB` spelling. */
  function FormatRgb(r: int, g: int, b: int): string
    requires IsByte(r) && IsByte(g) && IsByte(b)
  {
    "#" + HexByte(r) + HexByte(g) + HexByte(b)
  }

  lemma HexByteRoundTrip(n: int)
    requires IsByte(n)
    ensures HexPair(HexByte(n)) == Some(n)
    ensures '#' !in HexByte(n)
  {
  }

  /** Removing the hashes of `"#" + digits`, where the digits hold no hash, leaves the digits. */
  lemma StripLeadingHash(digits: string)
    requires '#' !in digits
    ensures StripHashes("#" + digits) == digits
  {
    ReplaceLeading("#", digits, "");
    MissingCharNotContained(digits, "#", '#');
    ReplaceAbsent(digits, "#", "");
  }

  /** Eight hex digits give R, G, B and A from the four pairs, in that order. */
  lemma ColourRoundTripRgba(c: Color)
    requires IsRgba(c)
    ensures ParseColour(FormatRgba(c)) == c
  {
    var digits := HexByte(c.r) + HexByte(c.g) + HexByte(c.b) + HexByte(c.a);
    HexByteRoundTrip(c.r);
    HexByteRoundTrip(c.g);
    HexByteRoundTrip(c.b);
    HexByteRoundTrip(c.a);
    assert FormatRgba(c) == "#" + digits;
    StripLeadingHash(digits);
    assert digits[0..2] == HexByte(c.r) && digits[2..4] == HexByte(c.g);
    assert digits[4..6] == HexByte(c.b) && digits[6..8] == HexByte(c.a);
  }

  /** Six hex digits give R, G and B, with alpha 255. */
  lemma ColourRoundTripRgb(r: int, g: int, b: int)
    requires IsByte(r) && IsByte(g) && IsByte(b)
    ensures ParseColour(FormatRgb(r, g, b)) == Color(r, g, b, 255)
  {
    var digits := HexByte(r) + HexByte(g) + HexByte(b);
    HexByteRoundTrip(r);
    HexByteRoundTrip(g);
    HexByteRoundTrip(b);
    assert FormatRgb(r, g, b) == "#" + digits;
    StripLeadingHash(digits);
    assert digits[0..2] == HexByte(r) && digits[2..4] == HexByte(g) && digits[4..6] == HexByte(b);
  }

  /** Every character is a hexadecimal digit, of either case. */
  predicate IsHexDigits(s: string) {
    forall i :: 0 <= i < |s| ==> HexValue(s[i]).Some?
  }

  /** Reading a hex digit of either case and writing its value back gives the digit lower-cased. */
  lemma HexDigitOfValue(ch: char)
    requires HexValue(ch).Some?
    ensures HexValue(ch).value < 16 && HexDigit(HexValue(ch).value) == LowerChar(ch)
  {
  }

  /** A pair of hex digits of either case reads as a byte that is written back as the same pair, lower-cased. */
  lemma HexPairFormat(p: string)
    requires |p| == 2 && IsHexDigits(p)
    ensures HexPair(p).Some? && IsByte(HexPair(p).value)
    ensures HexByte(HexPair(p).value) == Lower(p)
  {
    assert HexValue(p[0]).Some? && HexValue(p[1]).Some?;
    HexDigitOfValue(p[0]);
    HexDigitOfValue(p[1]);
    var hi, lo := HexValue(p[0]).value, HexValue(p[1]).value;
    assert (16 * hi + lo) / 16 == hi && (16 * hi + lo) % 16 == lo;
  }

  /** `int(pair, 16)` does not depend on the case of the digits. */
  lemma HexPairIgnoresCase(p: string)
    requires |p| == 2
    ensures HexPair(Lower(p)) == HexPair(p)
  {
    assert HexValue(Lower(p)[0]) == HexValue(p[0]);
    assert HexValue(Lower(p)[1]) == HexValue(p[1]);
  }

  /** Hex digits hold no `'#'`. */
  lemma HexDigitsHaveNoHash(digits: string)
    requires IsHexDigits(digits)
    ensures '#' !in digits
  {
    assert forall i :: 0 <= i < |digits| ==> digits[i] != '#';
  }

  /**
   * Eight hex digits of either case parse to a colour whose `#RRGGBBAA`
   * spelling is the input, lower-cased: each pair is one component, in order.
   */
  lemma ParseThenFormatRgba(digits: string)
    requires |digits| == 8 && IsHexDigits(digits)
    ensures var c := ParseColour("#" + digits); IsRgba(c) && FormatRgba(c) == "#" + Lower(digits)
  {
    HexDigitsHaveNoHash(digits);
    StripLeadingHash(digits);
    var p0, p1, p2, p3 := digits[0..2], digits[2..4], digits[4..6], digits[6..8];
    HexPairFormat(p0);
    HexPairFormat(p1);
    HexPairFormat(p2);
    HexPairFormat(p3);
    assert Lower(digits) == Lower(p0) + Lower(p1) + Lower(p2) + Lower(p3);
  }

  /** Six hex digits of either case parse to an opaque colour whose `#RRGGBB` spelling is the input, lower-cased. */
  lemma ParseThenFormatRgb(digits: string)
    requires |digits| == 6 && IsHexDigits(digits)
    ensures var c := ParseColour("#" + digits);
      && c.a == 255 && IsByte(c.r) && IsByte(c.g) && IsByte(c.b)
      && FormatRgb(c.r, c.g, c.b) == "#" + Lower(digits)
  {
    HexDigitsHaveNoHash(digits);
    StripLeadingHash(digits);
    var p0, p1, p2 := digits[0..2], digits[2..4], digits[4..6];
    HexPairFormat(p0);
    HexPairFormat(p1);
    HexPairFormat(p2);
    assert Lower(digits) == Lower(p0) + Lower(p1) + Lower(p2);
  }

  /** Upper-case, lower-case and mixed-case spellings of a colour parse alike. */
  lemma ColourIgnoresCase(digits: string)
    requires (|digits| == 8 || |digits| == 6) && IsHexDigits(digits)
    ensures ParseColour("#" + digits) == ParseColour("#" + Lower(digits))
  {
    var c := ParseColour("#" + digits);
    if |digits| == 8 {
      ParseThenFormatRgba(digits);
      ColourRoundTripRgba(c);
    } else {
      ParseThenFormatRgb(digits);
      ColourRoundTripRgb(c.r, c.g, c.b);
    }
  }

  /**
   * Any other length once the hashes are gone, or any character that is not a
   * hex digit in a six- or eight-digit string, gives opaque black.
   */
  lemma MalformedColourIsBlack(colour: string, i: nat)
    requires var h := StripHashes(colour);
      (|h| != 6 && |h| != 8) || (i < |h| && HexValue(h[i]).None?)
    ensures ParseColour(colour) == Black
  {
    var h := StripHashes(colour);
    if |h| == 8 || |h| == 6 {
      var k := i / 2 * 2;
      assert h[k..k + 2][i - k] == h[i];
      assert HexPair(h[k..k + 2]).None?;
      if k == 0 { assert h[k..k + 2] == h[0..2]; }
      else if k == 2 { assert h[k..k + 2] == h[2..4]; }
      else if k == 4 { assert h[k..k + 2] == h[4..6]; }
      else { assert h[k..k + 2] == h[6..8]; }
    }
  }

  /** A `'#'` anywhere in the string is dropped, not only a leading one. */
  lemma ColourIgnoresHashes(before: string, after: string)
    ensures ParseColour(before + "#" + after) == ParseColour(before + after)
  {
    assert "#" == ['#'];
    ReplaceCharConcat(before + "#", after, '#', "");
    ReplaceCharConcat(before, "#", '#', "");
    ReplaceCharConcat(before, after, '#', "");
    ReplaceLeading("#", "", "");
    assert "#" + "" == "#";
    assert StripHashes("#") == "";
    assert StripHashes(before + "#") == StripHashes(before);
    assert StripHashes(before + "#" + after) == StripHashes(before + after);
  }

  /** The default colour string, "#000000FF", parses to opaque black. */
  lemma DefaultColourIsBlack()
    ensures ParseColour(DefaultColour) == Black
  {
    var digits := "000000FF";
    assert DefaultColour == "#" + digits;
    StripLeadingHash(digits);
    assert HexPair(digits[0..2]) == Some(0) && HexPair(digits[2..4]) == Some(0);
    assert HexPair(digits[4..6]) == Some(0) && HexPair(digits[6..8]) == Some(255);
  }

  /**
   * A record without a field gets that field's default: caption "", size
   * 640x480, speed 30, colour "#000000FF" (so opaque black) and empty
   * background, view, object and tile lists.
   */
  lemma RoomDataDefaults(j: RoomRecord)
    ensures var d := NewRoomData(j);
      && (j.caption.None? ==> d.caption == "")
      && ((j.size.None? || j.size.value.width.None?) ==> d.width == 640)
      && ((j.size.None? || j.size.value.height.None?) ==> d.height == 480)
      && (j.speed.None? ==> d.speed == 30)
      && (j.colour.None? ==> d.colour == "#000000FF" && BackgroundColor(d) == Black)
      && (j.bgs.None? ==> d.backgrounds == [])
      && (j.views.None? ==> d.views == [])
      && (j.objs.None? ==> d.objects == [])
      && (j.tiles.None? ==> d.tiles == [])
  {
    DefaultColourIsBlack();
  }

  /** A field that is present is taken as it is. */
  lemma RoomDataKeepsPresentFields(j: RoomRecord)
    ensures var d := NewRoomData(j);
      && (j.caption.Some? ==> d.caption == j.caption.value)
      && (j.size.Some? && j.size.value.width.Some? ==> d.width == j.size.value.width.value)
      && (j.size.Some? && j.size.value.height.Some? ==> d.height == j.size.value.height.value)
      && (j.colour.Some? ==> d.colour == j.colour.value)
      && (j.objs.Some? ==> d.objects == j.objs.value)
      && (j.tiles.Some? ==> d.tiles == j.tiles.value)
      && d.json == j
  {
  }

  // ---------------------------------------------------------------------------
  // The room directory
  // ---------------------------------------------------------------------------

  /** What opening and decoding one file of the room directory yields. */
  datatype RoomFile = RoomJson(record: RoomRecord) | Unreadable

  datatype DirEntry = DirEntry(name: string, file: RoomFile)

  /** The room directory: missing, or its entries in `os.listdir` order. */
  datatype RoomDir = NoRoomDir | RoomDir(entries: seq<DirEntry>)

  /** The file of a given name in a listing, if there is one. */
  function FindFile(entries: seq<DirEntry>, name: string): Option<RoomFile> {
    if |entries| == 0 then None
    else if entries[0].name == name then Some(entries[0].file)
    else FindFile(entries[1..], name)
  }

  /** `f"{room_name}.json"`, the file `load_room` opens. */
  function RoomFileName(roomName: string): string {
    roomName + ".json"
  }

  predicate IsJsonFile(fileName: string) {
    EndsWith(fileName, ".json")
  }

  /** `filename.replace(".json", "")`, the room name `list_rooms` reports. */
  function RoomNameOfFile(fileName: string): string {
    ReplaceAll(fileName, ".json", "")
  }

  /**
   * The file `load_room` opens for a name is one `list_rooms` reports, under
   * that same name, as long as the name itself does not contain ".json".
   */
  lemma RoomFileNameRoundTrip(roomName: string)
    requires !Contains(roomName, ".json")
    ensures IsJsonFile(RoomFileName(roomName))
    ensures RoomNameOfFile(RoomFileName(roomName)) == roomName
  {
    assert ".json"[1..] == "json";
    ReplaceTrailing(roomName, ".json", "");
    assert roomName + "" == roomName;
  }

  /** The names `list_rooms` collects, before sorting, in listing order. */
  function JsonRoomNames(entries: seq<DirEntry>): seq<string> {
    if |entries| == 0 then []
    else
      var last := entries[|entries| - 1];
      JsonRoomNames(entries[..|entries| - 1]) + (if IsJsonFile(last.name) then [RoomNameOfFile(last.name)] else [])
  }

  /** Every collected name comes from a `.json` entry, and every `.json` entry gives one. */
  lemma {:induction false} JsonRoomNamesMembers(entries: seq<DirEntry>, n: string)
    ensures n in JsonRoomNames(entries) <==>
      exists i :: 0 <= i < |entries| && IsJsonFile(entries[i].name) && RoomNameOfFile(entries[i].name) == n
  {
    if |entries| > 0 {
      var init := entries[..|entries| - 1];
      JsonRoomNamesMembers(init, n);
      assert forall i :: 0 <= i < |init| ==> init[i] == entries[i];
    }
  }

  /** `list_rooms()`: the room names, sorted; empty when the directory is missing. */
  function ListedRooms(dir: RoomDir): (rooms: seq<string>)
    ensures Sorted(rooms)
    ensures dir.NoRoomDir? ==> rooms == []
    ensures dir.RoomDir? ==> multiset(rooms) == multiset(JsonRoomNames(dir.entries))
  {
    match dir
    case NoRoomDir => []
    case RoomDir(entries) => SortNames(JsonRoomNames(entries))
  }

  predicate IsRuinsRoom(name: string) {
    Contains(Lower(name), "ruins")
  }

  /** `[r for r in rooms if 'ruins' in r.lower()]`. */
  function RuinsOnly(rooms: seq<string>): seq<string> {
    if |rooms| == 0 then []
    else (if IsRuinsRoom(rooms[0]) then [rooms[0]] else []) + RuinsOnly(rooms[1..])
  }

  /** The filter keeps exactly the ruins rooms. */
  lemma {:induction false} RuinsOnlyMembers(rooms: seq<string>)
    ensures forall x :: x in RuinsOnly(rooms) <==> x in rooms && IsRuinsRoom(x)
  {
    if |rooms| > 0 {
      RuinsOnlyMembers(rooms[1..]);
      assert rooms == [rooms[0]] + rooms[1..];
    }
  }

  /** The filter keeps the order: it distributes over concatenation. */
  lemma {:induction false} RuinsOnlyAppend(rooms: seq<string>, more: seq<string>)
    ensures RuinsOnly(rooms + more) == RuinsOnly(rooms) + RuinsOnly(more)
  {
    if |rooms| == 0 {
      assert rooms + more == more;
    } else {
      RuinsOnlyAppend(rooms[1..], more);
      assert (rooms + more)[1..] == rooms[1..] + more;
    }
  }

  /** The ruins rooms of a sorted listing are sorted. */
  lemma {:induction false} RuinsOnlySorted(rooms: seq<string>)
    requires Sorted(rooms)
    ensures Sorted(RuinsOnly(rooms))
  {
    if |rooms| > 0 {
      var tail := RuinsOnly(rooms[1..]);
      RuinsOnlySorted(rooms[1..]);
      RuinsOnlyMembers(rooms[1..]);
      if IsRuinsRoom(rooms[0]) {
        var r := [rooms[0]] + tail;
        forall i, j | 0 <= i < j < |r| ensures StrLe(r[i], r[j]) {
          if i == 0 {
            assert r[j] == tail[j - 1];
            assert r[j] in rooms[1..];
            var k :| 0 <= k < |rooms[1..]| && rooms[1..][k] == r[j];
            assert rooms[k + 1] == r[j];
          }
        }
      }
    }
  }

  /** One `load_room` call: the result and the cache after it. */
  function ReadRoom(dir: RoomDir, roomName: string): Option<RoomData> {
    match dir
    case NoRoomDir => None
    case RoomDir(entries) =>
      match FindFile(entries, RoomFileName(roomName))
      case Some(RoomJson(record)) => Some(NewRoomData(record))
      case _ => None
  }

  /**
   * `load_room` on a cache: a hit returns the cached data; a miss reads the
   * file and caches the result only when it parsed. The cache only grows.
   */
  function LoadStep(cache: map<string, RoomData>, dir: RoomDir, roomName: string): (step: (Option<RoomData>, map<string, RoomData>))
    ensures cache.Keys <= step.1.Keys <= cache.Keys + {roomName}
    ensures forall k :: k in cache ==> step.1[k] == cache[k]
    ensures step.0.Some? <==> roomName in step.1
    ensures step.0.Some? ==> step.1[roomName] == step.0.value
    ensures roomName !in cache ==> step.0 == ReadRoom(dir, roomName)
  {
    if roomName in cache then (Some(cache[roomName]), cache)
    else
      var r := ReadRoom(dir, roomName);
      (r, if r.Some? then cache[roomName := r.value] else cache)
  }

  /**
   * Once a room has loaded, every later `load_room` of the same name returns
   * the same data and leaves the cache alone, whatever the directory holds then.
   */
  lemma LoadStepMemo(cache: map<string, RoomData>, dir: RoomDir, later: RoomDir, roomName: string)
    ensures var (r, c) := LoadStep(cache, dir, roomName);
      r.Some? ==> LoadStep(c, later, roomName) == (r, c)
  {
  }

  // ---------------------------------------------------------------------------
  // RoomLoader and the module-level instance
  // ---------------------------------------------------------------------------

  class RoomLoader {
    /** `self._cache`: room name to parsed data. */
    var cache: map<string, RoomData>

    constructor ()
      ensures cache == map[]
    {
      cache := map[];
    }

    /** `list_rooms`: one name per `.json` entry, collected in listing order, then sorted. */
    method ListRooms(dir: RoomDir) returns (rooms: seq<string>)
      ensures rooms == ListedRooms(dir)
    {
      if dir.NoRoomDir? {
        return [];
      }
      var entries := dir.entries;
      var names: seq<string> := [];
      var i := 0;
      while i < |entries|
        invariant 0 <= i <= |entries|
        invariant names == JsonRoomNames(entries[..i])
      {
        var entry := entries[i];
        if IsJsonFile(entry.name) {
          names := names + [RoomNameOfFile(entry.name)];
        }
        i := i + 1;
        assert entries[..i][..i - 1] == entries[..i - 1];
      }
      assert entries[..i] == entries;
      rooms := SortNames(names);
    }

    /** `load_room`: memoised read of `room/<name>.json`. */
    method LoadRoom(roomName: string, dir: RoomDir) returns (r: Option<RoomData>)
      modifies this
      ensures (r, cache) == LoadStep(old(cache), dir, roomName)
    {
      if roomName in cache {
        return Some(cache[roomName]);
      }
      if dir.NoRoomDir? {
        return None;
      }
      var file := FindFile(dir.entries, RoomFileName(roomName));
      if file.None? {
        return None;
      }
      match file.value
      case Unreadable =>
        r := None;
      case RoomJson(record) =>
        var data := NewRoomData(record);
        cache := cache[roomName := data];
        r := Some(data);
    }

    /** `get_ruins_rooms`: the listed rooms whose lower-cased name contains "ruins". */
    method GetRuinsRooms(dir: RoomDir) returns (rooms: seq<string>)
      ensures rooms == RuinsOnly(ListedRooms(dir))
    {
      var all := ListRooms(dir);
      rooms := RuinsOnly(all);
    }
  }

  /** The module-level `_room_loader` behind `get_room_loader()`. */
  class RoomLoaderSlot {
    var instance: RoomLoader?

    constructor ()
      ensures instance == null
    {
      instance := null;
    }

    /** Creates the loader on the first call and returns that same loader on every later one. */
    method GetRoomLoader() returns (loader: RoomLoader)
      modifies this
      ensures old(instance) != null ==> loader == old(instance)
      ensures old(instance) == null ==> fresh(loader) && loader.cache == map[]
      ensures instance == loader
    {
      if instance == null {
        instance := new RoomLoader();
      }
      loader := instance;
    }
  }
}
