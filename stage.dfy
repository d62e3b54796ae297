/** Stage objects (src/stage/object.py): the object id counter, the stored
    position and the offsets derived from it, lazily created link sets whose
    default lists are shared, the memoised collision cache and the factory
    helpers the generator uses. */
module Stage {
  import opened Wrappers
  import opened Strings
  import opened Vec
  import opened Ids
  import opened Kcl

  /** `Y_OFFSET`: added to the stored position in the serialised translate. */
  const YOffset: real := 582.0

  /** The object properties `LinkSet.__init__` accepts, in declaration order. */
  datatype LinkKind =
    | Debug | ViewGroup | LookAtRail | NextKey | NoDeleteShine | SwitchAliveKeepOn | KeyMoveNext
    | MoveNext | Rail | CapAttackOn | SwitchStart | RiseParts | SwitchAppearTarget | GroupClipping
    | CameraSwitchOn | SwitchAppear | PlayerRestartPos

  function AllLinkKinds(): (ks: seq<LinkKind>)
    ensures |ks| == 17
  {
    [Debug, ViewGroup, LookAtRail, NextKey, NoDeleteShine, SwitchAliveKeepOn, KeyMoveNext, MoveNext, Rail,
     CapAttackOn, SwitchStart, RiseParts, SwitchAppearTarget, GroupClipping, CameraSwitchOn, SwitchAppear,
     PlayerRestartPos]
  }

  lemma AllLinkKindsComplete(k: LinkKind)
    ensures k in AllLinkKinds()
  {
    match k
    case Debug => case ViewGroup => case LookAtRail => case NextKey => case NoDeleteShine =>
    case SwitchAliveKeepOn => case KeyMoveNext => case MoveNext => case Rail => case CapAttackOn =>
    case SwitchStart => case RiseParts => case SwitchAppearTarget => case GroupClipping =>
    case CameraSwitchOn => case SwitchAppear => case PlayerRestartPos =>
  }

  /** `Components.KeyMoveNext.Key` and `Components.MoveNext.Key`. */
  datatype KeyMoveKey = KeyMoveKey(pos: Vec3, speed: real, waitTime: int)
  datatype MoveNextKey = MoveNextKey(pos: Vec3, delayFrames: int, railMoveSpeed: real, waitFrames: int)

  /** The components the modelled factories attach, with the fields they set. */
  datatype Component =
    | StageChangeComponent(changeStageId: string)
    | KeyMoveNextComponent(speed: real, waitTime: int)
    | MoveNextComponent(delayFrames: int, railMoveSpeed: real, waitFrames: int)
    | RailComponent(points: seq<Object>, railType: string, isClosed: bool, isLadder: bool)
    | RailPointComponent(pos: Vec3)
    | CaptureComponent(capName: string)
    | CapRackTimerComponent(validFrames: int)

  /** A Python list of objects: a mutable value that several owners may share. */
  class ObjList {
    var items: seq<Object>

    constructor(items: seq<Object>)
      ensures this.items == items
    {
      this.items := items;
    }

    /** `list.append`. */
    method Append(o: Object)
      modifies this
      ensures items == old(items) + [o]
    {
      items := items + [o];
    }

    /** `l[:] = l[:-1]`: in place, and a no-op on an empty list. */
    method DropLast()
      modifies this
      ensures items == if old(items) == [] then [] else old(items)[..|old(items)| - 1]
    {
      if items != [] {
        items := items[..|items| - 1];
      }
    }
  }

  /** A Python list of components. */
  class ComponentList {
    var items: seq<Component>

    constructor(items: seq<Component>)
      ensures this.items == items
    {
      this.items := items;
    }
  }

  /** `LinkSet`: one list per link kind. */
  class LinkSet {
    var lists: LinkKind -> ObjList

    /** `LinkSet(**given)`: every kind not given takes the default list, the
        same list object for every link set. */
    constructor(defaults: Defaults, given: map<LinkKind, ObjList>)
      ensures forall k :: lists(k) == if k in given then given[k] else defaults.lists(k)
    {
      lists := k => if k in given then given[k] else defaults.lists(k);
    }

    /** `linkset.<kind> = l`: rebinds one attribute. */
    method Assign(kind: LinkKind, l: ObjList)
      modifies this
      ensures lists(kind) == l && forall k :: k != kind ==> lists(k) == old(lists)(k)
    {
      var before := lists;
      lists := k => if k == kind then l else before(k);
    }
  }

  /** What the module builds when it is imported: the shared `components=[]`
      default of `Object.__init__`, the `GroupView` object `VIEW_GROUP_OBJ`,
      and the default argument lists of `LinkSet.__init__` (the view-group
      default holds `VIEW_GROUP_OBJ`, every other default is empty). */
  class Defaults {
    const components: ComponentList
    const view: Object
    const lists: LinkKind -> ObjList

    constructor(ids: IdCounter)
      requires ids.Valid()
      modifies ids
      ensures ids.Valid() && ids.next == old(ids.next) + 1
      ensures components.items == [] && view.name == "GroupView"
      ensures forall k: LinkKind :: lists(k).items == if k == ViewGroup then [view] else []
      ensures fresh(components) && fresh(view)
    {
      var c := new ComponentList([]);
      var v := new Object(ids, "GroupView", "GroupView", Vec3(-8096.37255859375, 22250.0, 5126.52392578125),
                          Vec3(1.0, 1.0, 1.0), Vec3(0.0, 0.0, 0.0), false, c, null);
      var m: map<LinkKind, ObjList> := map[];
      var kinds := AllLinkKinds();
      for i := 0 to |kinds|
        invariant ids.Valid() && ids.next == old(ids.next) + 1 && c.items == []
        invariant forall j :: 0 <= j < i ==> kinds[j] in m
        invariant forall k :: k in m ==> m[k].items == if k == ViewGroup then [v] else []
      {
        var l := new ObjList(if kinds[i] == ViewGroup then [v] else []);
        m := m[kinds[i] := l];
      }
      forall k: LinkKind
        ensures k in m
      {
        AllLinkKindsComplete(k);
      }
      components := c;
      view := v;
      lists := k => m[k];
    }
  }

  /** `Object`: the name, configuration, stored position, scale, rotation and
      components are fixed at construction; the link-destination flag, the
      comment and the link set can change afterwards. */
  class Object {
    const name: string
    const paramConfig: string
    const id: string
    /** `self.__pos`, a copy of the constructor's position. */
    const storedPos: Vec3
    const scale: Vec3
    const rotation: Vec3
    const components: ComponentList
    var isLinkDest: bool
    var comment: string
    var linkset: LinkSet?

    constructor(ids: IdCounter, name: string, paramConfig: string, pos: Vec3, scale: Vec3, rot: Vec3,
                isLinkDest: bool, components: ComponentList, linkset: LinkSet?)
      requires ids.Valid()
      modifies ids
      ensures ids.Valid() && ids.next == old(ids.next) + 1 && ids.issued == old(ids.issued) + [id]
      ensures id == ids.prefix + NatToString(old(ids.next)) && id !in old(ids.issued)
      ensures this.name == name && this.paramConfig == paramConfig && storedPos == pos
      ensures this.scale == scale && rotation == rot && this.components == components
      ensures this.isLinkDest == isLinkDest && comment == "" && this.linkset == linkset
    {
      var newId := ids.NextId();
      this.name := name;
      this.paramConfig := paramConfig;
      this.id := newId;
      storedPos := pos;
      this.scale := scale;
      rotation := rot;
      this.components := components;
      this.isLinkDest := isLinkDest;
      comment := "";
      this.linkset := linkset;
    }

    /** `pos()`: the stored position raised by `Y_OFFSET - 400`. */
    function Pos(): (p: Vec3)
      ensures p == Vec3(storedPos.x, storedPos.y + 182.0, storedPos.z)
    {
      Add(storedPos, Vec3(0.0, YOffset - 400.0, 0.0))
    }

    /** The serialised `translate`: the stored position raised by `Y_OFFSET`
        (the constructor's `pos +=` rebinds a fresh vector; the stored copy
        keeps the original). */
    function Translate(): (t: Vec3)
      ensures t == Vec3(storedPos.x, storedPos.y + 582.0, storedPos.z)
    {
      Add(storedPos, Vec3(0.0, YOffset, 0.0))
    }

    lemma TranslateAbovePos()
      ensures Translate() == Add(Pos(), Vec3(0.0, 400.0, 0.0))
    {
    }

    /** `linkset()`: a link set with every default is created on the first
        call; every call returns the object's current link set. */
    method GetLinkset(defaults: Defaults) returns (ls: LinkSet)
      modifies this
      ensures old(linkset) != null ==> ls == old(linkset)
      ensures old(linkset) == null ==> fresh(ls) && forall k :: ls.lists(k) == defaults.lists(k)
      ensures linkset == ls
      ensures isLinkDest == old(isLinkDest) && comment == old(comment)
    {
      if linkset == null {
        linkset := new LinkSet(defaults, map[]);
      }
      ls := linkset;
    }

    method SetIsLinkDest(b: bool)
      modifies this
      ensures isLinkDest == b && comment == old(comment) && linkset == old(linkset)
    {
      isLinkDest := b;
    }

    /** `set_comment`: the display name. */
    method SetComment(c: string)
      modifies this
      ensures comment == c && isLinkDest == old(isLinkDest) && linkset == old(linkset)
    {
      comment := c;
    }
  }

  // ------------------------------------------------------------ collision cache

  /** A file extracted from an object archive: its name and its bytes. */
  datatype ArchiveFile = ArchiveFile(name: string, bytes: seq<byte>)

  /** A parser of one `.kcl` file. */
  type Parser = seq<byte> -> Result<CollisionData>

  /** `get_collision_data` after extraction: every `.kcl` file of the listing,
      parsed, joined by `union` in listing order; None when there is none; the
      first file that fails to parse fails the load. */
  function ArchiveCollision(files: seq<ArchiveFile>, parse: Parser): Result<Option<CollisionData>>
    decreases |files|
  {
    if files == [] then Ok(None)
    else
      var acc :- ArchiveCollision(files[..|files| - 1], parse);
      var f := files[|files| - 1];
      if !EndsWith(f.name, ".kcl") then Ok(acc)
      else
        var cd :- parse(f.bytes);
        Ok(if acc.None? then Some(cd) else Some(acc.value.Union(cd)))
  }

  /** The models of the `.kcl` files of a listing that parse, in listing order. */
  function KclModels(files: seq<ArchiveFile>, parse: Parser): seq<Model>
    decreases |files|
  {
    if files == [] then []
    else
      var f := files[|files| - 1];
      var rest := KclModels(files[..|files| - 1], parse);
      if EndsWith(f.name, ".kcl") && parse(f.bytes).Ok? then rest + parse(f.bytes).value.models else rest
  }

  predicate HasKcl(files: seq<ArchiveFile>)
  {
    exists i :: 0 <= i < |files| && EndsWith(files[i].name, ".kcl")
  }

  /** A successful load has collision data exactly when the listing holds a
      `.kcl` file, and its models are those of the files in listing order. */
  lemma {:induction false} ArchiveCollisionModels(files: seq<ArchiveFile>, parse: Parser)
    requires ArchiveCollision(files, parse).Ok?
    ensures ArchiveCollision(files, parse).value.Some? <==> HasKcl(files)
    ensures ArchiveCollision(files, parse).value.Some? ==>
            ArchiveCollision(files, parse).value.value.models == KclModels(files, parse)
    ensures ArchiveCollision(files, parse).value.None? ==> KclModels(files, parse) == []
    decreases |files|
  {
    if files != [] {
      var init := files[..|files| - 1];
      ArchiveCollisionModels(init, parse);
      assert forall i :: 0 <= i < |init| ==> init[i] == files[i];
      var f := files[|files| - 1];
      if HasKcl(init) {
        var i :| 0 <= i < |init| && EndsWith(init[i].name, ".kcl");
        assert EndsWith(files[i].name, ".kcl");
      }
      if !EndsWith(f.name, ".kcl") {
        if HasKcl(files) {
          var i :| 0 <= i < |files| && EndsWith(files[i].name, ".kcl");
          assert i < |init| && EndsWith(init[i].name, ".kcl");
        }
      } else {
        assert EndsWith(files[|files| - 1].name, ".kcl");
        var acc := ArchiveCollision(init, parse).value;
        if acc.Some? {
          var u := acc.value.Union(parse(f.bytes).value);
          assert u.models == acc.value.models + parse(f.bytes).value.models;
        }
      }
    }
  }

  /** A failing listing fails every longer listing with the same error. */
  lemma {:induction false} ArchiveErrStays(files: seq<ArchiveFile>, more: seq<ArchiveFile>, parse: Parser)
    requires ArchiveCollision(files, parse).Err?
    ensures ArchiveCollision(files + more, parse) == ArchiveCollision(files, parse)
    decreases |more|
  {
    if more != [] {
      var init := more[..|more| - 1];
      ArchiveErrStays(files, init, parse);
      assert (files + more)[..|files + more| - 1] == files + init;
    } else {
      assert files + more == files;
    }
  }

  /** The listing loop of `get_collision_data`. */
  method LoadArchive(files: seq<ArchiveFile>, parse: Parser) returns (r: Result<Option<CollisionData>>)
    ensures r == ArchiveCollision(files, parse)
  {
    var collision: Option<CollisionData> := None;
    for i := 0 to |files|
      invariant ArchiveCollision(files[..i], parse) == Ok(collision)
    {
      assert files[..i + 1][..i] == files[..i];
      var f := files[i];
      if !EndsWith(f.name, ".kcl") {
        continue;
      }
      var parsed := parse(f.bytes);
      if parsed.Err? {
        assert files[..i + 1] + files[i + 1..] == files;
        ArchiveErrStays(files[..i + 1], files[i + 1..], parse);
        return Err(parsed.error);
      }
      if collision.None? {
        collision := Some(parsed.value);
      } else {
        collision := Some(collision.value.Union(parsed.value));
      }
    }
    assert files[..|files|] == files;
    r := Ok(collision);
  }

  /** `ObjectFactory.__COLLISION_CACHE` with what `get_collision` reads: whether
      `GlobalConfig.args` is set, the extracted listing of each object's
      archive (None when `ObjectData/{name}.szs` does not exist; that path
      always ends in `.szs`, so the suffix test never rejects it) and the
      `.kcl` parser, which is `Kcl.CollisionDataAt` with the platform's
      float decoder and collision query. */
  class CollisionCache {
    const configured: bool
    const archives: string -> Option<seq<ArchiveFile>>
    const f32: seq<byte> -> real
    const query: seq<Triangle> -> Vec3 -> NonNeg
    const parse: Parser
    var cache: map<string, Option<CollisionData>>

    /** What a lookup of `name` yields: nothing without arguments, otherwise
        the collision loaded from its archive. */
    function Lookup(name: string): Result<Option<CollisionData>>
    {
      if !configured then Ok(None)
      else match archives(name)
        case None => Ok(None)
        case Some(files) => ArchiveCollision(files, parse)
    }

    /** The parser is the KCL reader, and every cached entry is what loading
        would produce. */
    ghost predicate Valid()
      reads this
    {
      (forall b :: parse(b) == CollisionDataAt(b, f32, query)) &&
      (forall n :: n in cache ==> Lookup(n) == Ok(cache[n]))
    }

    constructor(configured: bool, archives: string -> Option<seq<ArchiveFile>>, f32: seq<byte> -> real,
                query: seq<Triangle> -> Vec3 -> NonNeg)
      ensures Valid() && cache == map[]
      ensures this.configured == configured && this.archives == archives && this.f32 == f32 && this.query == query
    {
      this.configured := configured;
      this.archives := archives;
      this.f32 := f32;
      this.query := query;
      parse := (b: seq<byte>) => CollisionDataAt(b, f32, query);
      cache := map[];
    }

    /** `ObjectFactory.get_collision`: a cached name returns the stored value
        (None included), a miss without arguments returns None and caches
        nothing, any other miss loads the archive and caches the result. The
        memo is transparent: the outcome is always `Lookup(name)`. */
    method Get(name: string) returns (r: Result<Option<CollisionData>>)
      requires Valid()
      modifies this
      ensures Valid() && r == Lookup(name)
      ensures name in old(cache) ==> cache == old(cache)
      ensures name !in old(cache) && configured && r.Ok? ==> cache == old(cache)[name := r.value]
      ensures name !in old(cache) && (!configured || r.Err?) ==> cache == old(cache)
    {
      if name in cache {
        return Ok(cache[name]);
      }
      if !configured {
        return Ok(None);
      }
      var files := archives(name);
      if files.None? {
        r := Ok(None);
      } else {
        r := LoadArchive(files.value, parse);
      }
      if r.Ok? {
        cache := cache[name := r.value];
      }
    }
  }

  /** `test_collision(c, r)`: the object's collision asked about the sphere
      moved into object space; an object without collision data raises. */
  function TestCollision(o: Object, cache: CollisionCache, c: Vec3, radius: real): (r: Result<bool>)
    ensures cache.Lookup(o.name).Ok? && cache.Lookup(o.name).value.Some? ==>
            r == Ok(cache.Lookup(o.name).value.value.Hits(Sub(c, o.Pos()), radius))
    ensures cache.Lookup(o.name) == Ok(None) ==> r == Err(AttributeError)
    ensures cache.Lookup(o.name).Err? ==> r == Err(cache.Lookup(o.name).error)
  {
    var col :- cache.Lookup(o.name);
    if col.None? then Err(AttributeError) else Ok(col.value.Hits(Sub(c, o.Pos()), radius))
  }

  // ------------------------------------------------------------ factories

  const Unit3: Vec3 := Vec3(1.0, 1.0, 1.0)
  const Zero3: Vec3 := Vec3(0.0, 0.0, 0.0)

  /** `create_fix_map_parts` with the default scale and rotation. */
  method CreateFixMapParts(ids: IdCounter, defaults: Defaults, name: string, pos: Vec3)
    returns (o: Object)
    requires ids.Valid()
    modifies ids
    ensures ids.Valid() && ids.next == old(ids.next) + 1 && fresh(o)
    ensures o.name == name && o.paramConfig == "FixMapParts" && o.storedPos == pos
    ensures o.scale == Unit3 && o.rotation == Zero3
    ensures !o.isLinkDest && o.comment == "" && o.linkset == null && o.components == defaults.components
  {
    o := new Object(ids, name, "FixMapParts", pos, Unit3, Zero3, false, defaults.components, null);
  }

  /** `create_fix_map_parts` with an explicit rotation. */
  method CreateRotatedFixMapParts(ids: IdCounter, defaults: Defaults, name: string, pos: Vec3, rot: Vec3)
    returns (o: Object)
    requires ids.Valid()
    modifies ids
    ensures ids.Valid() && ids.next == old(ids.next) + 1 && fresh(o)
    ensures o.name == name && o.paramConfig == "FixMapParts" && o.storedPos == pos && o.rotation == rot
    ensures o.scale == Unit3
    ensures !o.isLinkDest && o.comment == "" && o.linkset == null && o.components == defaults.components
  {
    o := new Object(ids, name, "FixMapParts", pos, Unit3, rot, false, defaults.components, null);
  }

  /** `create_key_move_parts`: an object at the first key whose
      `key_move_next` list holds one link-destination object at the second. */
  method CreateKeyMoveParts(ids: IdCounter, defaults: Defaults, name: string, key1: KeyMoveKey, key2: KeyMoveKey)
    returns (o: Object, link: Object)
    requires ids.Valid()
    modifies ids
    ensures ids.Valid() && ids.next == old(ids.next) + 2 && fresh(o) && fresh(link)
    ensures o.name == name && o.paramConfig == "KeyMoveMapParts" && o.storedPos == key1.pos && !o.isLinkDest
    ensures o.comment == ""
    ensures link.name == name && link.paramConfig == "KeyMoveMapParts" && link.storedPos == key2.pos && link.isLinkDest
    ensures o.components.items == [KeyMoveNextComponent(key1.speed, key1.waitTime), StageChangeComponent("")]
    ensures link.components.items == [KeyMoveNextComponent(key2.speed, key2.waitTime), StageChangeComponent("")]
    ensures o.linkset != null && fresh(o.linkset)
    ensures forall k :: k != KeyMoveNext ==> o.linkset.lists(k) == defaults.lists(k)
    ensures fresh(o.linkset.lists(KeyMoveNext)) && allocated(o.linkset.lists(KeyMoveNext))
    ensures o.linkset.lists(KeyMoveNext).items == [link]
  {
    var lc := new ComponentList([KeyMoveNextComponent(key2.speed, key2.waitTime), StageChangeComponent("")]);
    link := new Object(ids, name, "KeyMoveMapParts", key2.pos, Unit3, Zero3, true, lc, null);
    var l := new ObjList([link]);
    var ls := new LinkSet(defaults, map[KeyMoveNext := l]);
    var oc := new ComponentList([KeyMoveNextComponent(key1.speed, key1.waitTime), StageChangeComponent("")]);
    o := new Object(ids, name, "KeyMoveMapParts", key1.pos, Unit3, Zero3, false, oc, ls);
  }

  /** `create_move_next`: like `create_key_move_parts`, through `move_next`. */
  method CreateMoveNext(ids: IdCounter, defaults: Defaults, name: string, paramConfig: string,
                        key1: MoveNextKey, key2: MoveNextKey)
    returns (o: Object, link: Object)
    requires ids.Valid()
    modifies ids
    ensures ids.Valid() && ids.next == old(ids.next) + 2 && fresh(o) && fresh(link)
    ensures o.name == name && o.paramConfig == paramConfig && o.storedPos == key1.pos && !o.isLinkDest
    ensures o.comment == "" && o.scale == Unit3 && o.rotation == Zero3
    ensures link.name == name && link.paramConfig == paramConfig && link.storedPos == key2.pos && link.isLinkDest
    ensures link.comment == "" && link.scale == Unit3 && link.rotation == Zero3 && link.linkset == null
    ensures o.components.items == [MoveNextComponent(key1.delayFrames, key1.railMoveSpeed, key1.waitFrames)]
    ensures link.components.items == [MoveNextComponent(key2.delayFrames, key2.railMoveSpeed, key2.waitFrames)]
    ensures o.linkset != null && fresh(o.linkset)
    ensures forall k :: k != MoveNext ==> o.linkset.lists(k) == defaults.lists(k)
    ensures fresh(o.linkset.lists(MoveNext)) && allocated(o.linkset.lists(MoveNext))
    ensures o.linkset.lists(MoveNext).items == [link]
  {
    var lc := new ComponentList([MoveNextComponent(key2.delayFrames, key2.railMoveSpeed, key2.waitFrames)]);
    link := new Object(ids, name, paramConfig, key2.pos, Unit3, Zero3, true, lc, null);
    var l := new ObjList([link]);
    var ls := new LinkSet(defaults, map[MoveNext := l]);
    var oc := new ComponentList([MoveNextComponent(key1.delayFrames, key1.railMoveSpeed, key1.waitFrames)]);
    o := new Object(ids, name, paramConfig, key1.pos, Unit3, Zero3, false, oc, ls);
  }

  /** `create_rail` with its defaults: one `Point` per position, in order,
      inside a link-destination `Rail` placed at the first position; an empty
      list of positions raises. */
  method CreateRail(ids: IdCounter, defaults: Defaults, positions: seq<Vec3>)
    returns (r: Result<Object>, points: seq<Object>)
    requires ids.Valid()
    modifies ids
    ensures ids.Valid()
    ensures positions == [] <==> r.Err?
    ensures r.Err? ==> r.error == IndexError && ids.next == old(ids.next) + |positions|
    ensures |points| == |positions|
    ensures forall i :: 0 <= i < |points| ==>
              fresh(points[i]) && points[i].name == "Point" && points[i].storedPos == positions[i] &&
              points[i].components.items == [RailPointComponent(positions[i])]
    ensures r.Ok? ==> (ids.next == old(ids.next) + |positions| + 1 && fresh(r.value) &&
                       r.value.name == "Rail" && r.value.storedPos == positions[0] && r.value.isLinkDest &&
                       r.value.components.items == [RailComponent(points, "Linear", false, false)])
  {
    points := [];
    for i := 0 to |positions|
      invariant ids.Valid() && ids.next == old(ids.next) + i && |points| == i
      invariant forall j :: 0 <= j < i ==>
                  fresh(points[j]) && points[j].name == "Point" && points[j].storedPos == positions[j] &&
                  points[j].components.items == [RailPointComponent(positions[j])]
    {
      var c := new ComponentList([RailPointComponent(positions[i])]);
      var p := new Object(ids, "Point", "Point", positions[i], Unit3, Zero3, false, c, null);
      points := points + [p];
    }
    if positions == [] {
      return Err(IndexError), points;
    }
    var rc := new ComponentList([RailComponent(points, "Linear", false, false)]);
    var rail := new Object(ids, "Rail", "Rail", positions[0], Unit3, Zero3, true, rc, null);
    r := Ok(rail);
  }

  /** `create_trample_switch_timer`. */
  method CreateTrampleSwitchTimer(ids: IdCounter, pos: Vec3, frames: int) returns (o: Object)
    requires ids.Valid()
    modifies ids
    ensures ids.Valid() && ids.next == old(ids.next) + 1 && fresh(o) && fresh(o.components)
    ensures o.name == "TrampleSwitchTimer" && o.paramConfig == "TrampleSwitchTimer" && o.storedPos == pos
    ensures o.components.items == [CapRackTimerComponent(frames)] && o.linkset == null && !o.isLinkDest
  {
    var c := new ComponentList([CapRackTimerComponent(frames)]);
    o := new Object(ids, "TrampleSwitchTimer", "TrampleSwitchTimer", pos, Unit3, Zero3, false, c, null);
  }
}
