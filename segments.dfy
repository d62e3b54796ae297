/** The segment classes of src/generator/generator.py: how many platforms a
    segment places, which object names and jump sets it draws from, how it
    scales and turns a jump, where a jump leaves and lands on a platform, the
    platforms it builds for a landing position and the objects it places
    when it starts. Python's subclasses become one class with a `kind`. */
module Segments {
  import opened Wrappers
  import opened Vec
  import Aabb
  import opened Rng
  import opened Kcl
  import opened Ids
  import opened Stage
  import opened Datasets
  import opened Trajectories

  /** `DefaultSegment`, `TimerSegment`, `MoeEyeSegment`, `LavaBubbleSegment`, `PokioSegment`. */
  datatype Kind = Default | Timer | MoeEye | LavaBubble | Pokio

  /** `type(segment).__name__`. */
  function ClassName(k: Kind): string
  {
    match k
    case Default => "DefaultSegment"
    case Timer => "TimerSegment"
    case MoeEye => "MoeEyeSegment"
    case LavaBubble => "LavaBubbleSegment"
    case Pokio => "PokioSegment"
  }

  /** The class names tell the kinds apart, so comparing names is comparing kinds. */
  lemma ClassNameInjective(a: Kind, b: Kind)
    ensures ClassName(a) == ClassName(b) <==> a == b
  {
  }

  /** The bounds of the `randint` that sets the number of platforms. */
  function CountRange(k: Kind): (int, int)
  {
    match k
    case Default => (7, 11)
    case Timer => (4, 6)
    case MoeEye => (5, 6)
    case LavaBubble => (7, 9)
    case Pokio => (3, 4)
  }

  const MoeEyeObjects: seq<string> := ["SandWorldHomeMeganeStep001", "SandWorldHomeMeganeStep000"]
  const LavaBubbleObjects: seq<string> := ["LavaWorldBubbleLaneExKeyMoveParts000"]
  const PokioObjects: seq<string> := ["SkyWorldHomeRotateParts000", "SkyWorldHomeConveyerParts001"]

  /** `SAMPLE_COUNT` of the poke-able position search. */
  const PokioSamples: nat := 20

  const Up: Vec3 := Vec3(0.0, 1.0, 0.0)
  const Forward: Vec3 := Vec3(0.0, 0.0, 1.0)

  /** What the segments share: the random generator, the object id counter,
      the module-level defaults of src/stage/object.py, the collision cache,
      `cos(radians(45))` (the default angle threshold of the standable
      search), `Vec.length()` (a square root) and the loaded jump sets of
      `JumpDataset.get_all_jumps`, by capture type. */
  class Env {
    const rng: Random
    const ids: IdCounter
    const defaults: Defaults
    const cache: CollisionCache
    const cos45: real
    const length: Vec3 -> real
    const jumps: Option<string> -> seq<JumpData>

    ghost predicate Valid()
      reads ids, cache
    {
      ids.Valid() && cache.Valid() &&
      forall v :: length(v) >= 0.0 && length(v) * length(v) == SqLength(v)
    }

    constructor(rng: Random, ids: IdCounter, defaults: Defaults, cache: CollisionCache, cos45: real,
                length: Vec3 -> real, jumps: Option<string> -> seq<JumpData>)
      ensures this.rng == rng && this.ids == ids && this.defaults == defaults && this.cache == cache
      ensures this.cos45 == cos45 && this.length == length && this.jumps == jumps
    {
      this.rng := rng;
      this.ids := ids;
      this.defaults := defaults;
      this.cache := cache;
      this.cos45 := cos45;
      this.length := length;
      this.jumps := jumps;
    }
  }

  /** The index `reduce(lambda a, b: a if a.y() < b.y() else b, ps)` ends
      on: a lowest point, the last one among equals. */
  function LowestAt(ps: seq<Vec3>): (k: nat)
    requires ps != []
    ensures k < |ps| && (forall i :: 0 <= i < |ps| ==> ps[k].y <= ps[i].y)
    ensures forall i :: k < i < |ps| ==> ps[k].y < ps[i].y
    decreases |ps|
  {
    if |ps| == 1 then 0
    else
      var j := LowestAt(ps[..|ps| - 1]);
      if ps[j].y < ps[|ps| - 1].y then j else |ps| - 1
  }

  /** The index `reduce(lambda a, b: a if a.y() > b.y() else b, ps)` ends
      on: a highest point, the last one among equals. */
  function HighestAt(ps: seq<Vec3>): (k: nat)
    requires ps != []
    ensures k < |ps| && (forall i :: 0 <= i < |ps| ==> ps[k].y >= ps[i].y)
    ensures forall i :: k < i < |ps| ==> ps[k].y > ps[i].y
    decreases |ps|
  {
    if |ps| == 1 then 0
    else
      var j := HighestAt(ps[..|ps| - 1]);
      if ps[j].y > ps[|ps| - 1].y then j else |ps| - 1
  }

  /** The lowest-point `reduce`; an empty sequence raises TypeError. */
  function Lowest(ps: seq<Vec3>): (r: Result<Vec3>)
    ensures ps == [] <==> r.Err?
    ensures r.Err? ==> r.error == TypeError
    ensures r.Ok? ==> exists k :: 0 <= k < |ps| && ps[k] == r.value &&
                                 (forall i :: 0 <= i < |ps| ==> r.value.y <= ps[i].y) &&
                                 (forall i :: k < i < |ps| ==> r.value.y < ps[i].y)
  {
    if ps == [] then Err(TypeError) else Ok(ps[LowestAt(ps)])
  }

  /** The highest-point `reduce`; an empty sequence raises TypeError. */
  function Highest(ps: seq<Vec3>): (r: Result<Vec3>)
    ensures ps == [] <==> r.Err?
    ensures r.Err? ==> r.error == TypeError
    ensures r.Ok? ==> exists k :: 0 <= k < |ps| && ps[k] == r.value &&
                                 (forall i :: 0 <= i < |ps| ==> r.value.y >= ps[i].y) &&
                                 (forall i :: k < i < |ps| ==> r.value.y > ps[i].y)
  {
    if ps == [] then Err(TypeError) else Ok(ps[HighestAt(ps)])
  }

  /** `collision.get_random_standable_pos(MARIO_RADIUS, target)` with the
      default 45 degree threshold; an object without collision raises. */
  method StandableOn(col: Option<CollisionData>, env: Env, target: Vec3) returns (r: Result<Vec3>)
    modifies env.rng
    ensures col.None? ==> r == Err(AttributeError) && env.rng.cursor == old(env.rng.cursor)
    ensures col.Some? ==> var spec := Search(col.value, env.rng.stream, old(env.rng.cursor), StandableTries,
                                             MarioRadius, target, env.cos45);
                          r == spec.0 && env.rng.cursor == spec.1
    ensures r.Ok? ==> col.Some? && Standable(col.value, r.value, MarioRadius, target, env.cos45)
  {
    if col.None? {
      return Err(AttributeError);
    }
    r := GetRandomStandablePos(col.value, env.rng, MarioRadius, target, env.cos45);
  }

  /** `__get_random_pokeable_positions`: twenty standable positions whose
      normal is within 45 degrees of +z; the first failing search fails the list. */
  method PokeablePositions(col: Option<CollisionData>, env: Env) returns (r: Result<seq<Vec3>>)
    modifies env.rng
    ensures col.None? ==> r == Err(AttributeError)
    ensures r.Ok? ==> col.Some? && |r.value| == PokioSamples &&
                      forall i :: 0 <= i < |r.value| ==> Standable(col.value, r.value[i], MarioRadius, Forward, env.cos45)
  {
    if col.None? {
      return Err(AttributeError);
    }
    var ps: seq<Vec3> := [];
    for i := 0 to PokioSamples
      invariant |ps| == i
      invariant forall j :: 0 <= j < i ==> Standable(col.value, ps[j], MarioRadius, Forward, env.cos45)
    {
      var p := GetRandomStandablePos(col.value, env.rng, MarioRadius, Forward, env.cos45);
      if p.Err? {
        return Err(p.error);
      }
      ps := ps + [p.value];
    }
    r := Ok(ps);
  }

  /** The first object of `objs` is `name`, stored at `pos`. */
  predicate Named(objs: seq<Object>, name: string, pos: Vec3)
  {
    objs != [] && objs[0].name == name && objs[0].storedPos == pos
  }

  /** The two keys of a platform moving back and forth, with its rail and the
      `RailDrawer` that shows the rail: `[platform, drawer]`. */
  method MovingPlatform(env: Env, name: string, p1: Vec3, p2: Vec3, speed: real) returns (objs: seq<Object>)
    requires env.ids.Valid()
    modifies env.ids
    ensures env.ids.Valid()
    ensures |objs| == 2 && fresh(objs[0]) && fresh(objs[1])
    ensures objs[0].name == name && objs[0].paramConfig == "KeyMoveMapParts" && objs[0].storedPos == p1
    ensures objs[0].components.items == [KeyMoveNextComponent(speed, 0), StageChangeComponent("")]
    ensures objs[0].linkset != null && objs[0].linkset.lists(KeyMoveNext).items != []
    ensures objs[0].linkset.lists(KeyMoveNext).items[0].storedPos == p2
    ensures objs[1].name == "RailDrawer" && objs[1].storedPos == p1 && objs[1].linkset != null
    ensures |objs[1].linkset.lists(Rail).items| == 1
    ensures var rail := objs[1].linkset.lists(Rail).items[0];
            rail.name == "Rail" && rail.storedPos == p1 && |rail.components.items| == 1 &&
            rail.components.items[0].RailComponent? && |rail.components.items[0].points| == 2 &&
            rail.components.items[0].points[1].storedPos == p2
    ensures !objs[0].isLinkDest && !objs[1].isLinkDest && objs[0].comment == "" && objs[1].comment == ""
  {
    var o, link := CreateKeyMoveParts(env.ids, env.defaults, name, KeyMoveKey(p1, speed, 0), KeyMoveKey(p2, speed, 0));
    var rail, points := CreateRail(env.ids, env.defaults, [p1, p2]);
    var l := new ObjList([rail.value]);
    var ls := new LinkSet(env.defaults, map[Rail := l]);
    var drawer := new Object(env.ids, "RailDrawer", "RailDrawer", p1, Unit3, Zero3, false, env.defaults.components, ls);
    objs := [o, drawer];
  }

  /** MaxDim of the collision box of `name` is below 1000. */
  predicate SmallCollision(cache: CollisionCache, name: string)
  {
    var col := cache.Lookup(name);
    col.Ok? && col.value.Some? && Aabb.MaxDim(col.value.value.box) < 1000.0
  }

  /** The moving-platform test of `DefaultSegment.create_object`, evaluated
      left to right: moving objects allowed, not the last platform, a draw
      below 0.4, a previous platform that does not move on keys, and a
      collision box under 1000 in every axis. Looking up the collision fails
      on an object without one. */
  method DefaultMoves(env: Env, allowMoving: bool, name: string, isLast: bool, prev: Object)
    returns (r: Result<bool>)
    requires env.Valid()
    modifies env.rng, env.cache
    ensures env.Valid()
    ensures r.Ok? ==> (r.value <==>
                       allowMoving && !isLast && UniformOf(0.0, 1.0, env.rng.stream(old(env.rng.cursor))) < 0.4 &&
                       prev.paramConfig != "KeyMoveMapParts" && SmallCollision(env.cache, name))
    ensures !allowMoving || isLast ==> r == Ok(false) && env.rng.cursor == old(env.rng.cursor)
    ensures r.Err? ==> allowMoving && !isLast && prev.paramConfig != "KeyMoveMapParts" &&
                       ((env.cache.Lookup(name).Err? && r.error == env.cache.Lookup(name).error) ||
                        (env.cache.Lookup(name) == Ok(None) && r.error == AttributeError))
  {
    if !allowMoving || isLast {
      return Ok(false);
    }
    var u := env.rng.Uniform(0.0, 1.0);
    if !(u < 0.4 && prev.paramConfig != "KeyMoveMapParts") {
      return Ok(false);
    }
    var col := env.cache.Get(name);
    if col.Err? {
      return Err(col.error);
    }
    if col.value.None? {
      return Err(AttributeError);
    }
    r := Ok(Aabb.MaxDim(col.value.value.box) < 1000.0);
  }

  /** The moving branch of `DefaultSegment.create_object`: the platform moves
      between `pos` and `pos + v*500 - normalize(offset)*750` at a speed in
      [7, 15]; a zero offset cannot be normalised. */
  method DefaultMoving(env: Env, name: string, pos: Vec3, offset: Vec3) returns (r: Result<seq<Object>>)
    requires env.Valid()
    modifies env.rng, env.ids
    ensures env.Valid()
    ensures r.Err? <==> env.length(offset) == 0.0
    ensures r.Err? ==> r.error == ZeroDivisionError
    ensures r.Ok? ==> |r.value| == 2 && fresh(r.value[0]) && fresh(r.value[1]) && Named(r.value, name, pos)
    ensures r.Ok? ==> !r.value[0].isLinkDest && !r.value[1].isLinkDest
    ensures r.Ok? ==> r.value[0].comment == "DefaultSegment" && r.value[0].paramConfig == "KeyMoveMapParts"
    ensures r.Ok? ==> r.value[1].name == "RailDrawer" && |r.value[0].components.items| == 2 &&
                      r.value[0].components.items[0].KeyMoveNextComponent? &&
                      7.0 <= r.value[0].components.items[0].speed <= 15.0
  {
    var vx := env.rng.Uniform(-1.0, 1.0);
    var vy := env.rng.Uniform(-1.0, 1.0);
    var vz := env.rng.Uniform(-1.0, 1.0);
    var dir := Normalize(offset, env.length(offset));
    if dir.Err? {
      return Err(dir.error);
    }
    var p2 := Sub(Add(pos, Scale(Vec3(vx, vy, vz), 500.0)), Scale(dir.value, 750.0));
    var speed := env.rng.Uniform(7.0, 15.0);
    var objs := MovingPlatform(env, name, pos, p2, speed);
    objs[0].SetComment("DefaultSegment");
    r := Ok(objs);
  }

  /** `DefaultSegment.create_object`: a moving platform when the test holds,
      otherwise a fixed one; either way its comment is the class name. */
  method CreateDefault(env: Env, allowMoving: bool, name: string, pos: Vec3, isLast: bool, prev: Object,
                       offset: Vec3)
    returns (r: Result<seq<Object>>)
    requires env.Valid()
    modifies env.rng, env.ids, env.cache
    ensures env.Valid()
    ensures r.Ok? ==> Named(r.value, name, pos) && (forall o :: o in r.value ==> fresh(o) && !o.isLinkDest)
    ensures r.Ok? ==> r.value[0].comment == "DefaultSegment"
    ensures r.Ok? ==> (|r.value| == 2 <==>
                       allowMoving && !isLast && UniformOf(0.0, 1.0, env.rng.stream(old(env.rng.cursor))) < 0.4 &&
                       prev.paramConfig != "KeyMoveMapParts" && SmallCollision(env.cache, name))
    ensures r.Ok? && |r.value| != 2 ==> |r.value| == 1 && r.value[0].paramConfig == "FixMapParts"
    ensures r.Ok? && |r.value| == 2 ==>
              r.value[0].paramConfig == "KeyMoveMapParts" && r.value[1].name == "RailDrawer" &&
              |r.value[0].components.items| == 2 && r.value[0].components.items[0].KeyMoveNextComponent? &&
              7.0 <= r.value[0].components.items[0].speed <= 15.0
    ensures r.Err? ==> allowMoving && !isLast && prev.paramConfig != "KeyMoveMapParts" &&
                       ((env.cache.Lookup(name).Err? && r.error == env.cache.Lookup(name).error) ||
                        (env.cache.Lookup(name) == Ok(None) && r.error == AttributeError) ||
                        (env.length(offset) == 0.0 && r.error == ZeroDivisionError))
  {
    var moves := DefaultMoves(env, allowMoving, name, isLast, prev);
    if moves.Err? {
      return Err(moves.error);
    }
    if moves.value {
      r := DefaultMoving(env, name, pos, offset);
    } else {
      var o := CreateFixMapParts(env.ids, env.defaults, name, pos);
      o.SetComment("DefaultSegment");
      r := Ok([o]);
    }
  }

  /** `LavaBubbleSegment.create_object` outside the last platform: a draw
      below 0.5 makes a platform moving between `pos` and `pos + v*150` at a
      speed in [3, 6], otherwise a fixed one. */
  method CreateLavaBubble(env: Env, name: string, pos: Vec3) returns (objs: seq<Object>)
    requires env.ids.Valid()
    modifies env.rng, env.ids
    ensures env.ids.Valid()
    ensures Named(objs, name, pos) && forall o :: o in objs ==> fresh(o) && !o.isLinkDest
    ensures |objs| == 2 <==> env.rng.stream(old(env.rng.cursor)) < 0.5
    ensures |objs| != 2 ==> |objs| == 1 && objs[0].paramConfig == "FixMapParts"
    ensures |objs| == 2 ==> objs[0].paramConfig == "KeyMoveMapParts" && objs[1].name == "RailDrawer" &&
                            |objs[0].components.items| == 2 && objs[0].components.items[0].KeyMoveNextComponent? &&
                            3.0 <= objs[0].components.items[0].speed <= 6.0
  {
    var u := env.rng.Random();
    if u < 0.5 {
      var vx := env.rng.Uniform(-1.0, 1.0);
      var vy := env.rng.Uniform(-1.0, 1.0);
      var vz := env.rng.Uniform(-1.0, 1.0);
      var p2 := Add(pos, Scale(Vec3(vx, vy, vz), 150.0));
      var speed := env.rng.Uniform(3.0, 6.0);
      objs := MovingPlatform(env, name, pos, p2, speed);
    } else {
      var o := CreateFixMapParts(env.ids, env.defaults, name, pos);
      objs := [o];
    }
  }

  /** `PokioSegment.create_object` outside the last platform: a platform
      moving along +x by a distance in [250, 700], at a speed in [3, 6],
      without a rail. */
  method CreatePokio(env: Env, name: string, pos: Vec3) returns (objs: seq<Object>)
    requires env.ids.Valid()
    modifies env.rng, env.ids
    ensures env.ids.Valid()
    ensures |objs| == 1 && fresh(objs[0]) && !objs[0].isLinkDest
    ensures objs[0].name == name && objs[0].paramConfig == "KeyMoveMapParts" && objs[0].storedPos == pos
    ensures |objs[0].components.items| == 2 && objs[0].components.items[0].KeyMoveNextComponent? &&
            3.0 <= objs[0].components.items[0].speed <= 6.0
    ensures objs[0].linkset != null && objs[0].linkset.lists(KeyMoveNext).items != [] &&
            var p2 := objs[0].linkset.lists(KeyMoveNext).items[0].storedPos;
            p2.y == pos.y && p2.z == pos.z && pos.x + 250.0 <= p2.x <= pos.x + 700.0
  {
    var dx := env.rng.Uniform(250.0, 700.0);
    var p2 := Add(pos, Vec3(dx, 0.0, 0.0));
    var speed := env.rng.Uniform(3.0, 6.0);
    var o, link := CreateKeyMoveParts(env.ids, env.defaults, name, KeyMoveKey(Add(pos, Zero3), speed, 0),
                                      KeyMoveKey(p2, speed, 0));
    objs := [o];
  }

  /** The loop of `TimerSegment.create_object`: each platform becomes a link
      destination commented with the class name and joins the timer's targets. */
  method MarkTargets(objs: seq<Object>, l: ObjList)
    modifies objs, l
    ensures l.items == old(l.items) + objs
    ensures forall o :: o in objs ==> o.isLinkDest && o.comment == "TimerSegment" && o.linkset == old(o.linkset)
  {
    for i := 0 to |objs|
      invariant l.items == old(l.items) + objs[..i]
      invariant forall j :: 0 <= j < i ==> objs[j].isLinkDest && objs[j].comment == "TimerSegment"
      invariant forall o :: o in objs ==> o.linkset == old(o.linkset)
    {
      objs[i].SetIsLinkDest(true);
      objs[i].SetComment("TimerSegment");
      l.Append(objs[i]);
      assert objs[..i + 1] == objs[..i] + [objs[i]];
    }
    assert objs[..|objs|] == objs;
  }

  /** `MoeEyeSegment.initial_objects`: the Megane capture 50 above a point
      500 along x from the start, on a lift there and four lifts turned on
      edge around it, 150 away in each horizontal direction. */
  method MoeEyeStart(env: Env, start: Vec3) returns (objs: seq<Object>)
    requires env.ids.Valid()
    modifies env.ids
    ensures env.ids.Valid()
    ensures |objs| == 6 && forall o :: o in objs ==> fresh(o)
    ensures var p := Add(start, Vec3(500.0, 0.0, 0.0));
            objs[5].name == "Megane" && objs[5].paramConfig == "Megane" && objs[5].storedPos == Add(p, Vec3(0.0, 50.0, 0.0)) &&
            (forall i :: 0 <= i < 5 ==> objs[i].name == "SandWorldHomeLift000" && objs[i].paramConfig == "FixMapParts") &&
            objs[0].storedPos == p && objs[1].storedPos == Add(p, Vec3(0.0, 0.0, -150.0)) &&
            objs[2].storedPos == Add(p, Vec3(0.0, 0.0, 150.0)) && objs[3].storedPos == Add(p, Vec3(150.0, 0.0, 0.0)) &&
            objs[4].storedPos == Add(p, Vec3(-150.0, 0.0, 0.0))
  {
    var p := Add(start, Vec3(500.0, 0.0, 0.0));
    var capture := new Object(env.ids, "Megane", "Megane", Add(p, Vec3(0.0, 50.0, 0.0)), Unit3, Zero3, false,
                              env.defaults.components, null);
    var l0 := CreateFixMapParts(env.ids, env.defaults, "SandWorldHomeLift000", p);
    var l1 := CreateRotatedFixMapParts(env.ids, env.defaults, "SandWorldHomeLift000", Add(p, Vec3(0.0, 0.0, -150.0)),
                                       Vec3(90.0, 0.0, 0.0));
    var l2 := CreateRotatedFixMapParts(env.ids, env.defaults, "SandWorldHomeLift000", Add(p, Vec3(0.0, 0.0, 150.0)),
                                       Vec3(-90.0, 0.0, 0.0));
    var l3 := CreateRotatedFixMapParts(env.ids, env.defaults, "SandWorldHomeLift000", Add(p, Vec3(150.0, 0.0, 0.0)),
                                       Vec3(0.0, 0.0, 90.0));
    var l4 := CreateRotatedFixMapParts(env.ids, env.defaults, "SandWorldHomeLift000", Add(p, Vec3(-150.0, 0.0, 0.0)),
                                       Vec3(0.0, 0.0, -90.0));
    objs := [l0, l1, l2, l3, l4, capture];
  }

  /** `LavaBubbleSegment.initial_objects`: the bubble capture moving down 300
      onto a point 250 along x from the start, over a lava lane 350 below it. */
  method LavaBubbleStart(env: Env, start: Vec3) returns (objs: seq<Object>)
    requires env.ids.Valid()
    modifies env.ids
    ensures env.ids.Valid()
    ensures |objs| == 2 && fresh(objs[0]) && fresh(objs[1])
    ensures var p := Add(start, Vec3(250.0, 0.0, 0.0));
            objs[0].name == "TestCaptureBubble" && objs[0].paramConfig == "Bubble" &&
            objs[0].storedPos == Add(p, Vec3(0.0, 300.0, 0.0)) &&
            objs[0].linkset != null && objs[0].linkset.lists(MoveNext).items != [] &&
            objs[0].linkset.lists(MoveNext).items[0].storedPos == Add(p, Zero3) &&
            objs[1].name == "LavaWorldBubbleLaneExKeyMoveParts000" && objs[1].storedPos == Add(p, Vec3(0.0, -350.0, 0.0))
  {
    var p := Add(start, Vec3(250.0, 0.0, 0.0));
    var capture, link := CreateMoveNext(env.ids, env.defaults, "TestCaptureBubble", "Bubble",
                                        MoveNextKey(Add(p, Vec3(0.0, 300.0, 0.0)), 0, 10.0, 0),
                                        MoveNextKey(Add(p, Zero3), 120, 10.0, 60));
    var lava := CreateFixMapParts(env.ids, env.defaults, "LavaWorldBubbleLaneExKeyMoveParts000",
                                  Add(p, Vec3(0.0, -350.0, 0.0)));
    objs := [capture, lava];
  }

  /** `PokioSegment.initial_objects`: a platform at the start, the Tsukkun
      capture 150 above it and a wall 250 behind it. */
  method PokioStart(env: Env, start: Vec3) returns (objs: seq<Object>)
    requires env.ids.Valid()
    modifies env.ids
    ensures env.ids.Valid()
    ensures |objs| == 3 && forall o :: o in objs ==> fresh(o)
    ensures objs[0].name == "SeaWorldHomeSwitchKeyMoveParts000" && objs[0].storedPos == start
    ensures objs[1].name == "Tsukkun" && objs[1].storedPos == Add(start, Vec3(0.0, 150.0, 0.0)) &&
            objs[1].components.items == [CaptureComponent("EnemyCapTsukkun")]
    ensures objs[2].name == "SkyWorldHomeRotateParts000" && objs[2].storedPos == Add(start, Vec3(0.0, 0.0, -250.0))
  {
    var cc := new ComponentList([CaptureComponent("EnemyCapTsukkun")]);
    var capture := new Object(env.ids, "Tsukkun", "Tsukkun", Add(start, Vec3(0.0, 150.0, 0.0)), Unit3, Zero3, false,
                              cc, null);
    var wall := CreateFixMapParts(env.ids, env.defaults, "SkyWorldHomeRotateParts000", Add(start, Vec3(0.0, 0.0, -250.0)));
    var platform := CreateFixMapParts(env.ids, env.defaults, "SeaWorldHomeSwitchKeyMoveParts000", start);
    objs := [platform, capture, wall];
  }

  /** `create_object` of the moe-eye, lava and Pokio kinds: with one
      platform left, a fixed closing platform (a lift; a wobbling platform;
      a wobbling platform 1750 lower and 500 back); otherwise a Megane
      platform, `CreateLavaBubble` or `CreatePokio`. */
  method CreateClosing(env: Env, kind: Kind, last: bool, name: string, pos: Vec3) returns (objs: seq<Object>)
    requires kind in {MoeEye, LavaBubble, Pokio} && env.ids.Valid()
    modifies env.rng, env.ids
    ensures env.ids.Valid()
    ensures objs != [] && forall o :: o in objs ==> fresh(o)
    ensures !last ==> Named(objs, name, pos)
    ensures last && kind == MoeEye ==> objs == [objs[0]] && Named(objs, "SandWorldHomeLift001", pos)
    ensures last && kind == LavaBubble ==> objs == [objs[0]] && Named(objs, "LavaWorldHomeTimer002WobbleParts000", pos)
    ensures last && kind == Pokio ==>
              objs == [objs[0]] && Named(objs, "LavaWorldHomeTimer002WobbleParts000", Add(pos, Vec3(0.0, -1750.0, -500.0)))
    ensures last ==> objs[0].paramConfig == "FixMapParts" && env.rng.cursor == old(env.rng.cursor)
    ensures !last && kind == MoeEye ==> objs == [objs[0]] && objs[0].paramConfig == "MeganeMapParts"
  {
    if last {
      var closing := if kind == MoeEye then "SandWorldHomeLift001" else "LavaWorldHomeTimer002WobbleParts000";
      var at := if kind == Pokio then Add(pos, Vec3(0.0, -1750.0, -500.0)) else pos;
      var o := CreateFixMapParts(env.ids, env.defaults, closing, at);
      objs := [o];
    } else if kind == MoeEye {
      var o := new Object(env.ids, name, "MeganeMapParts", pos, Unit3, Zero3, false, env.defaults.components, null);
      objs := [o];
    } else if kind == LavaBubble {
      objs := CreateLavaBubble(env, name, pos);
    } else {
      objs := CreatePokio(env, name, pos);
    }
  }

  /** A segment: its kind, the kingdom's object names (used by the default
      and timer kinds), whether its default part may move platforms, the
      timer's unused `cappyless` flag, the platforms still to place and, for
      a timer segment once it has started, the `TrampleSwitchTimer` and the
      `switch_appear_target` list that collects the segment's platforms. */
  class Segment {
    const kind: Kind
    const kingdomObjects: seq<string>
    const allowMoving: bool
    const cappyless: bool
    var remaining: int
    var timerStart: Object?
    var targets: ObjList?

    /** A started timer segment's timer links its own, fresh target list. */
    ghost predicate Linked()
      reads this, timerStart, if timerStart != null then {timerStart.linkset} else {}
    {
      (timerStart == null <==> targets == null) &&
      (timerStart != null ==>
         kind == Timer && timerStart.linkset != null && timerStart.linkset.lists(SwitchAppearTarget) == targets)
    }

    /** The segment constructors as the generator's creators call them: a
        timer first draws `cappyless`, then its own count, then the count of
        the default segment inside it (which nothing reads); every other kind
        draws its count. */
    constructor(kind: Kind, kingdomObjects: seq<string>, allowMoving: bool, env: Env)
      modifies env.rng
      ensures this.kind == kind && this.kingdomObjects == kingdomObjects
      ensures this.allowMoving == (kind == Timer || allowMoving)
      ensures var c := old(env.rng.cursor);
              var (lo, hi) := CountRange(kind);
              remaining == lo + BelowOf(hi - lo + 1, env.rng.stream(if kind == Timer then c + 1 else c)) &&
              env.rng.cursor == c + (if kind == Timer then 3 else 1)
      ensures CountRange(kind).0 <= remaining <= CountRange(kind).1
      ensures kind == Timer ==> cappyless == [false, true][BelowOf(2, env.rng.stream(old(env.rng.cursor)))]
      ensures timerStart == null && targets == null && Linked()
    {
      var flag := false;
      if kind == Timer {
        var c := env.rng.Choice([false, true]);
        flag := c.value;
      }
      var (lo, hi) := CountRange(kind);
      var n := env.rng.RandInt(lo, hi);
      if kind == Timer {
        var inner := env.rng.RandInt(7, 11);
      }
      this.kind := kind;
      this.kingdomObjects := kingdomObjects;
      this.allowMoving := kind == Timer || allowMoving;
      cappyless := flag;
      remaining := n;
      timerStart := null;
      targets := null;
    }

    /** `object_set()`. */
    function ObjectSet(): (names: seq<string>)
      ensures kind == Default || kind == Timer ==> names == kingdomObjects
      ensures kind !in {Default, Timer} ==> |names| >= 1 && forall n :: n in names ==> n in MoeEyeObjects + LavaBubbleObjects + PokioObjects
    {
      match kind
      case Default => kingdomObjects
      case Timer => kingdomObjects
      case MoeEye => MoeEyeObjects
      case LavaBubble => LavaBubbleObjects
      case Pokio => PokioObjects
    }

    /** The capture type `jump_set()` passes to `get_all_jumps`. */
    function CaptureType(): Option<string>
    {
      match kind
      case LavaBubble => Some("TestCaptureBubble")
      case Pokio => Some("Pokio")
      case _ => None
    }

    /** `jump_set()`. */
    function JumpSet(env: Env): seq<JumpData>
    {
      env.jumps(CaptureType())
    }

    predicate IsDone()
      reads this
    {
      remaining <= 0
    }

    predicate IsLastObj()
      reads this
    {
      remaining == 1
    }

    method Decrement()
      modifies this
      ensures remaining == old(remaining) - 1
      ensures timerStart == old(timerStart) && targets == old(targets)
    {
      remaining := remaining - 1;
    }

    /** `increment_num_objs_remaining`: one more platform to place; a timer
        segment also takes the last platform back out of its timer's
        targets, and raises when it never started. */
    method Increment() returns (r: Result<()>)
      requires Linked()
      modifies this, targets
      ensures remaining == old(remaining) + 1
      ensures timerStart == old(timerStart) && targets == old(targets) && Linked()
      ensures kind != Timer ==> r.Ok? && targets == null
      ensures kind == Timer && targets == null ==> r == Err(AttributeError)
      ensures kind == Timer && targets != null ==>
                r.Ok? &&
                targets.items == if old(targets.items) == [] then [] else old(targets.items)[..|old(targets.items)| - 1]
    {
      remaining := remaining + 1;
      if kind != Timer {
        return Ok(());
      }
      if timerStart == null {
        return Err(AttributeError);
      }
      var l := timerStart.linkset.lists(SwitchAppearTarget);
      l.DropLast();
      r := Ok(());
    }

    /** `get_jump_scale`: the base draws a value and then a scale in [0.8, 1.1]
        one time in five, in [0.4, 0.9] otherwise; the other kinds override it. */
    method JumpScale(env: Env) returns (s: real)
      modifies env.rng
      ensures var c := old(env.rng.cursor);
              match kind
              case MoeEye => s == UniformOf(0.3, 0.4, env.rng.stream(c)) && env.rng.cursor == c + 1
              case LavaBubble => s == UniformOf(0.8, 1.0, env.rng.stream(c)) && env.rng.cursor == c + 1
              case Pokio => s == UniformOf(0.8, 1.0, env.rng.stream(c)) && env.rng.cursor == c + 1
              case _ => env.rng.cursor == c + 2 &&
                        s == if env.rng.stream(c) < 1.0 / 5.0 then UniformOf(0.8, 1.1, env.rng.stream(c + 1))
                             else UniformOf(0.4, 0.9, env.rng.stream(c + 1))
      ensures 0.3 <= s <= 1.1
    {
      match kind
      case MoeEye => s := env.rng.Uniform(0.3, 0.4);
      case LavaBubble => s := env.rng.Uniform(0.8, 1.0);
      case Pokio => s := env.rng.Uniform(0.8, 1.0);
      case _ =>
        var u := env.rng.Random();
        if u < 1.0 / 5.0 {
          s := env.rng.Uniform(0.8, 1.1);
        } else {
          s := env.rng.Uniform(0.4, 0.9);
        }
    }

    /** `get_random_jump_y_rotation`: a uniform turn, or none for Pokio. */
    method YRotation(env: Env) returns (rot: Rotation)
      modifies env.rng
      ensures OnUnitCircle(rot)
      ensures kind == Pokio ==> rot == Rotation(1.0, 0.0) && env.rng.cursor == old(env.rng.cursor)
      ensures kind != Pokio ==> rot == env.rng.turn(env.rng.stream(old(env.rng.cursor))) &&
                                env.rng.cursor == old(env.rng.cursor) + 1
    {
      if kind == Pokio {
        rot := Rotation(1.0, 0.0);
      } else {
        rot := env.rng.Turn();
      }
    }

    /** Pokio's own surface search applies to its own object names only. */
    predicate Pokes(name: string)
    {
      kind == Pokio && name in PokioObjects
    }

    /** `get_entry_pos_on_obj_surface`: a standable landing point and the
        normal the platform is pushed back along. Pokio lands on the lowest of
        twenty points facing +z, with no push. */
    method EntryPos(name: string, col: Option<CollisionData>, env: Env)
      returns (r: Result<(Vec3, Vec3)>, ghost samples: seq<Vec3>)
      modifies env.rng
      ensures col.None? ==> r == Err(AttributeError)
      ensures !Pokes(name) && r.Ok? ==>
                col.Some? && r.value.1 == Up && Standable(col.value, r.value.0, MarioRadius, Up, env.cos45)
      ensures Pokes(name) && r.Ok? ==>
                col.Some? && r.value.1 == Zero && |samples| == PokioSamples && Lowest(samples) == Ok(r.value.0) &&
                Standable(col.value, r.value.0, MarioRadius, Forward, env.cos45)
    {
      samples := [];
      if !Pokes(name) {
        var p := StandableOn(col, env, Up);
        if p.Err? {
          return Err(p.error), samples;
        }
        return Ok((p.value, Up)), samples;
      }
      var ps := PokeablePositions(col, env);
      if ps.Err? {
        return Err(ps.error), samples;
      }
      samples := ps.value;
      var low := Lowest(ps.value);
      r := Ok((low.value, Zero));
    }

    /** `get_exit_pos_on_obj_surface`: a standable take-off point. Pokio
        leaves from the highest of twenty points facing +z. */
    method ExitPos(name: string, col: Option<CollisionData>, env: Env)
      returns (r: Result<Vec3>, ghost samples: seq<Vec3>)
      modifies env.rng
      ensures col.None? ==> r == Err(AttributeError)
      ensures !Pokes(name) && r.Ok? ==> col.Some? && Standable(col.value, r.value, MarioRadius, Up, env.cos45)
      ensures Pokes(name) && r.Ok? ==>
                col.Some? && |samples| == PokioSamples && Highest(samples) == r &&
                Standable(col.value, r.value, MarioRadius, Forward, env.cos45)
    {
      samples := [];
      if !Pokes(name) {
        r := StandableOn(col, env, Up);
        return;
      }
      var ps := PokeablePositions(col, env);
      if ps.Err? {
        return Err(ps.error), samples;
      }
      samples := ps.value;
      r := Highest(ps.value);
    }

    /** `TimerSegment.create_object`: the platforms of its default segment,
        each made a link destination commented with the class name and added
        to the timer's targets; a timer that never started raises. */
    method CreateTimed(env: Env, name: string, pos: Vec3, isLast: bool, prev: Object, offset: Vec3)
      returns (r: Result<seq<Object>>)
      requires kind == Timer && env.Valid() && Linked()
      modifies env.rng, env.ids, env.cache, targets
      ensures env.Valid() && Linked()
      ensures r.Ok? ==> Named(r.value, name, pos) && forall o :: o in r.value ==> fresh(o)
      ensures r.Ok? ==> targets != null && targets.items == old(targets.items) + r.value &&
                        forall o :: o in r.value ==> o.isLinkDest && o.comment == "TimerSegment"
      ensures targets == null ==> r.Err?
      ensures r.Err? && targets != null ==> targets.items == old(targets.items)
    {
      var inner := CreateDefault(env, true, name, pos, isLast, prev, offset);
      if inner.Err? {
        return inner;
      }
      if timerStart == null {
        return Err(AttributeError);
      }
      forall i | 0 <= i < |inner.value|
        ensures fresh(inner.value[i])
      {
        assert inner.value[i] in inner.value;
      }
      MarkTargets(inner.value, timerStart.linkset.lists(SwitchAppearTarget));
      r := inner;
    }

    /** `create_object`: the platforms for a landing position, first the one
        the jump lands on (`CreateDefault`, `CreateTimed`, `CreateClosing`). */
    method CreateObject(env: Env, name: string, pos: Vec3, isLast: bool, prev: Object, offset: Vec3)
      returns (r: Result<seq<Object>>)
      requires env.Valid() && Linked()
      modifies env.rng, env.ids, env.cache, targets
      ensures env.Valid() && Linked()
      ensures r.Ok? ==> r.value != [] && forall o :: o in r.value ==> fresh(o)
      ensures r.Ok? && (kind in {Default, Timer} || !IsLastObj()) ==> Named(r.value, name, pos)
      ensures r.Ok? && kind == Timer ==>
                targets != null && targets.items == old(targets.items) + r.value &&
                forall o :: o in r.value ==> o.isLinkDest && o.comment == "TimerSegment"
      ensures kind == Timer && targets == null ==> r.Err?
      ensures kind == Timer && r.Err? && targets != null ==> targets.items == old(targets.items)
      ensures r.Err? ==> kind in {Default, Timer}
    {
      match kind
      case Default =>
        r := CreateDefault(env, allowMoving, name, pos, isLast, prev, offset);
      case Timer =>
        r := CreateTimed(env, name, pos, isLast, prev, offset);
      case _ =>
        var objs := CreateClosing(env, kind, remaining == 1, name, pos);
        r := Ok(objs);
    }

    /** The timer of `TimerSegment.initial_objects`: a trample switch timer
        of 30 * 60 frames, 200 below the start, whose `switch_appear_target`
        is rebound to a fresh empty list so that its targets are not appended
        to the shared default. */
    method StartTimer(env: Env, start: Vec3) returns (timer: Object)
      requires kind == Timer && env.ids.Valid()
      modifies this, env.ids
      ensures env.ids.Valid() && Linked() && remaining == old(remaining)
      ensures fresh(timer) && timerStart == timer && fresh(targets) && targets.items == []
      ensures timer.name == "TrampleSwitchTimer" && timer.storedPos == Sub(start, Vec3(0.0, 200.0, 0.0))
      ensures timer.components.items == [CapRackTimerComponent(1800)]
    {
      timer := CreateTrampleSwitchTimer(env.ids, Sub(start, Vec3(0.0, 200.0, 0.0)), 30 * 60);
      var ls := timer.GetLinkset(env.defaults);
      var l := new ObjList([]);
      ls.Assign(SwitchAppearTarget, l);
      timerStart := timer;
      targets := l;
    }

    /** `initial_objects`: what a segment places where it starts. A timer
        segment places its timer 200 below the start and gives it a fresh
        target list; the other kinds are `MoeEyeStart`, `LavaBubbleStart`
        and `PokioStart`; the default kind places nothing. */
    method InitialObjects(env: Env, start: Vec3) returns (objs: seq<Object>)
      requires env.Valid() && Linked()
      modifies this, env.ids
      ensures env.Valid() && Linked()
      ensures remaining == old(remaining)
      ensures forall o :: o in objs ==> fresh(o)
      ensures kind != Timer ==> timerStart == old(timerStart) && targets == old(targets)
      ensures kind == Default ==> objs == []
      ensures kind == Timer ==>
                objs == [timerStart] && fresh(targets) && targets.items == [] &&
                timerStart.name == "TrampleSwitchTimer" && timerStart.storedPos == Sub(start, Vec3(0.0, 200.0, 0.0)) &&
                timerStart.components.items == [CapRackTimerComponent(1800)]
      ensures kind == MoeEye ==> |objs| == 6 && objs[5].name == "Megane"
      ensures kind == LavaBubble ==> |objs| == 2 && objs[0].name == "TestCaptureBubble"
      ensures kind == Pokio ==> |objs| == 3 && objs[1].name == "Tsukkun"
    {
      match kind
      case Default =>
        objs := [];
      case Timer =>
        var timer := StartTimer(env, start);
        objs := [timer];
      case MoeEye =>
        objs := MoeEyeStart(env, start);
      case LavaBubble =>
        objs := LavaBubbleStart(env, start);
      case Pokio =>
        objs := PokioStart(env, start);
    }
  }
}
