/** `Generator` (src/generator/generator.py): the stage is grown one jump at
    a time from a starting platform. Each new platform is placed where a
    random jump from the previous one lands; a jump that would pass through a
    platform, or whose platform an earlier jump would pass through, is
    retried. After 100 failed tries the generator steps back one platform, or
    back to the start of the current zone when the step would cross it. */
module Generation {
  import opened Wrappers
  import opened Strings
  import opened Vec
  import opened Rng
  import opened Kcl
  import opened Stage
  import opened Datasets
  import opened Trajectories
  import opened Segments

  // ------------------------------------------------------------ history

  /** The lists `generate` keeps: the platform groups (each the objects one
      `create_object` returned, or one initial object with collision), the
      jumps, and for every zone boundary not yet reverted the number of
      groups and of jumps at that boundary. */
  datatype Snapshot = Snapshot(objs: seq<seq<Object>>, jumps: seq<Jump>, zoneObjs: seq<nat>, zoneJumps: seq<nat>)

  /** What generation keeps true: the starting platform is there, no group is
      empty, and the boundaries are paired, ordered, at least one group in
      and within the lists. */
  predicate WellFormed(s: Snapshot)
  {
    |s.objs| >= 1 && (forall i :: 0 <= i < |s.objs| ==> s.objs[i] != []) &&
    |s.zoneObjs| == |s.zoneJumps| &&
    (forall i :: 0 <= i < |s.zoneObjs| ==> 1 <= s.zoneObjs[i] <= |s.objs| && s.zoneJumps[i] <= |s.jumps|) &&
    (forall i, k :: 0 <= i < k < |s.zoneObjs| ==> s.zoneObjs[i] <= s.zoneObjs[k] && s.zoneJumps[i] <= s.zoneJumps[k])
  }

  /** A found jump and its platforms appended. */
  function Committed(s: Snapshot, g: seq<Object>, j: Jump): Snapshot
  {
    s.(objs := s.objs + [g], jumps := s.jumps + [j])
  }

  /** Initial objects appended, one group each. */
  function Extended(s: Snapshot, gs: seq<seq<Object>>): Snapshot
  {
    s.(objs := s.objs + gs)
  }

  /** A zone boundary recorded at the current lengths. */
  function Checkpointed(s: Snapshot): Snapshot
  {
    s.(zoneObjs := s.zoneObjs + [|s.objs|], zoneJumps := s.zoneJumps + [|s.jumps|])
  }

  /** `xs[:n]`, which stops at the end of the list. */
  function Take<T>(xs: seq<T>, n: nat): seq<T>
  {
    if n <= |xs| then xs[..n] else xs
  }

  datatype RevertKind = StepBack | ZoneBack

  /** The revert after 100 failed tries: with a group and a jump past the
      last boundary, drop the last of each; otherwise cut both lists back to
      the boundary and forget it. `[-1]` of an empty boundary list raises. */
  function Reverted(s: Snapshot): Result<(Snapshot, RevertKind)>
  {
    if s.zoneObjs == [] then Err(IndexError)
    else
      var zo := s.zoneObjs[|s.zoneObjs| - 1];
      if |s.objs| > zo && s.zoneJumps == [] then Err(IndexError)
      else if |s.objs| > zo && |s.jumps| > s.zoneJumps[|s.zoneJumps| - 1] then
        Ok((s.(objs := s.objs[..|s.objs| - 1], jumps := s.jumps[..|s.jumps| - 1]), StepBack))
      else if s.zoneJumps == [] then Err(IndexError)
      else
        var zj := s.zoneJumps[|s.zoneJumps| - 1];
        Ok((Snapshot(Take(s.objs, zo), Take(s.jumps, zj), s.zoneObjs[..|s.zoneObjs| - 1],
                     s.zoneJumps[..|s.zoneJumps| - 1]), ZoneBack))
  }

  lemma CommittedWellFormed(s: Snapshot, g: seq<Object>, j: Jump)
    requires WellFormed(s) && g != []
    ensures WellFormed(Committed(s, g, j))
  {
    var t := Committed(s, g, j);
    forall i | 0 <= i < |t.objs|
      ensures t.objs[i] != []
    {
      if i < |s.objs| {
        assert t.objs[i] == s.objs[i];
      }
    }
  }

  lemma ExtendedWellFormed(s: Snapshot, gs: seq<seq<Object>>)
    requires WellFormed(s) && forall i :: 0 <= i < |gs| ==> gs[i] != []
    ensures WellFormed(Extended(s, gs))
  {
    var t := Extended(s, gs);
    forall i | 0 <= i < |t.objs|
      ensures t.objs[i] != []
    {
      if i < |s.objs| {
        assert t.objs[i] == s.objs[i];
      } else {
        assert t.objs[i] == gs[i - |s.objs|];
      }
    }
  }

  lemma CheckpointedWellFormed(s: Snapshot)
    requires WellFormed(s)
    ensures WellFormed(Checkpointed(s))
  {
    var t := Checkpointed(s);
    forall i, k | 0 <= i < k < |t.zoneObjs|
      ensures t.zoneObjs[i] <= t.zoneObjs[k] && t.zoneJumps[i] <= t.zoneJumps[k]
    {
      if k == |s.zoneObjs| {
        assert t.zoneObjs[i] == s.zoneObjs[i] && t.zoneJumps[i] == s.zoneJumps[i];
      }
    }
  }

  /** A revert of a well-formed history fails exactly when no boundary is
      left, keeps the history well formed, never removes the starting
      platform, and never goes back past the last boundary: a step leaves at
      least its groups, a zone revert exactly its groups. */
  lemma RevertedWellFormed(s: Snapshot)
    requires WellFormed(s)
    ensures Reverted(s).Err? <==> s.zoneObjs == []
    ensures Reverted(s).Ok? ==>
              var (t, kind) := Reverted(s).value;
              var zo := s.zoneObjs[|s.zoneObjs| - 1];
              WellFormed(t) && t.objs[0] == s.objs[0] &&
              (kind == StepBack ==> |t.objs| == |s.objs| - 1 >= zo && t.zoneObjs == s.zoneObjs) &&
              (kind == ZoneBack ==> |t.objs| == zo && |t.zoneObjs| == |s.zoneObjs| - 1)
  {
    if s.zoneObjs != [] {
      var n := |s.zoneObjs| - 1;
      var zo := s.zoneObjs[n];
      var zj := s.zoneJumps[n];
      var (t, kind) := Reverted(s).value;
      if kind == StepBack {
        forall i | 0 <= i < |t.objs|
          ensures t.objs[i] != []
        {
          assert t.objs[i] == s.objs[i];
        }
        forall i | 0 <= i < |t.zoneObjs|
          ensures t.zoneObjs[i] <= |t.objs| && t.zoneJumps[i] <= |t.jumps|
        {
          if i < n {
            assert s.zoneObjs[i] <= zo && s.zoneJumps[i] <= zj;
          }
        }
      } else {
        assert t.objs == s.objs[..zo] && t.jumps == s.jumps[..zj];
        forall i | 0 <= i < |t.objs|
          ensures t.objs[i] != []
        {
          assert t.objs[i] == s.objs[i];
        }
        forall i | 0 <= i < |t.zoneObjs|
          ensures 1 <= t.zoneObjs[i] <= |t.objs| && t.zoneJumps[i] <= |t.jumps|
        {
          assert t.zoneObjs[i] == s.zoneObjs[i] && t.zoneJumps[i] == s.zoneJumps[i];
          assert s.zoneObjs[i] <= zo && s.zoneJumps[i] <= zj;
        }
        forall i, k | 0 <= i < k < |t.zoneObjs|
          ensures t.zoneObjs[i] <= t.zoneObjs[k] && t.zoneJumps[i] <= t.zoneJumps[k]
        {
          assert t.zoneObjs[i] == s.zoneObjs[i] && t.zoneObjs[k] == s.zoneObjs[k];
          assert t.zoneJumps[i] == s.zoneJumps[i] && t.zoneJumps[k] == s.zoneJumps[k];
        }
      }
    }
  }

  /** Inside a zone, the revert takes back exactly the last jump found. */
  lemma RevertUndoesCommit(s: Snapshot, g: seq<Object>, j: Jump)
    requires WellFormed(s) && s.zoneObjs != []
    ensures Reverted(Committed(s, g, j)) == Ok((s, StepBack))
  {
    var t := Committed(s, g, j);
    var n := |s.zoneObjs| - 1;
    assert t.zoneObjs[n] <= |s.objs| < |t.objs|;
    assert t.zoneJumps[n] <= |s.jumps| < |t.jumps|;
    assert t.objs[..|t.objs| - 1] == s.objs;
    assert t.jumps[..|t.jumps| - 1] == s.jumps;
  }

  /** When the first jump of a zone fails, the revert removes the zone's
      initial objects and its boundary, restoring the history as it was
      before the zone started. */
  lemma RevertUndoesZoneStart(s: Snapshot, gs: seq<seq<Object>>)
    requires WellFormed(s)
    ensures Reverted(Extended(Checkpointed(s), gs)) == Ok((s, ZoneBack))
  {
    var t := Extended(Checkpointed(s), gs);
    var n := |s.zoneObjs|;
    assert t.zoneObjs[n] == |s.objs| && t.zoneJumps[n] == |s.jumps| == |t.jumps|;
    assert t.zoneObjs[..n] == s.zoneObjs && t.zoneJumps[..n] == s.zoneJumps;
    assert Take(t.objs, |s.objs|) == s.objs;
    assert Take(t.jumps, |s.jumps|) == s.jumps;
  }

  /** The lists, the boundaries and the zone names of one `generate` run,
      changed in place by the loop and by `__find_new_jump`. */
  class History {
    var objs: seq<seq<Object>>
    var jumps: seq<Jump>
    var zoneObjs: seq<nat>
    var zoneJumps: seq<nat>

    function Snap(): Snapshot
      reads this
    {
      Snapshot(objs, jumps, zoneObjs, zoneJumps)
    }

    /** `objs = [[start]]`, `jumps = []` and no boundary yet. */
    constructor(start: Object)
      ensures Snap() == Snapshot([[start]], [], [], []) && WellFormed(Snap())
    {
      objs := [[start]];
      jumps := [];
      zoneObjs := [];
      zoneJumps := [];
    }

    method Commit(g: seq<Object>, j: Jump)
      modifies this
      ensures Snap() == Committed(old(Snap()), g, j)
    {
      objs := objs + [g];
      jumps := jumps + [j];
    }

    method AddGroup(g: seq<Object>)
      modifies this
      ensures Snap() == Extended(old(Snap()), [g])
    {
      objs := objs + [g];
    }

    method Checkpoint()
      modifies this
      ensures Snap() == Checkpointed(old(Snap()))
    {
      zoneObjs := zoneObjs + [|objs|];
      zoneJumps := zoneJumps + [|jumps|];
    }

    /** The revert at the end of `__find_new_jump`, in place. */
    method Revert() returns (r: Result<RevertKind>)
      modifies this
      ensures Reverted(old(Snap())).Err? ==> r == Err(Reverted(old(Snap())).error) && Snap() == old(Snap())
      ensures Reverted(old(Snap())).Ok? ==>
                r == Ok(Reverted(old(Snap())).value.1) && Snap() == Reverted(old(Snap())).value.0
    {
      var rv := Reverted(Snap());
      if rv.Err? {
        return Err(rv.error);
      }
      objs, jumps, zoneObjs, zoneJumps := rv.value.0.objs, rv.value.0.jumps, rv.value.0.zoneObjs, rv.value.0.zoneJumps;
      r := Ok(rv.value.1);
    }
  }

  // ------------------------------------------------------------ placement

  /** `jump_start_pos + jump_offset - local_object_jump_landing_pos -
      entry_normal*(MARIO_RADIUS+1)`: where to put the new platform. */
  function Placement(start: Vec3, offset: Vec3, landing: Vec3, normal: Vec3): (p: Vec3)
  {
    Sub(Sub(Add(start, offset), landing), Scale(normal, MarioRadius + 1.0))
  }

  /** The placement puts the landing point, pushed out along the entry normal
      by one more than Mario's radius, exactly at the end of the jump. */
  lemma PlacementLands(start: Vec3, offset: Vec3, landing: Vec3, normal: Vec3)
    ensures Add(Add(Placement(start, offset, landing, normal), landing), Scale(normal, MarioRadius + 1.0)) ==
            Add(start, offset)
  {
  }

  /** `random.random() < distance / 35_000`: the try is dropped. */
  predicate Culled(u: Unit, distance: real)
  {
    u < distance / CullDistance
  }

  const CullDistance: real := 35000.0

  /** A platform 35000 or more away is always dropped; one at the start never
      is; and a draw that drops a platform drops every farther one. */
  lemma CulledBounds(u: Unit, d: real, e: real)
    ensures d >= CullDistance ==> Culled(u, d)
    ensures d <= 0.0 ==> !Culled(u, d)
    ensures Culled(u, d) && d <= e ==> Culled(u, e)
  {
  }

  // ------------------------------------------------------------ finding a jump

  /** `is_last_obj` forces the final platform. */
  const FinalObject: string := "LavaWorldWireStep000"

  /** The number of tries before `__find_new_jump` reverts. */
  const Tries: nat := 100

  /** The created platforms are placed at the requested position: every kind
      but the closing platforms of the moe-eye, lava and Pokio kinds. */
  predicate PlacesAsAsked(seg: Segment)
    reads seg
  {
    seg.kind in {Default, Timer} || !seg.IsLastObj()
  }

  /** The drawn part of one try: the platform, the previous platform and the
      take-off point on it, the turned and scaled jump, and the landing point
      and normal on the new platform that place it. */
  datatype Plan = Plan(name: string, prev: Object, start: Vec3, rot: Rotation, mario: Trajectory,
                       offset: Vec3, landing: Vec3, normal: Vec3)
  {
    function Pos(): Vec3
    {
      Placement(start, offset, landing, normal)
    }
  }

  /** The draws of one try of `__find_new_jump`'s loop that pick the jump:
      the platform (the final one on the last try of a stage), a jump from
      the segment's set, its turn and its scale. Mario's path is the scaled
      jump, starting at the origin, and the offset its turned end point. */
  method DrawJump(env: Env, seg: Segment, isLast: bool)
    returns (r: Result<(string, Rotation, Trajectory, Vec3)>)
    modifies env.rng
    ensures r.Ok? ==>
              var (name, rot, mario, offset) := r.value;
              (isLast ==> name == FinalObject) &&
              mario.points != [] && mario.points[0] == Zero &&
              offset == RotateY(mario.points[|mario.points| - 1], rot)
  {
    var name := FinalObject;
    if !isLast {
      var c := env.rng.Choice(seg.ObjectSet());
      if c.Err? {
        return Err(c.error);
      }
      name := c.value;
    }
    var jt := env.rng.Choice(seg.JumpSet(env));
    if jt.Err? {
      return Err(jt.error);
    }
    var rot := seg.YRotation(env);
    var scale := seg.JumpScale(env);
    var base := FromPoints(jt.value.mario);
    if base.Err? {
      return Err(base.error);
    }
    FromPointsNormalises(jt.value.mario);
    ScaledKeepsOrigin(base.value, scale);
    var mario := Scaled(base.value, scale);
    r := Ok((name, rot, mario, RotateY(mario.points[|mario.points| - 1], rot)));
  }

  /** `get_exit_pos_on_obj_surface` and `get_entry_pos_on_obj_surface` of
      one try, on the collisions the cache yields: the take-off point on the
      last platform, and the landing point and normal on the new one. */
  method Surfaces(env: Env, seg: Segment, prev: Object, name: string) returns (r: Result<(Vec3, Vec3, Vec3)>)
    requires env.Valid()
    modifies env.rng, env.cache
    ensures env.Valid()
  {
    var prevCol := env.cache.Get(prev.name);
    if prevCol.Err? {
      return Err(prevCol.error);
    }
    var exit, _ := seg.ExitPos(prev.name, prevCol.value, env);
    if exit.Err? {
      return Err(exit.error);
    }
    var col := env.cache.Get(name);
    if col.Err? {
      return Err(col.error);
    }
    var entry, _ := seg.EntryPos(name, col.value, env);
    if entry.Err? {
      return Err(entry.error);
    }
    r := Ok((Add(prev.Pos(), exit.value), entry.value.0, entry.value.1));
  }

  /** The draws of one try before the placement. */
  method PlanJump(env: Env, hist: History, seg: Segment, isLast: bool) returns (r: Result<Plan>)
    requires env.Valid() && WellFormed(hist.Snap())
    modifies env.rng, env.cache
    ensures env.Valid()
    ensures r.Ok? ==>
              var p := r.value;
              (isLast ==> p.name == FinalObject) &&
              p.prev == hist.objs[|hist.objs| - 1][0] &&
              p.mario.points != [] && p.mario.points[0] == Zero &&
              p.offset == RotateY(p.mario.points[|p.mario.points| - 1], p.rot)
  {
    var drawn := DrawJump(env, seg, isLast);
    if drawn.Err? {
      return Err(drawn.error);
    }
    var (name, rot, mario, offset) := drawn.value;
    var prev := hist.objs[|hist.objs| - 1][0];
    var surf := Surfaces(env, seg, prev, name);
    if surf.Err? {
      return Err(surf.error);
    }
    r := Ok(Plan(name, prev, surf.value.0, rot, mario, offset, surf.value.1, surf.value.2));
  }

  /** One try of `__find_new_jump`'s loop: plan the jump, drop the try by
      distance, build the platforms and test the jump. A try found returns
      the platforms and the jump: it starts on the previous platform, ends on
      the new one, passes no earlier platform and no earlier jump passes its
      platform; and a platform placed as asked puts its landing point, pushed
      out along the normal, at the end of the jump and is less than 35000
      from the player's start. `made` is what this try built (a timer
      segment links it whether or not the try is kept). */
  method TryJump(env: Env, hist: History, seg: Segment, isLast: bool, playerStart: Vec3)
    returns (r: Result<Option<(seq<Object>, Jump)>>, ghost made: seq<Object>, ghost landing: Vec3, ghost normal: Vec3)
    requires env.Valid() && seg.Linked() && WellFormed(hist.Snap())
    modifies env.rng, env.ids, env.cache, seg.targets
    ensures env.Valid() && seg.Linked()
    ensures forall o :: o in made ==> fresh(o)
    ensures seg.kind == Timer && seg.targets != null ==> seg.targets.items == old(seg.targets.items) + made
    ensures r.Ok? && r.value.Some? ==>
              var (g, j) := r.value.value;
              g == made && g != [] && j.obj1 == hist.objs[|hist.objs| - 1][0] && j.obj2 == g[0] &&
              j.mario == j.cappy && j.mario.points != [] && j.mario.points[0] == Zero &&
              IsPossible(j, hist.objs, hist.jumps, env.cache) == Ok(true)
    ensures r.Ok? && r.value.Some? && PlacesAsAsked(seg) ==>
              var (g, j) := r.value.value;
              j.mario.points != [] &&
              Add(j.start, RotateY(j.mario.points[|j.mario.points| - 1], j.rot)) ==
                Add(Add(g[0].storedPos, landing), Scale(normal, MarioRadius + 1.0)) &&
              env.length(Sub(g[0].storedPos, playerStart)) < CullDistance
  {
    made, landing, normal := [], Zero, Zero;
    var plan := PlanJump(env, hist, seg, isLast);
    if plan.Err? {
      return Err(plan.error), made, landing, normal;
    }
    var p := plan.value;
    landing, normal := p.landing, p.normal;
    PlacementLands(p.start, p.offset, p.landing, p.normal);
    var u := env.rng.Random();
    if Culled(u, env.length(Sub(p.Pos(), playerStart))) {
      return Ok(None), made, landing, normal;
    }
    var created := seg.CreateObject(env, p.name, p.Pos(), isLast, p.prev, p.offset);
    if created.Err? {
      return Err(created.error), made, landing, normal;
    }
    made := created.value;
    var j := Jump(p.prev, created.value[0], p.start, p.rot, p.mario, p.mario);
    var possible := IsPossible(j, hist.objs, hist.jumps, env.cache);
    if possible.Err? {
      return Err(possible.error), made, landing, normal;
    }
    if !possible.value {
      return Ok(None), made, landing, normal;
    }
    r := Ok(Some((created.value, j)));
  }

  /** `l[:] = l[:-1]` as a value. */
  function DropLast<T>(xs: seq<T>): seq<T>
  {
    if xs == [] then [] else xs[..|xs| - 1]
  }

  /** `__find_new_jump`: up to 100 tries; the first try found is returned and
      changes no list. When every try fails the history is reverted and a
      step back gives the segment its platform back. A timer segment's
      targets gain everything any try built (`linked`), the found platforms
      last, and a step back then drops the last target. */
  method FindNewJump(env: Env, hist: History, seg: Segment, isLast: bool, playerStart: Vec3)
    returns (r: Result<Option<(seq<Object>, Jump)>>, ghost linked: seq<Object>)
    requires env.Valid() && seg.Linked() && WellFormed(hist.Snap())
    modifies env.rng, env.ids, env.cache, seg, seg.targets, hist
    ensures env.Valid() && seg.Linked()
    ensures seg.timerStart == old(seg.timerStart) && seg.targets == old(seg.targets)
    ensures forall o :: o in linked ==> fresh(o)
    ensures r.Ok? ==> WellFormed(hist.Snap()) && hist.objs[0] == old(hist.objs[0])
    ensures r.Ok? && r.value.Some? ==>
              var (g, j) := r.value.value;
              hist.Snap() == old(hist.Snap()) && seg.remaining == old(seg.remaining) &&
              g != [] && j.obj1 == hist.objs[|hist.objs| - 1][0] && j.obj2 == g[0] &&
              IsPossible(j, hist.objs, hist.jumps, env.cache) == Ok(true) &&
              |g| <= |linked| && linked[|linked| - |g|..] == g
    ensures r.Ok? && r.value.None? ==>
              Reverted(old(hist.Snap())).Ok? && hist.Snap() == Reverted(old(hist.Snap())).value.0 &&
              seg.remaining == old(seg.remaining) + (if Reverted(old(hist.Snap())).value.1 == StepBack then 1 else 0)
    ensures r.Ok? && seg.kind == Timer && seg.targets != null ==>
              seg.targets.items ==
                if r.value.None? && Reverted(old(hist.Snap())).value.1 == StepBack
                then DropLast(old(seg.targets.items) + linked)
                else old(seg.targets.items) + linked
  {
    linked := [];
    for i := 0 to Tries
      invariant env.Valid() && seg.Linked()
      invariant hist.Snap() == old(hist.Snap()) && seg.remaining == old(seg.remaining)
      invariant seg.timerStart == old(seg.timerStart) && seg.targets == old(seg.targets)
      invariant forall o :: o in linked ==> fresh(o)
      invariant seg.kind == Timer && seg.targets != null ==> seg.targets.items == old(seg.targets.items) + linked
    {
      var found, made, _, _ := TryJump(env, hist, seg, isLast, playerStart);
      linked := linked + made;
      if found.Err? {
        return Err(found.error), linked;
      }
      if found.value.Some? {
        assert linked[|linked| - |made|..] == made;
        return found, linked;
      }
    }
    var back := GiveUp(hist, seg);
    if back.Err? {
      return Err(back.error), linked;
    }
    r := Ok(None);
  }

  /** The end of `__find_new_jump` when every try failed: revert the
      history, and on a step back give the segment its platform back (a
      timer segment also drops its last target). */
  method GiveUp(hist: History, seg: Segment) returns (r: Result<()>)
    requires seg.Linked() && WellFormed(hist.Snap())
    modifies hist, seg, seg.targets
    ensures seg.Linked() && seg.timerStart == old(seg.timerStart) && seg.targets == old(seg.targets)
    ensures r.Ok? <==> Reverted(old(hist.Snap())).Ok? && (seg.kind == Timer && Reverted(old(hist.Snap())).value.1 == StepBack ==> seg.targets != null)
    ensures r.Ok? ==>
              hist.Snap() == Reverted(old(hist.Snap())).value.0 && WellFormed(hist.Snap()) &&
              hist.objs[0] == old(hist.objs[0]) &&
              seg.remaining == old(seg.remaining) + (if Reverted(old(hist.Snap())).value.1 == StepBack then 1 else 0)
    ensures r.Ok? && seg.kind == Timer && seg.targets != null ==>
              seg.targets.items ==
                if Reverted(old(hist.Snap())).value.1 == StepBack then DropLast(old(seg.targets.items))
                else old(seg.targets.items)
  {
    RevertedWellFormed(hist.Snap());
    var kind := hist.Revert();
    if kind.Err? {
      return Err(kind.error);
    }
    if kind.value == StepBack {
      r := seg.Increment();
      return;
    }
    r := Ok(());
  }

  // ------------------------------------------------------------ initial objects

  /** The groups `add_initial_objects` appends for a segment's initial
      objects: each object whose collision loads, on its own, in order. A
      load that fails stops the run. */
  function CollidingGroups(objs: seq<Object>, cache: CollisionCache): Result<seq<seq<Object>>>
    decreases |objs|
  {
    if objs == [] then Ok([])
    else
      match CollidingGroups(objs[..|objs| - 1], cache)
      case Err(e) => Err(e)
      case Ok(gs) =>
        match cache.Lookup(objs[|objs| - 1].name)
        case Err(e) => Err(e)
        case Ok(None) => Ok(gs)
        case Ok(Some(_)) => Ok(gs + [[objs[|objs| - 1]]])
  }

  /** One more object: its group is added when its collision loads. */
  lemma CollidingGroupsSnoc(objs: seq<Object>, o: Object, cache: CollisionCache)
    requires CollidingGroups(objs, cache).Ok?
    ensures CollidingGroups(objs + [o], cache) ==
              match cache.Lookup(o.name)
              case Err(e) => Err(e)
              case Ok(None) => CollidingGroups(objs, cache)
              case Ok(Some(_)) => Ok(CollidingGroups(objs, cache).value + [[o]])
  {
    assert (objs + [o])[..|objs|] == objs;
  }

  /** The run fails exactly when some load fails; otherwise every group is
      one object of the list whose collision loads, and every such object
      has its group. */
  lemma {:induction false} CollidingGroupsSpec(objs: seq<Object>, cache: CollisionCache)
    ensures var r := CollidingGroups(objs, cache);
            (r.Err? <==> exists i :: 0 <= i < |objs| && cache.Lookup(objs[i].name).Err?) &&
            (r.Ok? ==> |r.value| <= |objs| &&
                       (forall k :: 0 <= k < |r.value| ==>
                          |r.value[k]| == 1 && r.value[k][0] in objs && cache.Lookup(r.value[k][0].name).value.Some?) &&
                       (forall i :: 0 <= i < |objs| && cache.Lookup(objs[i].name).value.Some? ==> [objs[i]] in r.value))
    decreases |objs|
  {
    if objs != [] {
      var init := objs[..|objs| - 1];
      var last := objs[|objs| - 1];
      assert objs == init + [last];
      CollidingGroupsSpec(init, cache);
      assert forall i :: 0 <= i < |init| ==> init[i] == objs[i];
      if CollidingGroups(init, cache).Ok? {
        CollidingGroupsSnoc(init, last, cache);
      }
    }
  }

  /** The first half of `add_initial_objects`: the segment's initial
      objects, placed at the take-off point of the last platform. */
  method PlaceInitialObjects(env: Env, hist: History, seg: Segment) returns (r: Result<seq<Object>>)
    requires env.Valid() && seg.Linked() && WellFormed(hist.Snap())
    modifies env.rng, env.ids, env.cache, seg
    ensures env.Valid() && seg.Linked() && seg.remaining == old(seg.remaining)
    ensures seg.kind != Timer ==> seg.timerStart == old(seg.timerStart) && seg.targets == old(seg.targets)
    ensures seg.targets != old(seg.targets) ==> seg.targets != null && fresh(seg.targets)
    ensures r.Ok? ==> forall o :: o in r.value ==> fresh(o)
    ensures r.Ok? && seg.kind == Timer ==> r.value == [seg.timerStart] && seg.targets != null && seg.targets.items == []
    ensures r.Ok? && seg.kind == Default ==> r.value == []
  {
    var prev := hist.objs[|hist.objs| - 1][0];
    var col := env.cache.Get(prev.name);
    if col.Err? {
      return Err(col.error);
    }
    var exit, _ := seg.ExitPos(prev.name, col.value, env);
    if exit.Err? {
      return Err(exit.error);
    }
    var objs := seg.InitialObjects(env, Add(prev.Pos(), exit.value));
    r := Ok(objs);
  }

  /** The second half of `add_initial_objects`: every object whose
      collision loads joins the platform groups on its own. */
  method AddColliding(env: Env, hist: History, objs: seq<Object>) returns (r: Result<()>)
    requires env.Valid() && WellFormed(hist.Snap())
    modifies env.cache, hist
    ensures env.Valid()
    ensures r.Ok? <==> CollidingGroups(objs, env.cache).Ok?
    ensures r.Ok? ==>
              hist.Snap() == Extended(old(hist.Snap()), CollidingGroups(objs, env.cache).value) &&
              WellFormed(hist.Snap()) && hist.objs[0] == old(hist.objs[0])
  {
    ghost var before := hist.Snap();
    ghost var gs: seq<seq<Object>> := [];
    for i := 0 to |objs|
      invariant env.cache.Valid()
      invariant CollidingGroups(objs[..i], env.cache) == Ok(gs)
      invariant hist.Snap() == Extended(before, gs)
    {
      var c := env.cache.Get(objs[i].name);
      CollidingGroupsSnoc(objs[..i], objs[i], env.cache);
      assert objs[..i + 1] == objs[..i] + [objs[i]];
      if c.Err? {
        assert objs[..i + 1] + objs[i + 1..] == objs;
        CollidingGroupsErr(objs[..i + 1], objs[i + 1..], env.cache);
        return Err(c.error);
      }
      if c.value.Some? {
        hist.AddGroup([objs[i]]);
        assert before.objs + gs + [[objs[i]]] == before.objs + (gs + [[objs[i]]]);
        gs := gs + [[objs[i]]];
      }
    }
    assert objs[..|objs|] == objs;
    CollidingGroupsSpec(objs, env.cache);
    ExtendedWellFormed(before, gs);
    r := Ok(());
  }

  /** A load that fails fails the whole list. */
  lemma CollidingGroupsErr(a: seq<Object>, b: seq<Object>, cache: CollisionCache)
    requires CollidingGroups(a, cache).Err?
    ensures CollidingGroups(a + b, cache).Err?
  {
    CollidingGroupsSpec(a, cache);
    CollidingGroupsSpec(a + b, cache);
    var i :| 0 <= i < |a| && cache.Lookup(a[i].name).Err?;
    assert (a + b)[i] == a[i];
  }

  /** `add_initial_objects`. */
  method AddInitialObjects(env: Env, hist: History, seg: Segment) returns (r: Result<seq<Object>>)
    requires env.Valid() && seg.Linked() && WellFormed(hist.Snap())
    modifies env.rng, env.ids, env.cache, hist, seg
    ensures env.Valid() && seg.Linked() && seg.remaining == old(seg.remaining)
    ensures seg.kind != Timer ==> seg.timerStart == old(seg.timerStart) && seg.targets == old(seg.targets)
    ensures seg.targets != old(seg.targets) ==> seg.targets != null && fresh(seg.targets)
    ensures r.Ok? ==> forall o :: o in r.value ==> fresh(o)
    ensures r.Ok? ==>
              CollidingGroups(r.value, env.cache).Ok? &&
              hist.Snap() == Extended(old(hist.Snap()), CollidingGroups(r.value, env.cache).value) &&
              WellFormed(hist.Snap()) && hist.objs[0] == old(hist.objs[0])
    ensures r.Ok? && seg.kind == Timer ==> r.value == [seg.timerStart] && seg.targets != null && seg.targets.items == []
    ensures r.Ok? && seg.kind == Default ==> r.value == []
  {
    r := PlaceInitialObjects(env, hist, seg);
    if r.Err? {
      return;
    }
    var added := AddColliding(env, hist, r.value);
    if added.Err? {
      return Err(added.error);
    }
  }

  // ------------------------------------------------------------ generate

  /** The starting platform: the grass platform lags the lava kingdom, which
      gets one of its own platforms instead. */
  function StartPlatformName(kingdom: string): (n: string)
    ensures n == (if kingdom == "LavaWorld" then "LavaWorldHomeTimer002WobbleParts000" else "CapWorldHomeGround001")
  {
    if kingdom != "LavaWorld" then "CapWorldHomeGround001" else "LavaWorldHomeTimer002WobbleParts000"
  }

  /** How many platform groups a stage grows to. */
  function TargetCount(kingdom: string): (n: nat)
    ensures n == (if kingdom == "SkyWorld" then 45 else 55)
  {
    if kingdom != "SkyWorld" then 55 else 45
  }

  /** `SEGMENT_CREATORS`: the default segment everywhere, the timer segment
      except in the two kingdoms whose objects crash timer challenges, and
      the capture segments in their own kingdoms. */
  function Creators(kingdom: string): seq<Kind>
  {
    [Default] +
    (if kingdom !in ["WaterfallWorld", "SeaWorld"] then [Timer] else []) +
    (if kingdom == "SandWorld" then [MoeEye] else []) +
    (if kingdom == "LavaWorld" then [LavaBubble] else if kingdom == "SkyWorld" then [Pokio] else [])
  }

  /** Which kinds a kingdom draws from, each once: the default kind always. */
  lemma CreatorsSpec(kingdom: string)
    ensures Creators(kingdom) != [] && Creators(kingdom)[0] == Default
    ensures Timer in Creators(kingdom) <==> kingdom != "WaterfallWorld" && kingdom != "SeaWorld"
    ensures MoeEye in Creators(kingdom) <==> kingdom == "SandWorld"
    ensures LavaBubble in Creators(kingdom) <==> kingdom == "LavaWorld"
    ensures Pokio in Creators(kingdom) <==> kingdom == "SkyWorld"
    ensures forall i, j :: 0 <= i < j < |Creators(kingdom)| ==> Creators(kingdom)[i] != Creators(kingdom)[j]
    ensures |Creators(kingdom)| == 1 <==> kingdom in ["WaterfallWorld", "SeaWorld"]
  {
  }

  /** `f'OnlyUp{kingdom}{type(segment).__name__}Zone{index}'`. */
  function ZoneName(kingdom: string, kind: Kind, index: nat): (n: string)
  {
    ("OnlyUp" + kingdom) + (ClassName(kind) + ("Zone" + NatToString(index)))
  }

  /** A zone name gives back its kingdom, the kind of its segment and its
      index: different zones of one kingdom have different names. */
  lemma ZoneNamesDiffer(kingdom: string, a: Kind, i: nat, b: Kind, k: nat)
    requires ZoneName(kingdom, a, i) == ZoneName(kingdom, b, k)
    ensures a == b && i == k
  {
    var p := "OnlyUp" + kingdom;
    var ta := ClassName(a) + ("Zone" + NatToString(i));
    var tb := ClassName(b) + ("Zone" + NatToString(k));
    assert ta == tb by {
      assert ta == (p + ta)[|p|..];
      assert tb == (p + tb)[|p|..];
    }
    ClassNameTails(a, b, "Zone" + NatToString(i), "Zone" + NatToString(k));
    assert ("Zone" + NatToString(i))[4..] == NatToString(i);
    assert ("Zone" + NatToString(k))[4..] == NatToString(k);
    NatToStringInjective(i, k);
  }

  /** A class name followed by any text determines both: the names start
      with different letters. */
  lemma ClassNameTails(a: Kind, b: Kind, s: string, t: string)
    requires ClassName(a) + s == ClassName(b) + t
    ensures a == b && s == t
  {
    assert (ClassName(a) + s)[0] == ClassName(a)[0];
    assert (ClassName(b) + t)[0] == ClassName(b)[0];
    assert (ClassName(a) + s)[|ClassName(a)|..] == s;
  }

  /** A segment of `kind` as its creator makes it. */
  method NewSegment(env: Env, ds: KingdomDataset, kind: Kind) returns (seg: Segment)
    modifies env.rng
    ensures fresh(seg) && seg.kind == kind && seg.kingdomObjects == ds.pb.objects && seg.allowMoving
    ensures seg.timerStart == null && seg.targets == null && seg.Linked()
    ensures CountRange(kind).0 <= seg.remaining <= CountRange(kind).1
  {
    seg := new Segment(kind, ds.pb.objects, true, env);
  }

  /** The next segment once one is done: the only kind again, or a draw
      repeated until the kind differs. */
  method NextSegment(env: Env, ds: KingdomDataset, creators: seq<Kind>, done: Kind, fuel: nat) returns (r: Result<Segment>)
    requires done in creators
    modifies env.rng
    ensures r.Ok? ==> fresh(r.value) && r.value.kind in creators && r.value.Linked() &&
                      r.value.timerStart == null && r.value.targets == null &&
                      r.value.kingdomObjects == ds.pb.objects &&
                      CountRange(r.value.kind).0 <= r.value.remaining
    ensures r.Ok? && |creators| > 1 ==> r.value.kind != done
    ensures r.Err? ==> r.error == OutOfFuel
  {
    if |creators| == 1 {
      var seg := NewSegment(env, ds, creators[0]);
      return Ok(seg);
    }
    var budget := fuel;
    var kind := done;
    var seg: Segment? := null;
    while ClassName(kind) == ClassName(done)
      invariant seg == null <==> kind == done
      invariant seg != null ==> fresh(seg) && seg.kind == kind && seg.kind in creators && seg.Linked() &&
                                seg.timerStart == null && seg.targets == null &&
                                seg.kingdomObjects == ds.pb.objects && CountRange(kind).0 <= seg.remaining
      invariant kind in creators
      decreases budget
    {
      if budget == 0 {
        return Err(OutOfFuel);
      }
      budget := budget - 1;
      var c := env.rng.Choice(creators);
      seg := NewSegment(env, ds, c.value);
      kind := c.value;
      if kind == done {
        seg := null;
      }
    }
    ClassNameInjective(kind, done);
    r := Ok(seg);
  }

  /** The zone names so far: the i-th names the i-th segment's kind, drawn
      from the kingdom's creators, and no two in a row share a kind unless
      the kingdom has one kind only. */
  ghost predicate ZonesNamed(kingdom: string, creators: seq<Kind>, zones: seq<string>, kinds: seq<Kind>)
  {
    |zones| == |kinds| >= 1 &&
    (forall i :: 0 <= i < |zones| ==> zones[i] == ZoneName(kingdom, kinds[i], i) && kinds[i] in creators) &&
    (|creators| > 1 ==> forall i :: 0 < i < |kinds| ==> kinds[i] != kinds[i - 1])
  }

  /** A zone for a kind drawn from the creators, different from the last
      one when the kingdom has several, extends the named zones. */
  lemma ZonesNamedSnoc(kingdom: string, creators: seq<Kind>, zones: seq<string>, kinds: seq<Kind>, k: Kind)
    requires ZonesNamed(kingdom, creators, zones, kinds) && k in creators
    requires |creators| > 1 ==> k != kinds[|kinds| - 1]
    ensures ZonesNamed(kingdom, creators, zones + [ZoneName(kingdom, k, |zones|)], kinds + [k])
  {
    var zs, ks := zones + [ZoneName(kingdom, k, |zones|)], kinds + [k];
    forall i | 0 <= i < |zs|
      ensures zs[i] == ZoneName(kingdom, ks[i], i) && ks[i] in creators
    {
      if i < |zones| {
        assert zs[i] == zones[i] && ks[i] == kinds[i];
      }
    }
    if |creators| > 1 {
      forall i | 0 < i < |ks|
        ensures ks[i] != ks[i - 1]
      {
        if i < |kinds| {
          assert ks[i] == kinds[i] && ks[i - 1] == kinds[i - 1];
        }
      }
    }
  }

  /** A new zone once a segment is done: the next segment, its zone name,
      the boundary, and its initial objects. */
  method StartZone(env: Env, ds: KingdomDataset, creators: seq<Kind>, hist: History, done: Segment, zones: seq<string>, ghost kinds: seq<Kind>,
                   fuel: nat)
    returns (r: Result<Segment>, zones': seq<string>, ghost kinds': seq<Kind>)
    requires env.Valid() && WellFormed(hist.Snap())
    requires ZonesNamed(ds.name, creators, zones, kinds) && done.kind == kinds[|kinds| - 1]
    modifies env.rng, env.ids, env.cache, hist
    ensures env.Valid()
    ensures r.Ok? ==>
              var seg := r.value;
              fresh(seg) && seg.Linked() && (seg.targets != null ==> fresh(seg.targets)) &&
              WellFormed(hist.Snap()) && hist.objs[0] == old(hist.objs[0]) &&
              zones' == zones + [ZoneName(ds.name, seg.kind, |zones|)] && kinds' == kinds + [seg.kind] &&
              ZonesNamed(ds.name, creators, zones', kinds')
  {
    zones', kinds' := zones, kinds;
    var next := NextSegment(env, ds, creators, done.kind, fuel);
    if next.Err? {
      return Err(next.error), zones', kinds';
    }
    var seg := next.value;
    ZonesNamedSnoc(ds.name, creators, zones, kinds, seg.kind);
    zones', kinds' := zones + [ZoneName(ds.name, seg.kind, |zones|)], kinds + [seg.kind];
    CheckpointedWellFormed(hist.Snap());
    hist.Checkpoint();
    var init := AddInitialObjects(env, hist, seg);
    if init.Err? {
      return Err(init.error), zones', kinds';
    }
    r := Ok(seg);
  }

  /** One call of `__find_new_jump` and, when a jump is found, its commit:
      the platforms and the jump are appended and the segment has one
      platform fewer to place. */
  method Advance(env: Env, hist: History, seg: Segment, isLast: bool, playerStart: Vec3) returns (r: Result<bool>)
    requires env.Valid() && seg.Linked() && WellFormed(hist.Snap())
    modifies env.rng, env.ids, env.cache, hist, seg, seg.targets
    ensures env.Valid() && seg.Linked() && seg.targets == old(seg.targets)
    ensures r.Ok? ==> WellFormed(hist.Snap()) && hist.objs[0] == old(hist.objs[0])
    ensures r == Ok(true) ==>
              |hist.objs| == |old(hist.objs)| + 1 && hist.objs[..|hist.objs| - 1] == old(hist.objs) &&
              seg.remaining == old(seg.remaining) - 1
  {
    var found, _ := FindNewJump(env, hist, seg, isLast, playerStart);
    if found.Err? {
      return Err(found.error);
    }
    if found.value.None? {
      return Ok(false);
    }
    var (g, j) := found.value.value;
    CommittedWellFormed(hist.Snap(), g, j);
    hist.Commit(g, j);
    seg.Decrement();
    r := Ok(true);
  }

  /** The start of `generate`: the starting platform 1500 below the player
      as the only group, the first segment drawn from the creators, its zone
      and its initial objects. */
  method Begin(env: Env, ds: KingdomDataset, creators: seq<Kind>, playerStart: Vec3)
    returns (r: Result<(History, Segment)>, zones: seq<string>, ghost kinds: seq<Kind>)
    requires env.Valid() && creators != []
    modifies env.rng, env.ids, env.cache
    ensures env.Valid()
    ensures r.Ok? ==>
              var (hist, seg) := r.value;
              fresh(hist) && fresh(seg) && seg.Linked() && (seg.targets != null ==> fresh(seg.targets)) &&
              WellFormed(hist.Snap()) && |hist.objs[0]| == 1 &&
              hist.objs[0][0].name == StartPlatformName(ds.name) &&
              hist.objs[0][0].storedPos == Sub(playerStart, Vec3(0.0, 1500.0, 0.0)) &&
              ZonesNamed(ds.name, creators, zones, kinds) && seg.kind == kinds[|kinds| - 1]
  {
    zones, kinds := [], [];
    var start := CreateFixMapParts(env.ids, env.defaults, StartPlatformName(ds.name),
                                   Sub(playerStart, Vec3(0.0, 1500.0, 0.0)));
    var hist := new History(start);
    var first := env.rng.Choice(creators);
    var seg := NewSegment(env, ds, first.value);
    zones, kinds := [ZoneName(ds.name, seg.kind, 0)], [seg.kind];
    var init := AddInitialObjects(env, hist, seg);
    if init.Err? {
      return Err(init.error), zones, kinds;
    }
    r := Ok((hist, seg));
  }

  /** One turn of the loop in `generate`: a new segment when the current one
      is done, then one placement attempt with it, marked as the last object
      when the stage (with the new segment's initial objects) is one group
      short of `target`. */
  method GenerateStep(env: Env, ds: KingdomDataset, creators: seq<Kind>, hist: History, seg: Segment,
                      zones: seq<string>, ghost kinds: seq<Kind>, target: nat, playerStart: Vec3, fuel: nat)
    returns (r: Result<Segment>, zones': seq<string>, ghost kinds': seq<Kind>)
    requires env.Valid() && seg.Linked() && WellFormed(hist.Snap())
    requires ZonesNamed(ds.name, creators, zones, kinds) && seg.kind == kinds[|kinds| - 1]
    modifies env.rng, env.ids, env.cache, hist, seg, seg.targets
    ensures env.Valid()
    ensures r.Ok? ==>
              var s := r.value;
              s.Linked() && WellFormed(hist.Snap()) && hist.objs[0] == old(hist.objs[0]) &&
              ZonesNamed(ds.name, creators, zones', kinds') && s.kind == kinds'[|kinds'| - 1] &&
              ((s == seg && s.targets == old(seg.targets)) || (fresh(s) && (s.targets != null ==> fresh(s.targets))))
  {
    var cur := seg;
    zones', kinds' := zones, kinds;
    if seg.IsDone() {
      var next;
      next, zones', kinds' := StartZone(env, ds, creators, hist, seg, zones, kinds, fuel);
      if next.Err? {
        return Err(next.error), zones', kinds';
      }
      cur := next.value;
    }
    var step := Advance(env, hist, cur, |hist.objs| == target - 1, playerStart);
    if step.Err? {
      return Err(step.error), zones', kinds';
    }
    r := Ok(cur);
  }

  /** The part of `generate` that lays out the platforms: start on a fixed
      platform 1500 below the player, pick a first segment, then until the
      stage has its platform groups, start a new segment (zone) whenever the
      current one is done and ask `__find_new_jump` for the next platform,
      committing it when one is found. The result keeps the starting
      platform first, is well formed, reaches the target count, and names
      one zone per segment. */
  method Generate(env: Env, ds: KingdomDataset, playerStart: Vec3, fuel: nat)
    returns (r: Result<History>, zones: seq<string>, ghost kinds: seq<Kind>)
    requires env.Valid()
    modifies env.rng, env.ids, env.cache
    ensures env.Valid()
    ensures r.Ok? ==>
              var h := r.value;
              fresh(h) && WellFormed(h.Snap()) && |h.objs| >= TargetCount(ds.name) &&
              |h.objs[0]| == 1 && h.objs[0][0].name == StartPlatformName(ds.name) &&
              h.objs[0][0].storedPos == Sub(playerStart, Vec3(0.0, 1500.0, 0.0)) &&
              ZonesNamed(ds.name, Creators(ds.name), zones, kinds)
  {
    var creators := Creators(ds.name);
    var begun;
    begun, zones, kinds := Begin(env, ds, creators, playerStart);
    if begun.Err? {
      return Err(begun.error), zones, kinds;
    }
    var (hist, seg) := begun.value;
    ghost var first := hist.objs[0];
    var target := TargetCount(ds.name);
    var budget := fuel;
    while |hist.objs| < target
      invariant env.Valid() && fresh(hist) && fresh(seg) && seg.Linked()
      invariant seg.targets != null ==> fresh(seg.targets)
      invariant WellFormed(hist.Snap()) && hist.objs[0] == first
      invariant ZonesNamed(ds.name, creators, zones, kinds) && seg.kind == kinds[|kinds| - 1]
      decreases budget
    {
      if budget == 0 {
        return Err(OutOfFuel), zones, kinds;
      }
      budget := budget - 1;
      var next;
      next, zones, kinds := GenerateStep(env, ds, creators, hist, seg, zones, kinds, target, playerStart, fuel);
      if next.Err? {
        return Err(next.error), zones, kinds;
      }
      seg := next.value;
    }
    r := Ok(hist);
  }
}
