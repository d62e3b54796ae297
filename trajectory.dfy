/** Jump trajectories and the jump validity test (src/generator/generator.py,
    `Trajectory` and `Jump`): a recorded trajectory is moved to start at the
    origin and scaled; a jump is valid when neither the sweep of its
    trajectory hits an existing platform nor an earlier jump's sweep hits
    the new platform. */
module Trajectories {
  import opened Wrappers
  import opened Vec
  import opened Kcl
  import opened Stage

  datatype Trajectory = Trajectory(points: seq<Vec3>)

  /** Every point minus `o`. */
  function ShiftAll(ps: seq<Vec3>, o: Vec3): (r: seq<Vec3>)
    ensures |r| == |ps| && forall i :: 0 <= i < |ps| ==> r[i] == Sub(ps[i], o)
    decreases |ps|
  {
    if ps == [] then [] else [Sub(ps[0], o)] + ShiftAll(ps[1..], o)
  }

  /** Every point times `k`. */
  function ScaleAll(ps: seq<Vec3>, k: real): (r: seq<Vec3>)
    ensures |r| == |ps| && forall i :: 0 <= i < |ps| ==> r[i] == Scale(ps[i], k)
    decreases |ps|
  {
    if ps == [] then [] else [Scale(ps[0], k)] + ScaleAll(ps[1..], k)
  }

  /** `Trajectory(points)`: `Vec` has no `__eq__`, so the guard compares a
      fresh zero vector by identity and always holds: the first point is
      subtracted from every point. An empty list raises. */
  function FromPoints(ps: seq<Vec3>): (r: Result<Trajectory>)
    ensures ps == [] <==> r.Err?
    ensures r.Err? ==> r.error == IndexError
    ensures r.Ok? ==> |r.value.points| == |ps| &&
                      forall i :: 0 <= i < |ps| ==> r.value.points[i] == Sub(ps[i], ps[0])
  {
    if ps == [] then Err(IndexError) else Ok(Trajectory(ShiftAll(ps, ps[0])))
  }

  /** The trajectory starts at the origin and keeps every difference of points. */
  lemma FromPointsNormalises(ps: seq<Vec3>)
    requires ps != []
    ensures var t := FromPoints(ps).value;
            t.points[0] == Zero &&
            forall i, j :: 0 <= i < |ps| && 0 <= j < |ps| ==> Sub(t.points[i], t.points[j]) == Sub(ps[i], ps[j])
  {
  }

  /** Normalising a normalised list changes nothing. */
  lemma FromPointsIdempotent(ps: seq<Vec3>)
    requires ps != []
    ensures FromPoints(FromPoints(ps).value.points) == FromPoints(ps)
  {
    var t := FromPoints(ps).value;
    var t' := FromPoints(t.points).value;
    assert t.points[0] == Zero;
    assert t'.points == t.points;
  }

  /** `scale(k)`. */
  function Scaled(t: Trajectory, k: real): (r: Trajectory)
    ensures |r.points| == |t.points|
    ensures forall i :: 0 <= i < |t.points| ==> r.points[i] == Scale(t.points[i], k)
  {
    Trajectory(ScaleAll(t.points, k))
  }

  lemma ScaledByOne(t: Trajectory)
    ensures Scaled(t, 1.0) == t
  {
    assert Scaled(t, 1.0).points == t.points;
  }

  lemma ScaledTwice(t: Trajectory, a: real, b: real)
    ensures Scaled(Scaled(t, a), b) == Scaled(t, a * b)
  {
    var l, r := Scaled(Scaled(t, a), b).points, Scaled(t, a * b).points;
    forall i | 0 <= i < |t.points|
      ensures l[i] == r[i]
    {
      ScaleScale(t.points[i], a, b);
    }
    assert l == r;
  }

  lemma ScaleScale(p: Vec3, a: real, b: real)
    ensures Scale(Scale(p, a), b) == Scale(p, a * b)
  {
    assert p.x * a * b == p.x * (a * b);
    assert p.y * a * b == p.y * (a * b);
    assert p.z * a * b == p.z * (a * b);
  }

  /** Scaling keeps a trajectory starting at the origin. */
  lemma ScaledKeepsOrigin(t: Trajectory, k: real)
    requires t.points != [] && t.points[0] == Zero
    ensures Scaled(t, k).points[0] == Zero
  {
  }

  /** `endpoint()`: the last point; `[-1]` of an empty list raises. */
  function Endpoint(t: Trajectory): (r: Result<Vec3>)
    ensures t.points == [] <==> r.Err?
    ensures r.Err? ==> r.error == IndexError
    ensures r.Ok? ==> r.value == t.points[|t.points| - 1]
  {
    if t.points == [] then Err(IndexError) else Ok(t.points[|t.points| - 1])
  }

  lemma EndpointScaled(t: Trajectory, k: real)
    requires t.points != []
    ensures Endpoint(Scaled(t, k)) == Ok(Scale(Endpoint(t).value, k))
  {
  }

  // ------------------------------------------------------------ sweeps

  /** The trajectory point `p`, rotated about Y and placed at `start`, hits
      the object's collision at `radius`. */
  predicate PointHits(cd: CollisionData, o: Object, start: Vec3, rot: Rotation, p: Vec3, radius: real)
  {
    cd.Hits(Sub(Add(start, RotateY(p, rot)), o.Pos()), radius)
  }

  /** `Trajectory.intersects_object`: the points in order, stopping at the
      first hit; testing an object without collision data raises. */
  function SweepHits(pts: seq<Vec3>, start: Vec3, rot: Rotation, radius: real, o: Object, cache: CollisionCache)
    : Result<bool>
    decreases |pts|
  {
    if pts == [] then Ok(false)
    else
      var hit :- TestCollision(o, cache, Add(start, RotateY(pts[0], rot)), radius);
      if hit then Ok(true) else SweepHits(pts[1..], start, rot, radius, o, cache)
  }

  /** With collision data, the sweep hits exactly when some point hits. */
  lemma {:induction false} SweepHitsSome(pts: seq<Vec3>, start: Vec3, rot: Rotation, radius: real, o: Object,
                                         cache: CollisionCache, cd: CollisionData)
    requires cache.Lookup(o.name) == Ok(Some(cd))
    ensures SweepHits(pts, start, rot, radius, o, cache) ==
            Ok(exists i :: 0 <= i < |pts| && PointHits(cd, o, start, rot, pts[i], radius))
    decreases |pts|
  {
    if pts != [] {
      SweepHitsSome(pts[1..], start, rot, radius, o, cache, cd);
      if !PointHits(cd, o, start, rot, pts[0], radius) {
        if exists i :: 0 <= i < |pts| && PointHits(cd, o, start, rot, pts[i], radius) {
          var i :| 0 <= i < |pts| && PointHits(cd, o, start, rot, pts[i], radius);
          assert pts[1..][i - 1] == pts[i];
        }
      }
    }
  }

  /** Without collision data the first point raises (an empty sweep tests nothing). */
  lemma SweepHitsNone(pts: seq<Vec3>, start: Vec3, rot: Rotation, radius: real, o: Object, cache: CollisionCache)
    requires cache.Lookup(o.name).Ok? && cache.Lookup(o.name).value.None?
    ensures SweepHits(pts, start, rot, radius, o, cache) == if pts == [] then Ok(false) else Err(AttributeError)
  {
  }

  /** A failing load fails every non-empty sweep with its error. */
  lemma SweepHitsErr(pts: seq<Vec3>, start: Vec3, rot: Rotation, radius: real, o: Object, cache: CollisionCache)
    requires cache.Lookup(o.name).Err?
    ensures SweepHits(pts, start, rot, radius, o, cache) ==
            if pts == [] then Ok(false) else Err(cache.Lookup(o.name).error)
  {
  }

  // ------------------------------------------------------------ jumps

  const MarioRadius: real := 180.0
  const CappyRadius: real := 90.0

  /** `Jump(obj1, obj2, jump_start_pos, y_rotation, mario_trajectory, cappy_trajectory)`. */
  datatype Jump = Jump(obj1: Object, obj2: Object, start: Vec3, rot: Rotation, mario: Trajectory, cappy: Trajectory)

  /** Both sweeps start `Y_OFFSET` above the jump's start. */
  function SweepStart(j: Jump): (p: Vec3)
    ensures p == Vec3(j.start.x, j.start.y + 582.0, j.start.z)
  {
    Add(j.start, Vec3(0.0, YOffset, 0.0))
  }

  /** `Jump.intersects_object`: the Mario sweep at radius 180 `and` the
      Cappy sweep at radius 90; the second is evaluated only after a hit. */
  function JumpHits(j: Jump, o: Object, cache: CollisionCache): (r: Result<bool>)
    ensures r == Ok(true) <==>
            SweepHits(j.mario.points, SweepStart(j), j.rot, MarioRadius, o, cache) == Ok(true) &&
            SweepHits(j.cappy.points, SweepStart(j), j.rot, CappyRadius, o, cache) == Ok(true)
  {
    var m :- SweepHits(j.mario.points, SweepStart(j), j.rot, MarioRadius, o, cache);
    if !m then Ok(false) else SweepHits(j.cappy.points, SweepStart(j), j.rot, CappyRadius, o, cache)
  }

  /** Every sweep hit at a radius is a hit at any larger radius. */
  lemma SweepMonotone(pts: seq<Vec3>, start: Vec3, rot: Rotation, o: Object, cache: CollisionCache,
                      cd: CollisionData, r: real, r': real)
    requires cache.Lookup(o.name) == Ok(Some(cd)) && r <= r'
    requires SweepHits(pts, start, rot, r, o, cache) == Ok(true)
    ensures SweepHits(pts, start, rot, r', o, cache) == Ok(true)
  {
    SweepHitsSome(pts, start, rot, r, o, cache, cd);
    SweepHitsSome(pts, start, rot, r', o, cache, cd);
    var i :| 0 <= i < |pts| && PointHits(cd, o, start, rot, pts[i], r);
    HitsMonotone(cd, Sub(Add(start, RotateY(pts[i], rot)), o.Pos()), r, r');
  }

  /** The generator builds both trajectories from the Mario points; then a
      jump hits an object exactly when the Cappy-radius sweep does, whatever
      the collision lookup gives. */
  lemma JumpHitsIsCappySweep(j: Jump, o: Object, cache: CollisionCache)
    requires j.cappy == j.mario
    ensures JumpHits(j, o, cache) == SweepHits(j.cappy.points, SweepStart(j), j.rot, CappyRadius, o, cache)
  {
    var pts, s := j.mario.points, SweepStart(j);
    match cache.Lookup(o.name)
    case Err(_) =>
      SweepHitsErr(pts, s, j.rot, MarioRadius, o, cache);
      SweepHitsErr(pts, s, j.rot, CappyRadius, o, cache);
    case Ok(None) =>
      SweepHitsNone(pts, s, j.rot, MarioRadius, o, cache);
      SweepHitsNone(pts, s, j.rot, CappyRadius, o, cache);
    case Ok(Some(cd)) =>
      SweepHitsSome(pts, s, j.rot, MarioRadius, o, cache, cd);
      SweepHitsSome(pts, s, j.rot, CappyRadius, o, cache, cd);
      if SweepHits(pts, s, j.rot, CappyRadius, o, cache) == Ok(true) {
        SweepMonotone(pts, s, j.rot, o, cache, cd, CappyRadius, MarioRadius);
      }
  }

  /** The first loop of `is_possible`: the jump misses the first object of
      every group; an empty group raises. */
  function MissesFirsts(j: Jump, groups: seq<seq<Object>>, cache: CollisionCache): Result<bool>
    decreases |groups|
  {
    if groups == [] then Ok(true)
    else if groups[0] == [] then Err(IndexError)
    else
      var hit :- JumpHits(j, groups[0][0], cache);
      if hit then Ok(false) else MissesFirsts(j, groups[1..], cache)
  }

  /** The second loop of `is_possible`: no jump hits `o`. */
  function MissedByAll(jumps: seq<Jump>, o: Object, cache: CollisionCache): Result<bool>
    decreases |jumps|
  {
    if jumps == [] then Ok(true)
    else
      var hit :- JumpHits(jumps[0], o, cache);
      if hit then Ok(false) else MissedByAll(jumps[1..], o, cache)
  }

  /** `Jump.is_possible(objs, jumps)`. */
  function IsPossible(j: Jump, groups: seq<seq<Object>>, jumps: seq<Jump>, cache: CollisionCache): Result<bool>
  {
    var a :- MissesFirsts(j, groups, cache);
    if !a then Ok(false) else MissedByAll(jumps, j.obj2, cache)
  }

  /** Every test the validity check could make succeeds. */
  predicate Decidable(j: Jump, groups: seq<seq<Object>>, jumps: seq<Jump>, cache: CollisionCache)
  {
    (forall i :: 0 <= i < |groups| ==> groups[i] != [] && JumpHits(j, groups[i][0], cache).Ok?) &&
    (forall k :: 0 <= k < |jumps| ==> JumpHits(jumps[k], j.obj2, cache).Ok?)
  }

  lemma {:induction false} MissesFirstsSpec(j: Jump, groups: seq<seq<Object>>, cache: CollisionCache)
    requires forall i :: 0 <= i < |groups| ==> groups[i] != [] && JumpHits(j, groups[i][0], cache).Ok?
    ensures MissesFirsts(j, groups, cache) ==
            Ok(forall i :: 0 <= i < |groups| ==> !JumpHits(j, groups[i][0], cache).value)
    decreases |groups|
  {
    if groups != [] {
      var rest := groups[1..];
      assert forall i :: 0 <= i < |rest| ==> rest[i] == groups[i + 1];
      MissesFirstsSpec(j, rest, cache);
      if !JumpHits(j, groups[0][0], cache).value {
        assert (forall i :: 0 <= i < |groups| ==> !JumpHits(j, groups[i][0], cache).value) <==>
               (forall i :: 0 <= i < |rest| ==> !JumpHits(j, rest[i][0], cache).value);
      }
    }
  }

  lemma {:induction false} MissedByAllSpec(jumps: seq<Jump>, o: Object, cache: CollisionCache)
    requires forall k :: 0 <= k < |jumps| ==> JumpHits(jumps[k], o, cache).Ok?
    ensures MissedByAll(jumps, o, cache) == Ok(forall k :: 0 <= k < |jumps| ==> !JumpHits(jumps[k], o, cache).value)
    decreases |jumps|
  {
    if jumps != [] {
      var rest := jumps[1..];
      assert forall k :: 0 <= k < |rest| ==> rest[k] == jumps[k + 1];
      MissedByAllSpec(rest, o, cache);
      if !JumpHits(jumps[0], o, cache).value {
        assert (forall k :: 0 <= k < |jumps| ==> !JumpHits(jumps[k], o, cache).value) <==>
               (forall k :: 0 <= k < |rest| ==> !JumpHits(rest[k], o, cache).value);
      }
    }
  }

  /** A jump is possible exactly when it hits no group's first object and no
      earlier jump hits its destination. */
  lemma IsPossibleSpec(j: Jump, groups: seq<seq<Object>>, jumps: seq<Jump>, cache: CollisionCache)
    requires Decidable(j, groups, jumps, cache)
    ensures IsPossible(j, groups, jumps, cache) ==
            Ok((forall i :: 0 <= i < |groups| ==> !JumpHits(j, groups[i][0], cache).value) &&
               (forall k :: 0 <= k < |jumps| ==> !JumpHits(jumps[k], j.obj2, cache).value))
  {
    MissesFirstsSpec(j, groups, cache);
    MissedByAllSpec(jumps, j.obj2, cache);
  }

  /** An empty group among `objs` raises before any later group is looked at. */
  lemma IsPossibleEmptyGroup(j: Jump, cache: CollisionCache, jumps: seq<Jump>)
    ensures IsPossible(j, [[]], jumps, cache) == Err(IndexError)
  {
  }
}
