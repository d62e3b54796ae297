/** The module-level random generator of Python's `random` module, as the
    generator uses it. The Mersenne Twister itself is not modelled: the
    generator is a stream of values in [0, 1) that each call consumes in
    order, which is how every draw below is derived. */
module Rng {
  import opened Wrappers
  import opened Vec

  /** A value of `random.random()`. */
  type Unit = u: real | 0.0 <= u < 1.0

  /** A rotation whose (cos, sin) pair lies on the unit circle. */
  type UnitRotation = r: Rotation | OnUnitCircle(r) witness Rotation(1.0, 0.0)

  /** `random.uniform(a, b)` is `a + (b - a) * random()`. */
  function UniformOf(a: real, b: real, u: Unit): (r: real)
    ensures a <= b ==> a <= r <= b
    ensures a < b ==> r < b
    ensures u == 0.0 ==> r == a
  {
    UniformBounds(a, b, u);
    a + (b - a) * u
  }

  lemma UniformBounds(a: real, b: real, u: Unit)
    ensures a <= b ==> a <= a + (b - a) * u <= b
    ensures a < b ==> a + (b - a) * u < b
  {
    var d := b - a;
    if d >= 0.0 {
      MulNonNegative(d, u);
      MulNonNegative(d, 1.0 - u);
      assert d * (1.0 - u) == d - d * u;
    }
    if d > 0.0 {
      MulPositive(d, 1.0 - u);
    }
  }

  /** An index below `n` drawn from `u` (the model of `_randbelow(n)`). */
  function BelowOf(n: nat, u: Unit): (k: nat)
    requires n > 0
    ensures k < n
    ensures k as real <= u * n as real < k as real + 1.0
  {
    var m := n as real;
    MulNonNegative(u, m);
    MulPositive(m, 1.0 - u);
    assert m * (1.0 - u) == m - u * m;
    (u * m).Floor
  }

  class Random {
    /** The values `random()` returns, in order. */
    const stream: nat -> Unit
    /** `(cos(2*pi*u), sin(2*pi*u))`: the trigonometry of a uniform angle. */
    const turn: Unit -> UnitRotation
    /** Number of values consumed so far. */
    var cursor: nat

    constructor(stream: nat -> Unit, turn: Unit -> UnitRotation)
      ensures this.stream == stream && this.turn == turn && cursor == 0
    {
      this.stream := stream;
      this.turn := turn;
      cursor := 0;
    }

    /** The value the next call would consume. */
    function Peek(): Unit
      reads this
    {
      stream(cursor)
    }

    /** `random.random()`. */
    method Random() returns (u: Unit)
      modifies this
      ensures u == stream(old(cursor)) && cursor == old(cursor) + 1
    {
      u := stream(cursor);
      cursor := cursor + 1;
    }

    /** `random.uniform(a, b)`. */
    method Uniform(a: real, b: real) returns (r: real)
      modifies this
      ensures r == UniformOf(a, b, stream(old(cursor))) && cursor == old(cursor) + 1
      ensures a <= b ==> a <= r <= b
    {
      var u := Random();
      r := UniformOf(a, b, u);
    }

    /** `random.randint(a, b)`: inclusive at both ends. */
    method RandInt(a: int, b: int) returns (k: int)
      requires a <= b
      modifies this
      ensures k == a + BelowOf(b - a + 1, stream(old(cursor))) && cursor == old(cursor) + 1
      ensures a <= k <= b
    {
      var u := Random();
      k := a + BelowOf(b - a + 1, u);
    }

    /** `random.choice(xs)`: IndexError on an empty sequence, which consumes nothing. */
    method Choice<T>(xs: seq<T>) returns (r: Result<T>)
      modifies this
      ensures xs == [] ==> r == Err(IndexError) && cursor == old(cursor)
      ensures xs != [] ==> r == Ok(xs[BelowOf(|xs|, stream(old(cursor)))]) && cursor == old(cursor) + 1
    {
      if xs == [] {
        r := Err(IndexError);
      } else {
        var u := Random();
        r := Ok(xs[BelowOf(|xs|, u)]);
      }
    }

    /** `random.uniform(0, 2*math.pi)`, delivered as the rotation it denotes. */
    method Turn() returns (rot: Rotation)
      modifies this
      ensures rot == turn(stream(old(cursor))) && cursor == old(cursor) + 1
      ensures OnUnitCircle(rot)
    {
      var u := Random();
      rot := turn(u);
    }
  }
}
