/** The per-tick ring rotation in `animate`.
    For every ring the loop draws a random number and evaluates the guard
    `!Math.ceil(int) === 1`.  JavaScript parses it as `(!Math.ceil(int)) === 1`:
    a boolean compared by strict equality with a number, which is false for
    every draw.  The `continue` therefore never runs, and every ring's
    rotation about z grows by 0.1 on every tick. */
module RingRotation {
  import opened AccretionDisk

  /** The angle added to a ring's rotation on one tick. */
  const Step: real := 0.1

  /** The two kinds of JavaScript value the guard handles. */
  datatype JsValue = JsBoolean(b: bool) | JsNumber(n: real)

  /** `Math.ceil` on a finite number: the least integer not below x. */
  function Ceil(x: real): (c: int)
    ensures c as real - 1.0 < x <= c as real
  {
    var f := x.Floor;
    if f as real == x then f else f + 1
  }

  /** Logical not, `!v`: true exactly for the falsy values (false and 0). */
  function Not(v: JsValue): (b: bool)
    ensures v.JsNumber? ==> (b <==> v.n == 0.0)
    ensures v.JsBoolean? ==> b != v.b
  {
    match v
    case JsBoolean(b) => !b
    case JsNumber(n) => n == 0.0
  }

  /** Strict equality `a === b`: same type and same value, never a conversion. */
  function StrictEquals(a: JsValue, b: JsValue): (eq: bool)
    ensures eq ==> a.JsBoolean? == b.JsBoolean?
  {
    match (a, b)
    case (JsBoolean(x), JsBoolean(y)) => x == y
    case (JsNumber(x), JsNumber(y)) => x == y
    case _ => false
  }

  /** The guard `!Math.ceil(draw) === 1` as the source writes it: it never
      holds, whatever the draw. */
  function SkipsRing(draw: real): (skip: bool)
    ensures !skip
  {
    StrictEquals(JsBoolean(Not(JsNumber(Ceil(draw) as real))), JsNumber(1.0))
  }

  /** One pass of the loop body for one ring: skip it when the guard holds,
      otherwise add Step to its rotation. */
  function RotateStep(rotation: real, draw: real): (r: real)
    ensures r == rotation + Step
  {
    if SkipsRing(draw) then rotation else rotation + Step
  }

  /** A ring mesh: its band is fixed when it is built, its rotation about z
      is changed every tick. */
  class Ring {
    const inner: real
    const outer: real
    var rotationZ: real

    /** A new ring mesh over a band, not yet rotated. */
    constructor (band: Band)
      ensures inner == band.inner && outer == band.outer && rotationZ == 0.0
    {
      inner := band.inner;
      outer := band.outer;
      rotationZ := 0.0;
    }
  }

  /** No ring object appears twice in the list. */
  predicate Distinct(rings: seq<Ring>)
  {
    forall i, j :: 0 <= i < j < |rings| ==> rings[i] != rings[j]
  }

  /** The set of ring objects the tick may change. */
  function Objects(rings: seq<Ring>): set<Ring>
  {
    set r | r in rings
  }

  /** One tick's pass over the rings, `draws[k]` being ring k's `Math.random()`:
      every ring turns by exactly Step and nothing else changes. */
  method Tick(rings: seq<Ring>, draws: seq<real>)
    requires Distinct(rings) && |draws| == |rings|
    modifies Objects(rings)
    ensures forall k :: 0 <= k < |rings| ==> rings[k].rotationZ == old(rings[k].rotationZ) + Step
  {
    for k := 0 to |rings|
      invariant forall j :: 0 <= j < k ==> rings[j].rotationZ == old(rings[j].rotationZ) + Step
      invariant forall j :: k <= j < |rings| ==> rings[j].rotationZ == old(rings[j].rotationZ)
    {
      var ring := rings[k];
      ring.rotationZ := RotateStep(ring.rotationZ, draws[k]);
    }
  }

  /** Several ticks, `frames[t]` holding tick t's draws: after them every ring
      has turned by Step once per tick. */
  method Animate(rings: seq<Ring>, frames: seq<seq<real>>)
    requires Distinct(rings)
    requires forall t :: 0 <= t < |frames| ==> |frames[t]| == |rings|
    modifies Objects(rings)
    ensures forall k :: 0 <= k < |rings| ==>
      rings[k].rotationZ == old(rings[k].rotationZ) + (|frames| as real) * Step
  {
    for t := 0 to |frames|
      invariant forall k :: 0 <= k < |rings| ==>
        rings[k].rotationZ == old(rings[k].rotationZ) + (t as real) * Step
    {
      Tick(rings, frames[t]);
    }
  }
}
