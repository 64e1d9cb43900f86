/** The flight state of the main variant: the lander's fuel, tilt and thrust,
    the keyboard flags, and the per-frame choice of thrust force with its
    fuel accounting. The physics engine is replaced by a log of the forces
    handed to it. */
module MoonLander {
  import opened Controls

  /** Fuel of a new lander. */
  const InitialFuel: int := 1000

  /** Upper bound that set_rotation enforces on the tilt. */
  const MaxRotation: real := 45.0

  /** Tilt added by set_thrust for a horizontal thrust. */
  const ThrustTilt: real := 5.0

  function Min(a: real, b: real): real
  {
    if a <= b then a else b
  }

  function Max(a: int, b: int): int
  {
    if a >= b then a else b
  }

  // ---- Tilt --------------------------------------------------------------

  /** The tilt after set_rotation(delta): the sum, capped at MaxRotation. */
  function RotateBy(rotation: real, delta: real): (r: real)
    ensures r <= MaxRotation && r <= rotation + delta
    ensures r == rotation + delta || r == MaxRotation
  {
    if rotation + delta > MaxRotation then MaxRotation else rotation + delta
  }

  /** The tilt after set_thrust(t): a thrust with a horizontal component
      (either sign) adds ThrustTilt, with no cap; any other leaves it. */
  function TiltFor(rotation: real, t: Vec): (r: real)
    ensures t.x != 0 ==> r == rotation + ThrustTilt
    ensures t.x == 0 ==> r == rotation
  {
    if t.x > 0 then rotation + ThrustTilt
    else if t.x < 0 then rotation + ThrustTilt
    else rotation
  }

  /** The tilt after `k` calls of set_rotation(delta). */
  function RotateTimes(rotation: real, delta: real, k: nat): real
  {
    if k == 0 then rotation else RotateBy(RotateTimes(rotation, delta, k - 1), delta)
  }

  /** Repeated non-negative rotations add up until they saturate at
      MaxRotation, and stay there. */
  lemma {:induction false} RotationSaturates(rotation: real, delta: real, k: nat)
    requires rotation <= MaxRotation && delta >= 0.0
    ensures RotateTimes(rotation, delta, k) == Min(rotation + (k as real) * delta, MaxRotation)
  {
    if k > 0 {
      RotationSaturates(rotation, delta, k - 1);
      assert (k as real) * delta == ((k - 1) as real) * delta + delta;
    }
  }

  /** Ten set_rotation(5) calls on a new lander leave the tilt at 45, not 50. */
  lemma ClampHoldsAfterTenSteps()
    ensures RotateTimes(0.0, 5.0, 10) == MaxRotation
  {
    RotationSaturates(0.0, 5.0, 10);
  }

  /** The tilt after `n` calls of set_thrust(t). */
  function ThrustTimes(rotation: real, t: Vec, n: nat): real
  {
    if n == 0 then rotation else TiltFor(ThrustTimes(rotation, t, n - 1), t)
  }

  /** set_thrust keeps adding ThrustTilt for every horizontal thrust: the tilt
      grows without bound, and set_rotation's cap does not apply. */
  lemma {:induction false} HorizontalThrustIsUncapped(rotation: real, t: Vec, n: nat)
    requires t.x != 0
    ensures ThrustTimes(rotation, t, n) == rotation + (n as real) * ThrustTilt
  {
    if n > 0 {
      HorizontalThrustIsUncapped(rotation, t, n - 1);
    }
  }

  /** Ten horizontal set_thrust calls on a new lander tilt it to 50. */
  lemma ThrustTiltPassesCap()
    ensures ThrustTimes(0.0, Vec(MoveForce, 0), 10) == 50.0 > MaxRotation
  {
    HorizontalThrustIsUncapped(0.0, Vec(MoveForce, 0), 10);
  }

  // ---- The lander --------------------------------------------------------

  /** The ship the player controls. `fuel` is also drained directly by
      GameWindow.OnUpdate, as in the source. */
  class Lander {
    var thrust: Vec
    var rotation: real
    var fuel: int
    var hasCrashed: bool

    /** The tank only ever drains from its initial level. */
    ghost predicate Valid()
      reads this
    {
      0 <= fuel <= InitialFuel
    }

    constructor ()
      ensures Valid()
      ensures thrust == Vec(0, 0) && rotation == 0.0
      ensures fuel == InitialFuel && !hasCrashed
    {
      thrust := Vec(0, 0);
      rotation := 0.0;
      fuel := InitialFuel;
      hasCrashed := false;
    }

    function GetFuel(): (r: int)
      reads this
      requires Valid()
      ensures r == fuel && 0 <= r <= InitialFuel
    {
      fuel
    }

    function GetRotation(): (r: real)
      reads this
      ensures r == rotation
    {
      rotation
    }

    /** An empty tank reports no thrust; otherwise the stored thrust. Only an
        exactly empty tank is gated. */
    function GetThrust(): (r: Vec)
      reads this
      ensures fuel == 0 ==> r == Vec(0, 0)
      ensures fuel != 0 ==> r == thrust
    {
      if fuel == 0 then Vec(0, 0) else thrust
    }

    method SetRotation(delta: real)
      modifies this
      ensures rotation == RotateBy(old(rotation), delta)
      ensures fuel == old(fuel) && thrust == old(thrust) && hasCrashed == old(hasCrashed)
    {
      rotation := rotation + delta;
      if rotation > MaxRotation {
        rotation := MaxRotation;
      }
    }

    method SetThrust(t: Vec)
      modifies this
      ensures thrust == t && rotation == TiltFor(old(rotation), t)
      ensures fuel == old(fuel) && hasCrashed == old(hasCrashed)
    {
      if t.x > 0 {
        rotation := rotation + ThrustTilt;
      } else if t.x < 0 {
        rotation := rotation + ThrustTilt;
      }
      thrust := t;
    }
  }

  // ---- Keyboard ----------------------------------------------------------

  /** The three level-triggered key flags of the main variant. */
  class InputService {
    var right: bool
    var left: bool
    var up: bool

    function State(): Held
      reads this
    {
      Held(right, left, up)
    }

    constructor ()
      ensures State() == NoneHeld
    {
      right, left, up := false, false, false;
    }

    method KeyInput(key: Key)
      modifies this
      ensures State() == Press(old(State()), key)
    {
      if key == Arrow(Right) {
        right := true;
      } else if key == Arrow(Left) {
        left := true;
      } else if key == Arrow(Up) {
        up := true;
      }
    }

    method KeyRelease(key: Key)
      modifies this
      ensures State() == Release(old(State()), key)
    {
      if key == Arrow(Right) {
        right := false;
      } else if key == Arrow(Left) {
        left := false;
      } else if key == Arrow(Up) {
        up := false;
      }
    }
  }

  // ---- Thrust selection and fuel -----------------------------------------

  /** True of exactly the three forces a frame can apply: MoveForce along +x,
      -x or +y. */
  predicate IsThrust(v: Vec)
  {
    v == Vec(MoveForce, 0) || v == Vec(-MoveForce, 0) || v == Vec(0, MoveForce)
  }

  /** The force one frame applies, given the held keys and the fuel before
      the frame: at most one, fuel permitting, with right before left before
      up. */
  function ChooseForce(held: Held, fuel: int): (r: Option<Vec>)
    ensures r.Some? <==> fuel > 0 && (held.right || held.left || held.up)
    ensures r.Some? ==> IsThrust(r.value)
    ensures r.Some? ==> (r.value.x > 0 <==> held.right)
    ensures r.Some? ==> (r.value.x < 0 <==> !held.right && held.left)
    ensures r.Some? ==> (r.value.y > 0 <==> !held.right && !held.left)
  {
    if held.right && fuel > 0 then Some(Vec(MoveForce, 0))
    else if held.left && fuel > 0 then Some(Vec(-MoveForce, 0))
    else if held.up && fuel > 0 then Some(Vec(0, MoveForce))
    else None
  }

  /** The fuel after one frame: one unit less exactly when a force is applied. */
  function FuelAfter(held: Held, fuel: int): (f: int)
    ensures f == fuel - 1 <==> ChooseForce(held, fuel).Some?
    ensures f == fuel <==> ChooseForce(held, fuel).None?
    ensures fuel >= 0 ==> 0 <= f <= fuel
  {
    if ChooseForce(held, fuel).Some? then fuel - 1 else fuel
  }

  /** When both horizontal keys are held, right always wins. */
  lemma RightWinsTie(held: Held, fuel: int)
    requires held.right && held.left && fuel > 0
    ensures ChooseForce(held, fuel) == Some(Vec(MoveForce, 0))
  {
  }

  /** The forces applied to the physics engine as a sequence. */
  function Forces(o: Option<Vec>): seq<Vec>
  {
    if o.Some? then [o.value] else []
  }

  /** What a run of frames leaves behind: the forces applied, in order, and
      the remaining fuel. */
  datatype Flight = Flight(forces: seq<Vec>, fuel: int)

  /** A run of frames from `fuel`, one per entry of `ticks` (the held keys at
      that frame). */
  function Run(ticks: seq<Held>, fuel: int): Flight
    decreases |ticks|
  {
    if ticks == [] then Flight([], fuel)
    else
      var rest := Run(ticks[1..], FuelAfter(ticks[0], fuel));
      Flight(Forces(ChooseForce(ticks[0], fuel)) + rest.forces, rest.fuel)
  }

  /** Over any run from a non-negative tank: the fuel stays non-negative, it
      drops by exactly the number of forces applied, no frame applies more
      than one force, and every force is a thrust. */
  lemma {:induction false} RunAccounting(ticks: seq<Held>, fuel: int)
    requires fuel >= 0
    ensures Run(ticks, fuel).fuel >= 0
    ensures Run(ticks, fuel).fuel == fuel - |Run(ticks, fuel).forces|
    ensures |Run(ticks, fuel).forces| <= |ticks|
    ensures forall i :: 0 <= i < |Run(ticks, fuel).forces| ==> IsThrust(Run(ticks, fuel).forces[i])
    decreases |ticks|
  {
    if ticks != [] {
      RunAccounting(ticks[1..], FuelAfter(ticks[0], fuel));
    }
  }

  /** Running `a` and then `b` is the run of `a + b`. */
  lemma {:induction false} RunAppend(a: seq<Held>, b: seq<Held>, fuel: int)
    ensures Run(a + b, fuel) ==
      Flight(Run(a, fuel).forces + Run(b, Run(a, fuel).fuel).forces,
             Run(b, Run(a, fuel).fuel).fuel)
    decreases |a|
  {
    if a != [] {
      assert (a + b)[0] == a[0];
      assert (a + b)[1..] == a[1..] + b;
      RunAppend(a[1..], b, FuelAfter(a[0], fuel));
    } else {
      assert a + b == b;
    }
  }

  /** `n` copies of `x`: the same held keys for `n` frames, or the same
      force `n` times. */
  function Replicate<T>(x: T, n: nat): (r: seq<T>)
    ensures |r| == n && forall i :: 0 <= i < n ==> r[i] == x
  {
    seq(n, _ => x)
  }

  /** Holding the same keys for `n` frames from `fuel` applies the same
      thrust once per frame while fuel lasts, and then nothing: the fuel ends
      at max(fuel - n, 0). */
  lemma {:induction false} HoldDrains(held: Held, fuel: int, n: nat)
    requires (held.right || held.left || held.up) && fuel >= 0
    ensures Run(Replicate(held, n), fuel) ==
      Flight(Replicate(ChooseForce(held, 1).value, n - Max(n - fuel, 0)), Max(fuel - n, 0))
    decreases n
  {
    var v := ChooseForce(held, 1).value;
    if n > 0 {
      assert Replicate(held, n)[1..] == Replicate(held, n - 1);
      HoldDrains(held, FuelAfter(held, fuel), n - 1);
      if fuel > 0 {
        assert ChooseForce(held, fuel) == Some(v);
        assert Replicate(v, n - Max(n - fuel, 0)) ==
          [v] + Replicate(v, (n - 1) - Max(n - 1 - (fuel - 1), 0));
      } else {
        assert Replicate(v, n - Max(n - fuel, 0)) == [];
        assert Replicate(v, (n - 1) - Max(n - 1 - fuel, 0)) == [];
      }
    }
  }

  /** A full tank held right for 1001 frames: 1000 pushes of (65, 0), the
      tank is then empty, and the 1001st frame applies nothing. */
  lemma FullTankHeldRight()
    ensures Run(Replicate(Held(true, false, false), 1001), InitialFuel) ==
      Flight(Replicate(Vec(MoveForce, 0), 1000), 0)
    ensures Run(Replicate(Held(true, false, false), 1000), InitialFuel) ==
      Flight(Replicate(Vec(MoveForce, 0), 1000), 0)
    ensures ChooseForce(Held(true, false, false), 0) == None
  {
    HoldDrains(Held(true, false, false), InitialFuel, 1001);
    HoldDrains(Held(true, false, false), InitialFuel, 1000);
  }

  /** With no key held, frames apply nothing and burn no fuel. */
  lemma {:induction false} IdleRunIsInert(fuel: int, n: nat)
    ensures Run(Replicate(NoneHeld, n), fuel) == Flight([], fuel)
    decreases n
  {
    if n > 0 {
      assert Replicate(NoneHeld, n)[1..] == Replicate(NoneHeld, n - 1);
      IdleRunIsInert(fuel, n - 1);
    }
  }

  /** Up held for 5 frames from 100 fuel and then released: five pushes of
      (0, 65), 95 fuel left, and nothing more however long the keys stay up. */
  lemma UpThenRelease(n: nat)
    ensures Run(Replicate(Held(false, false, true), 5), 100) ==
      Flight(Replicate(Vec(0, MoveForce), 5), 95)
    ensures Run(Replicate(Held(false, false, true), 5) + Replicate(NoneHeld, n), 100) ==
      Flight(Replicate(Vec(0, MoveForce), 5), 95)
  {
    var up := Held(false, false, true);
    RunAppend(Replicate(up, 5), Replicate(NoneHeld, n), 100);
    HoldDrains(up, 100, 5);
    IdleRunIsInert(95, n);
  }

  // ---- The game window ---------------------------------------------------

  /** The main window's game state: the lander, the keyboard flags, and in
      place of the physics engine a log of the forces applied to the lander's
      body and of the held keys at every frame. */
  class GameWindow {
    const lander: Lander
    const input: InputService
    ghost var forces: seq<Vec>
    ghost var ticks: seq<Held>

    /** The log and the fuel are exactly what the frames so far produce from
        a full tank: fuel + |forces| == InitialFuel at every frame. */
    ghost predicate Valid()
      reads this, lander
    {
      lander.Valid() &&
      Run(ticks, InitialFuel) == Flight(forces, lander.fuel) &&
      lander.fuel + |forces| == InitialFuel
    }

    constructor ()
      ensures Valid() && fresh(lander) && fresh(input)
      ensures forces == [] && ticks == []
      ensures input.State() == NoneHeld
      ensures lander.thrust == Vec(0, 0) && lander.rotation == 0.0 && !lander.hasCrashed
    {
      lander := new Lander();
      input := new InputService();
      forces, ticks := [], [];
    }

    method OnKeyPress(key: Key)
      modifies input
      ensures input.State() == Press(old(input.State()), key)
    {
      input.KeyInput(key);
    }

    method OnKeyRelease(key: Key)
      modifies input
      ensures input.State() == Release(old(input.State()), key)
    {
      input.KeyRelease(key);
    }

    /** One frame: apply at most one thrust force, draining one unit of fuel
        for it, then step the physics engine. */
    method OnUpdate() returns (applied: Option<Vec>)
      requires Valid()
      modifies this, lander
      ensures Valid()
      ensures applied == ChooseForce(input.State(), old(lander.fuel))
      ensures lander.fuel == FuelAfter(input.State(), old(lander.fuel))
      ensures forces == old(forces) + Forces(applied)
      ensures ticks == old(ticks) + [input.State()]
      ensures lander.thrust == old(lander.thrust) && lander.rotation == old(lander.rotation)
      ensures lander.hasCrashed == old(lander.hasCrashed)
    {
      ghost var held := input.State();
      applied := None;
      if input.right && lander.fuel > 0 {
        applied := Some(Vec(MoveForce, 0));
        ApplyForce(applied.value);
        lander.fuel := lander.fuel - 1;
      } else if input.left && lander.fuel > 0 {
        applied := Some(Vec(-MoveForce, 0));
        ApplyForce(applied.value);
        lander.fuel := lander.fuel - 1;
      } else if input.up && lander.fuel > 0 {
        applied := Some(Vec(0, MoveForce));
        ApplyForce(applied.value);
        lander.fuel := lander.fuel - 1;
      }
      RunAppend(ticks, [held], InitialFuel);
      ticks := ticks + [held];
    }

    /** The physics engine's apply_force, as an entry in the log. */
    ghost method ApplyForce(v: Vec)
      modifies this
      ensures forces == old(forces) + [v] && ticks == old(ticks)
    {
      forces := forces + [v];
    }
  }
}
