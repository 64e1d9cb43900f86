/** The earlier variant: no fuel, and a selection rule under which the two
    horizontal keys cancel each other. */
module LanderBeta {
  import opened Controls
  import MoonLander

  /** The force one frame applies: a horizontal push only when exactly one of
      left and right is held, otherwise an upward push if up is held. */
  function BetaChooseForce(held: Held): (r: Option<Vec>)
    ensures r.Some? <==> held.left != held.right || held.up
    ensures held.left && !held.right ==> r == Some(Vec(-MoveForce, 0))
    ensures held.right && !held.left ==> r == Some(Vec(MoveForce, 0))
    ensures held.left == held.right ==> r == (if held.up then Some(Vec(0, MoveForce)) else None)
  {
    if held.left && !held.right then Some(Vec(-MoveForce, 0))
    else if held.right && !held.left then Some(Vec(MoveForce, 0))
    else if held.up then Some(Vec(0, MoveForce))
    else None
  }

  /** Held keys with left and right swapped. */
  function Mirror(held: Held): Held
  {
    Held(held.left, held.right, held.up)
  }

  function MirrorForce(o: Option<Vec>): Option<Vec>
  {
    if o.Some? then Some(Vec(-o.value.x, o.value.y)) else None
  }

  /** The rule treats left and right alike: swapping the keys mirrors the
      force. The main variant's rule, where right wins, does not. */
  lemma BetaIsSymmetric(held: Held)
    ensures BetaChooseForce(Mirror(held)) == MirrorForce(BetaChooseForce(held))
  {
  }

  lemma MainRuleIsNotSymmetric()
    ensures MoonLander.ChooseForce(Mirror(Held(true, true, false)), 1) !=
      MirrorForce(MoonLander.ChooseForce(Held(true, true, false), 1))
  {
  }

  /** With fuel in the tank, the two variants choose the same force unless
      both horizontal keys are held. */
  lemma VariantsAgreeWithoutConflict(held: Held, fuel: int)
    requires fuel > 0 && !(held.left && held.right)
    ensures MoonLander.ChooseForce(held, fuel) == BetaChooseForce(held)
  {
  }

  /** With both horizontal keys held, the main variant pushes right while this
      one pushes up or not at all. */
  lemma VariantsDifferOnConflict(held: Held, fuel: int)
    requires fuel > 0 && held.left && held.right
    ensures MoonLander.ChooseForce(held, fuel) == Some(Vec(MoveForce, 0))
    ensures BetaChooseForce(held) != MoonLander.ChooseForce(held, fuel)
  {
  }

  /** This variant's lander holds the key flags itself. The source never
      initialises them, so a new lander's flags are left unspecified. */
  class Lander {
    var leftPressed: bool
    var rightPressed: bool
    var upPressed: bool

    function State(): Held
      reads this
    {
      Held(rightPressed, leftPressed, upPressed)
    }

    constructor ()
    {
    }

    method Move(key: Key)
      modifies this
      ensures State() == Press(old(State()), key)
    {
      if key == Arrow(Left) {
        leftPressed := true;
      } else if key == Arrow(Right) {
        rightPressed := true;
      } else if key == Arrow(Up) {
        upPressed := true;
      }
    }

    method NotMove(key: Key)
      modifies this
      ensures State() == Release(old(State()), key)
    {
      if key == Arrow(Left) {
        leftPressed := false;
      } else if key == Arrow(Right) {
        rightPressed := false;
      } else if key == Arrow(Up) {
        upPressed := false;
      }
    }
  }
}
