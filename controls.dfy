/** Values shared by both lander variants: the arrow keys the game reacts to,
    the three level-triggered direction flags, force vectors and the
    magnitude of one thrust. */
module Controls {

  datatype Option<T> = None | Some(value: T)

  /** A 2-D force as handed to the physics engine's apply_force. */
  datatype Vec = Vec(x: int, y: int)

  /** PLAYER_MOVE_FORCE in both variants. */
  const MoveForce: int := 65

  /** The three arrow keys with a meaning; every other key code is `Other`. */
  datatype Direction = Right | Left | Up

  datatype Key = Arrow(dir: Direction) | Other(code: int)

  /** Which directions are currently held down. */
  datatype Held = Held(right: bool, left: bool, up: bool)

  const NoneHeld := Held(false, false, false)

  function Get(h: Held, d: Direction): bool
  {
    match d
    case Right => h.right
    case Left => h.left
    case Up => h.up
  }

  /** The flags after the key `k` goes down: only the flag of an arrow key is
      raised; any other key is ignored. */
  function Press(h: Held, k: Key): (r: Held)
    ensures forall d :: Get(r, d) == (Get(h, d) || k == Arrow(d))
  {
    match k
    case Arrow(Right) => h.(right := true)
    case Arrow(Left) => h.(left := true)
    case Arrow(Up) => h.(up := true)
    case Other(_) => h
  }

  /** The flags after the key `k` goes up: only the flag of an arrow key is
      lowered; any other key, or a key that was not held, changes nothing. */
  function Release(h: Held, k: Key): (r: Held)
    ensures forall d :: Get(r, d) == (Get(h, d) && k != Arrow(d))
    ensures (forall d :: k != Arrow(d) || !Get(h, d)) ==> r == h
  {
    match k
    case Arrow(Right) => h.(right := false)
    case Arrow(Left) => h.(left := false)
    case Arrow(Up) => h.(up := false)
    case Other(_) => h
  }

  lemma PressIdempotent(h: Held, k: Key)
    ensures Press(Press(h, k), k) == Press(h, k)
  {
  }

  lemma ReleaseIdempotent(h: Held, k: Key)
    ensures Release(Release(h, k), k) == Release(h, k)
  {
  }

  /** Pressing and then releasing a key that was not held restores the flags. */
  lemma PressReleaseRestores(h: Held, k: Key)
    requires forall d :: k == Arrow(d) ==> !Get(h, d)
    ensures Release(Press(h, k), k) == h
  {
  }

  // ---- Sequences of key events -------------------------------------------

  datatype KeyEvent = KeyDown(key: Key) | KeyUp(key: Key)

  function Apply(h: Held, e: KeyEvent): Held
  {
    match e
    case KeyDown(k) => Press(h, k)
    case KeyUp(k) => Release(h, k)
  }

  /** The flags after the events `evs`, delivered in order. */
  function Replay(h: Held, evs: seq<KeyEvent>): Held
    decreases |evs|
  {
    if evs == [] then h else Apply(Replay(h, evs[..|evs| - 1]), evs[|evs| - 1])
  }

  /** The net press state of direction `d`: some press of its key is not
      followed by a release, or it was held at the start and never released. */
  ghost predicate NetHeld(initially: bool, d: Direction, evs: seq<KeyEvent>)
  {
    (exists i :: 0 <= i < |evs| && evs[i] == KeyDown(Arrow(d)) &&
       forall j :: i < j < |evs| ==> evs[j] != KeyUp(Arrow(d)))
    || (initially && forall j :: 0 <= j < |evs| ==> evs[j] != KeyUp(Arrow(d)))
  }

  /** Level-triggered flags: after any sequence of key events, each flag is
      exactly the net press state of its direction. */
  lemma {:induction false} ReplayIsNetState(h: Held, evs: seq<KeyEvent>, d: Direction)
    ensures Get(Replay(h, evs), d) == NetHeld(Get(h, d), d, evs)
    decreases |evs|
  {
    if evs != [] {
      var n := |evs| - 1;
      var prefix, e := evs[..n], evs[n];
      assert evs == prefix + [e];
      ReplayIsNetState(h, prefix, d);
      if e == KeyDown(Arrow(d)) {
        assert Get(Replay(h, evs), d);
        assert NetHeld(Get(h, d), d, evs) by {
          assert evs[n] == KeyDown(Arrow(d));
        }
      } else if e == KeyUp(Arrow(d)) {
        assert !Get(Replay(h, evs), d);
        assert !NetHeld(Get(h, d), d, evs) by {
          forall i | 0 <= i < |evs| && evs[i] == KeyDown(Arrow(d))
            ensures exists j :: i < j < |evs| && evs[j] == KeyUp(Arrow(d))
          {
            assert i < n && evs[n] == KeyUp(Arrow(d));
          }
          assert evs[n] == KeyUp(Arrow(d));
        }
      } else {
        assert Get(Replay(h, evs), d) == Get(Replay(h, prefix), d) by {
          match e
          case KeyDown(k) => assert k != Arrow(d);
          case KeyUp(k) => assert k != Arrow(d);
        }
        NetHeldSkip(Get(h, d), d, prefix, e);
      }
    }
  }

  /** An event on another key does not change the net press state of `d`. */
  lemma NetHeldSkip(initially: bool, d: Direction, prefix: seq<KeyEvent>, e: KeyEvent)
    requires e != KeyDown(Arrow(d)) && e != KeyUp(Arrow(d))
    ensures NetHeld(initially, d, prefix + [e]) == NetHeld(initially, d, prefix)
  {
    var evs := prefix + [e];
    var n := |prefix|;
    if NetHeld(initially, d, prefix) {
      if i :| 0 <= i < n && prefix[i] == KeyDown(Arrow(d)) &&
             forall j :: i < j < n ==> prefix[j] != KeyUp(Arrow(d)) {
        assert evs[i] == KeyDown(Arrow(d));
        assert forall j :: i < j < |evs| ==> evs[j] != KeyUp(Arrow(d));
      } else {
        assert forall j :: 0 <= j < |evs| ==> evs[j] != KeyUp(Arrow(d));
      }
    }
    if NetHeld(initially, d, evs) {
      if i :| 0 <= i < |evs| && evs[i] == KeyDown(Arrow(d)) &&
             forall j :: i < j < |evs| ==> evs[j] != KeyUp(Arrow(d)) {
        assert i < n && prefix[i] == KeyDown(Arrow(d));
        assert forall j :: i < j < n ==> prefix[j] != KeyUp(Arrow(d)) by {
          forall j | i < j < n ensures prefix[j] != KeyUp(Arrow(d)) {
            assert prefix[j] == evs[j];
          }
        }
      } else {
        assert forall j :: 0 <= j < n ==> prefix[j] != KeyUp(Arrow(d)) by {
          forall j | 0 <= j < n ensures prefix[j] != KeyUp(Arrow(d)) {
            assert prefix[j] == evs[j];
          }
        }
      }
    }
  }
}
