/** The kinematic pusher of TangramPusherKin: the key callbacks that keep the two
    signed intents and the force toggle, and the per-tick translation of the pusher. */
module Pusher {
  import opened Linear

  /** The fields the key callbacks write: the lateral intent `dx`, the insertion
      intent `dz` and the force toggle `m_shouldApplyForce`. */
  datatype Intent = Intent(dx: int, dz: int, applyForce: bool)

  /** The keys keyboardCallback handles itself; every other key is forwarded to
      the base class's handler. */
  predicate IsControlKey(key: char)
  {
    key == 'a' || key == 'd' || key == 's' || key == 'w' || key == ' '
  }

  /** keyboardCallback: 'a'/'d' set dx to 1/-1, 's'/'w' set dz to -1/1, space
      flips the force toggle. */
  function OnKeyDown(s: Intent, key: char): (r: Intent)
    ensures !IsControlKey(key) ==> r == s
    ensures key != ' ' ==> r.applyForce == s.applyForce
    ensures key != 'a' && key != 'd' ==> r.dx == s.dx
    ensures key != 's' && key != 'w' ==> r.dz == s.dz
    ensures key == ' ' ==> r.applyForce == !s.applyForce
  {
    if key == 'a' then s.(dx := 1)
    else if key == 'd' then s.(dx := -1)
    else if key == 's' then s.(dz := -1)
    else if key == 'w' then s.(dz := 1)
    else if key == ' ' then s.(applyForce := !s.applyForce)
    else s
  }

  /** keyboardUpCallback: releasing 'a' or 'd' clears dx, releasing 's' or 'w'
      clears dz; nothing else changes. */
  function OnKeyUp(s: Intent, key: char): (r: Intent)
    ensures r.applyForce == s.applyForce
    ensures key == 'a' || key == 'd' ==> r.dx == 0 && r.dz == s.dz
    ensures key == 's' || key == 'w' ==> r.dz == 0 && r.dx == s.dx
    ensures key != 'a' && key != 'd' && key != 's' && key != 'w' ==> r == s
  {
    if key == 'a' || key == 'd' then s.(dx := 0)
    else if key == 's' || key == 'w' then s.(dz := 0)
    else s
  }

  /** Pressing space twice restores the toggle and leaves both intents alone. */
  lemma SpaceTwiceRestores(s: Intent)
    ensures OnKeyDown(s, ' ').dx == s.dx && OnKeyDown(s, ' ').dz == s.dz
    ensures OnKeyDown(OnKeyDown(s, ' '), ' ') == s
  {
  }

  /** A key event as GLUT delivers it to the two callbacks. */
  datatype KeyEvent = Down(key: char) | Up(key: char)

  function Step(s: Intent, e: KeyEvent): Intent
  {
    match e
    case Down(k) => OnKeyDown(s, k)
    case Up(k) => OnKeyUp(s, k)
  }

  /** The intent after a sequence of key events, delivered in order. */
  function Apply(s: Intent, events: seq<KeyEvent>): Intent
    decreases |events|
  {
    if events == [] then s else Apply(Step(s, events[0]), events[1..])
  }

  predicate InRange(s: Intent)
  {
    -1 <= s.dx <= 1 && -1 <= s.dz <= 1
  }

  /** Intents that start in {-1, 0, 1} stay there under any sequence of key events. */
  lemma {:induction false} ApplyKeepsRange(s: Intent, events: seq<KeyEvent>)
    requires InRange(s)
    ensures InRange(Apply(s, events))
    decreases |events|
  {
    if events != [] {
      ApplyKeepsRange(Step(s, events[0]), events[1..]);
    }
  }

  /** Delivering one more event is one more step. */
  lemma {:induction false} ApplySnoc(s: Intent, events: seq<KeyEvent>, e: KeyEvent)
    ensures Apply(s, events + [e]) == Step(Apply(s, events), e)
    decreases |events|
  {
    if events == [] {
      assert events + [e] == [e];
    } else {
      assert (events + [e])[1..] == events[1..] + [e];
      ApplySnoc(Step(s, events[0]), events[1..], e);
    }
  }

  predicate TouchesX(e: KeyEvent)
  {
    e.key == 'a' || e.key == 'd'
  }

  predicate TouchesZ(e: KeyEvent)
  {
    e.key == 's' || e.key == 'w'
  }

  /** The lateral intent that the most recent 'a'/'d' event leaves, or `dx0`
      when there is none. */
  function LatestX(dx0: int, events: seq<KeyEvent>): int
    decreases |events|
  {
    if events == [] then dx0
    else
      var e := events[|events| - 1];
      if TouchesX(e) then (if e.Up? then 0 else if e.key == 'a' then 1 else -1)
      else LatestX(dx0, events[..|events| - 1])
  }

  /** The insertion intent that the most recent 's'/'w' event leaves, or `dz0`
      when there is none. */
  function LatestZ(dz0: int, events: seq<KeyEvent>): int
    decreases |events|
  {
    if events == [] then dz0
    else
      var e := events[|events| - 1];
      if TouchesZ(e) then (if e.Up? then 0 else if e.key == 'w' then 1 else -1)
      else LatestZ(dz0, events[..|events| - 1])
  }

  /** The number of space presses in a sequence of events. */
  function SpacePresses(events: seq<KeyEvent>): nat
    decreases |events|
  {
    if events == [] then 0
    else SpacePresses(events[..|events| - 1]) + (if events[|events| - 1] == Down(' ') then 1 else 0)
  }

  /** The two axes are independent: each intent is whatever the latest event on
      its own axis left, and the force toggle has flipped once per space press. */
  lemma {:induction false} ApplyCharacterized(s: Intent, events: seq<KeyEvent>)
    ensures Apply(s, events).dx == LatestX(s.dx, events)
    ensures Apply(s, events).dz == LatestZ(s.dz, events)
    ensures Apply(s, events).applyForce == (if SpacePresses(events) % 2 == 0 then s.applyForce else !s.applyForce)
    decreases |events|
  {
    if events != [] {
      var init, e := events[..|events| - 1], events[|events| - 1];
      assert events == init + [e];
      ApplySnoc(s, init, e);
      ApplyCharacterized(s, init);
    }
  }

  /** The fixed per-tick displacement (2·dx, 0, 0.01·dz); it does not depend on
      the elapsed time. */
  function Translation(s: Intent): Vec3
  {
    Vec3(2.0 * s.dx as real, 0.0, 0.01 * s.dz as real)
  }

  /** One tick of clientMoveAndDisplay on the pusher's world transform. */
  function Tick(t: Transform, s: Intent): (r: Transform)
    ensures r.rotation == t.rotation && r.origin.y == t.origin.y
    ensures r.origin.x - t.origin.x == 2.0 * s.dx as real
    ensures r.origin.z - t.origin.z == 0.01 * s.dz as real
    ensures InRange(s) ==> -2.0 <= r.origin.x - t.origin.x <= 2.0 && -0.01 <= r.origin.z - t.origin.z <= 0.01
  {
    Transform(t.rotation, Add(t.origin, Translation(s)))
  }

  /** `n` ticks with the same intent. */
  function Ticks(t: Transform, s: Intent, n: nat): Transform
  {
    if n == 0 then t else Tick(Ticks(t, s, n - 1), s)
  }

  /** `n` ticks with constant intent move x by 2·dx·n and z by 0.01·dz·n, and
      leave y and the rotation alone. */
  lemma {:induction false} TicksDisplacement(t: Transform, s: Intent, n: nat)
    ensures Ticks(t, s, n).rotation == t.rotation
    ensures Ticks(t, s, n).origin
         == Vec3(t.origin.x + 2.0 * (s.dx as real) * (n as real),
                 t.origin.y,
                 t.origin.z + 0.01 * (s.dz as real) * (n as real))
  {
    if n > 0 {
      TicksDisplacement(t, s, n - 1);
      var k := (n - 1) as real;
      assert 2.0 * (s.dx as real) * k + 2.0 * (s.dx as real) == 2.0 * (s.dx as real) * (n as real);
      assert 0.01 * (s.dz as real) * k + 0.01 * (s.dz as real) == 0.01 * (s.dz as real) * (n as real);
    }
  }

  /** Holding 'a' for three ticks moves the pusher exactly 6 units along x. */
  lemma {:induction false} HoldLeftThreeTicks(t: Transform, s: Intent)
    ensures Ticks(t, OnKeyDown(s, 'a'), 3).origin == Vec3(t.origin.x + 6.0, t.origin.y, t.origin.z + 0.03 * s.dz as real)
  {
    TicksDisplacement(t, OnKeyDown(s, 'a'), 3);
  }

  /** The application object: the intent fields, and the pusher's motion-state
      transform that clientMoveAndDisplay reads and writes back. */
  class TangramPusherKin {
    var dx: int
    var dz: int
    var shouldApplyForce: bool
    /** Whether m_dynamicsWorld has been created. */
    var hasWorld: bool
    var pusherPose: Transform

    function Current(): Intent
      reads this
    {
      Intent(dx, dz, shouldApplyForce)
    }

    /** The initial intents are set in the class declaration, which is not part
        of this model, so they are parameters here. */
    constructor (initial: Intent, pose: Transform, worldReady: bool)
      ensures Current() == initial && pusherPose == pose && hasWorld == worldReady
    {
      dx, dz, shouldApplyForce := initial.dx, initial.dz, initial.applyForce;
      pusherPose, hasWorld := pose, worldReady;
    }

    /** `forwarded` says the key went to the base class's handler. */
    method KeyboardCallback(key: char) returns (forwarded: bool)
      modifies this`dx, this`dz, this`shouldApplyForce
      ensures Current() == OnKeyDown(old(Current()), key)
      ensures forwarded == !IsControlKey(key)
    {
      forwarded := false;
      if key == 'a' {
        dx := 1;
      } else if key == 'd' {
        dx := -1;
      } else if key == 's' {
        dz := -1;
      } else if key == 'w' {
        dz := 1;
      } else if key == ' ' {
        shouldApplyForce := !shouldApplyForce;
      } else {
        forwarded := true;
      }
    }

    method KeyboardUpCallback(key: char)
      modifies this`dx, this`dz
      ensures Current() == OnKeyUp(old(Current()), key)
    {
      if key == 'a' || key == 'd' {
        dx := 0;
      } else if key == 's' || key == 'w' {
        dz := 0;
      }
    }

    /** The measured frame time `usec` is passed on to the simulation step only;
        the pusher moves by the fixed translation whatever its value. */
    method ClientMoveAndDisplay(usec: real)
      modifies this`pusherPose
      ensures pusherPose == if hasWorld then Tick(old(pusherPose), Current()) else old(pusherPose)
    {
      if hasWorld {
        var kinTranslation := Vec3(2.0 * dx as real, 0.0, 0.01 * dz as real);
        var newTrans := pusherPose;
        newTrans := newTrans.(origin := Add(newTrans.origin, kinTranslation));
        pusherPose := newTrans;
      }
    }
  }
}
