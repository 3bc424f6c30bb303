/** Walking and looking around the warehouse (src/components/scene/FirstPersonControls.tsx):
    four movement flags driven by the keyboard, mouse look while the pointer
    is locked with the pitch clamped short of straight up and down, the five
    event listeners the hook registers and removes, and the per-frame step
    that keeps the camera inside the warehouse walls. The velocity of a frame
    (camera direction times speed and frame time) is an input. */
module FirstPersonControls {
  import opened Types
  import Seqs

  // ------------------------------------------------------------- keyboard

  datatype Direction = Forward | Backward | Left | Right

  /** `moveState`: which movement keys are held. */
  datatype MoveState = MoveState(forward: bool, backward: bool, left: bool, right: bool)

  const Still := MoveState(false, false, false, false)

  function Flag(m: MoveState, d: Direction): bool {
    match d
    case Forward => m.forward
    case Backward => m.backward
    case Left => m.left
    case Right => m.right
  }

  /** The key codes the handlers react to: WASD and the arrow keys. */
  function KeyDirection(code: string): (r: Option<Direction>)
    ensures r == Some(Forward) <==> code in {"KeyW", "ArrowUp"}
    ensures r == Some(Backward) <==> code in {"KeyS", "ArrowDown"}
    ensures r == Some(Left) <==> code in {"KeyA", "ArrowLeft"}
    ensures r == Some(Right) <==> code in {"KeyD", "ArrowRight"}
  {
    if code == "KeyW" || code == "ArrowUp" then Some(Forward)
    else if code == "KeyS" || code == "ArrowDown" then Some(Backward)
    else if code == "KeyA" || code == "ArrowLeft" then Some(Left)
    else if code == "KeyD" || code == "ArrowRight" then Some(Right)
    else None
  }

  function SetFlag(m: MoveState, d: Direction, value: bool): (r: MoveState)
    ensures Flag(r, d) == value
    ensures forall e :: e != d ==> Flag(r, e) == Flag(m, e)
  {
    match d
    case Forward => m.(forward := value)
    case Backward => m.(backward := value)
    case Left => m.(left := value)
    case Right => m.(right := value)
  }

  /** `handleKeyDown` (value true) and `handleKeyUp` (value false): the key's
      flag takes the value, every other flag keeps its own, and keys outside
      the eight change nothing. */
  function OnKey(m: MoveState, code: string, value: bool): (r: MoveState)
    ensures KeyDirection(code).None? ==> r == m
    ensures forall d :: Flag(r, d) == (if KeyDirection(code) == Some(d) then value else Flag(m, d))
  {
    match KeyDirection(code)
    case None => m
    case Some(d) => SetFlag(m, d, value)
  }

  /** Releasing a key undoes pressing it when it was not held before. */
  lemma KeyUpUndoesKeyDown(m: MoveState, code: string)
    requires KeyDirection(code).Some? ==> !Flag(m, KeyDirection(code).value)
    ensures OnKey(OnKey(m, code, true), code, false) == m
  {
    var r := OnKey(OnKey(m, code, true), code, false);
    assert forall d :: Flag(r, d) == Flag(m, d);
  }

  /** Holding a key down (auto-repeat) is the same as pressing it once. */
  lemma KeyDownIdempotent(m: MoveState, code: string)
    ensures OnKey(OnKey(m, code, true), code, true) == OnKey(m, code, true)
  {
    var once := OnKey(m, code, true);
    assert forall d :: Flag(OnKey(once, code, true), d) == Flag(once, d);
  }

  /** The two keys for one direction are interchangeable. */
  lemma ArrowKeysMatchLetters(m: MoveState, value: bool)
    ensures OnKey(m, "ArrowUp", value) == OnKey(m, "KeyW", value)
    ensures OnKey(m, "ArrowDown", value) == OnKey(m, "KeyS", value)
    ensures OnKey(m, "ArrowLeft", value) == OnKey(m, "KeyA", value)
    ensures OnKey(m, "ArrowRight", value) == OnKey(m, "KeyD", value)
  {
  }

  // ----------------------------------------------------------- mouse look

  /** `Math.PI` as the double the browser uses. */
  const Pi: real := 3.141592653589793
  /** The pitch stays 0.1 rad short of looking straight up or down. */
  const PitchMax: real := Pi / 2.0 - 0.1
  /** Radians turned per pixel of mouse movement. */
  const LookSensitivity: real := 0.002

  /** The camera's yaw (about y) and pitch (about x), Euler order YXZ. */
  datatype Orientation = Orientation(yaw: real, pitch: real)

  function Clamp(v: real, lo: real, hi: real): (r: real)
    requires lo <= hi
    ensures lo <= r <= hi
    ensures lo <= v <= hi ==> r == v
    ensures v < lo ==> r == lo
    ensures v > hi ==> r == hi
  {
    if v < lo then lo else if v > hi then hi else v
  }

  /** `handleMouseMove`: ignored unless the pointer is locked; otherwise the
      yaw turns by the horizontal and the pitch by the vertical movement,
      and the pitch is clamped to [-PitchMax, PitchMax]. */
  function Look(o: Orientation, isLocked: bool, movementX: real, movementY: real): (r: Orientation)
    ensures !isLocked ==> r == o
    ensures isLocked ==> r.yaw == o.yaw - movementX * LookSensitivity
    ensures isLocked ==> -PitchMax <= r.pitch <= PitchMax
    ensures isLocked && -PitchMax <= o.pitch - movementY * LookSensitivity <= PitchMax ==>
              r.pitch == o.pitch - movementY * LookSensitivity
    ensures isLocked && o.pitch - movementY * LookSensitivity > PitchMax ==> r.pitch == PitchMax
    ensures isLocked && o.pitch - movementY * LookSensitivity < -PitchMax ==> r.pitch == -PitchMax
  {
    if !isLocked then o
    else Orientation(o.yaw - movementX * LookSensitivity,
                     Clamp(o.pitch - movementY * LookSensitivity, -PitchMax, PitchMax))
  }

  /** An element of the page, for comparing `document.pointerLockElement`. */
  type ElementId = nat

  /** `handlePointerLockChange`: locked exactly when the canvas holds the lock. */
  function LockedAfterChange(pointerLockElement: Option<ElementId>, canvas: ElementId): (r: bool)
    ensures r <==> pointerLockElement == Some(canvas)
  {
    pointerLockElement == Some(canvas)
  }

  /** A mouse movement or a pointer-lock change. */
  datatype LookEvent = MouseMove(dx: real, dy: real) | LockChange(element: Option<ElementId>)

  datatype LookState = LookState(orientation: Orientation, isLocked: bool)

  function LookStep(s: LookState, canvas: ElementId, e: LookEvent): LookState {
    match e
    case MouseMove(dx, dy) => s.(orientation := Look(s.orientation, s.isLocked, dx, dy))
    case LockChange(el) => s.(isLocked := LockedAfterChange(el, canvas))
  }

  function LookRun(s: LookState, canvas: ElementId, events: seq<LookEvent>): LookState
    decreases |events|
  {
    if events == [] then s else LookRun(LookStep(s, canvas, events[0]), canvas, events[1..])
  }

  /** Starting level, the camera never pitches past PitchMax either way. */
  lemma {:induction false} PitchStaysClamped(s: LookState, canvas: ElementId, events: seq<LookEvent>)
    requires -PitchMax <= s.orientation.pitch <= PitchMax
    ensures -PitchMax <= LookRun(s, canvas, events).orientation.pitch <= PitchMax
    decreases |events|
  {
    if events != [] {
      PitchStaysClamped(LookStep(s, canvas, events[0]), canvas, events[1..]);
    }
  }

  /** Until the canvas holds the pointer lock, the mouse does not turn the camera. */
  lemma {:induction false} NoLookWithoutLock(s: LookState, canvas: ElementId, events: seq<LookEvent>)
    requires !s.isLocked
    requires forall k :: 0 <= k < |events| ==> events[k].MouseMove? || events[k].element != Some(canvas)
    ensures LookRun(s, canvas, events) == s.(isLocked := false)
    decreases |events|
  {
    if events != [] {
      NoLookWithoutLock(LookStep(s, canvas, events[0]), canvas, events[1..]);
    }
  }

  // ------------------------------------------------------------ listeners

  datatype Target = Window | Document | Canvas

  datatype Handler = KeyDownHandler | KeyUpHandler | MouseMoveHandler | ClickHandler | LockChangeHandler

  /** `target.addEventListener(event, handler)`. */
  datatype Listener = Listener(target: Target, event: string, handler: Handler)

  /** The five listeners the hook's effect registers, in order. */
  const HookListeners: seq<Listener> := [
    Listener(Window, "keydown", KeyDownHandler),
    Listener(Window, "keyup", KeyUpHandler),
    Listener(Document, "mousemove", MouseMoveHandler),
    Listener(Canvas, "click", ClickHandler),
    Listener(Document, "pointerlockchange", LockChangeHandler)]

  /** The effect: register the five listeners when enabled, nothing otherwise. */
  function Mount(registry: seq<Listener>, enabled: bool): (r: seq<Listener>)
    ensures !enabled ==> r == registry
    ensures enabled ==> forall l :: l in r <==> l in registry || l in HookListeners
  {
    if enabled then registry + HookListeners else registry
  }

  /** The cleanup: `removeEventListener` for each of the five. */
  function Unmount(registry: seq<Listener>): (r: seq<Listener>)
    ensures forall l :: l in r <==> l in registry && l !in HookListeners
  {
    Seqs.Filter(registry, (l: Listener) => l !in HookListeners)
  }

  /** Mounting then cleaning up leaves the other listeners of the page as they
      were, in order. */
  lemma MountUnmount(registry: seq<Listener>, enabled: bool)
    requires forall l :: l in registry ==> l !in HookListeners
    ensures Unmount(Mount(registry, enabled)) == registry
  {
    var keep := (l: Listener) => l !in HookListeners;
    Seqs.FilterAll(registry, keep);
    if enabled {
      FilterAppendDropped(registry, HookListeners, keep);
    }
  }

  lemma {:induction false} FilterAppendDropped(a: seq<Listener>, b: seq<Listener>, p: Listener -> bool)
    requires forall l :: l in b ==> !p(l)
    ensures Seqs.Filter(a + b, p) == Seqs.Filter(a, p)
    decreases |a|
  {
    if a == [] {
      assert a + b == b;
      Seqs.FilterNone(b, p);
    } else {
      assert (a + b)[1..] == a[1..] + b;
      FilterAppendDropped(a[1..], b, p);
    }
  }

  // ---------------------------------------------------------------- frame

  /** The walls sit at |x| = 15 and |z| = 15; the camera stays strictly
      within 14 of the centre on each axis. */
  const Bound: real := 14.0

  function Abs(v: real): real {
    if v < 0.0 then -v else v
  }

  /** One axis of the frame step: the move is taken only if it stays within
      the bound, otherwise that axis does not move at all. */
  function AxisStep(p: real, v: real): (r: real)
    ensures Abs(p + v) < Bound ==> r == p + v
    ensures Abs(p + v) >= Bound ==> r == p
    ensures Abs(r) < Bound || r == p
  {
    if Abs(p + v) < Bound then p + v else p
  }

  /** The camera's ground position (y stays at eye height). */
  datatype Ground = Ground(x: real, z: real)

  /** The camera starts at (0, 1.7, 8). */
  const Start := Ground(0.0, 8.0)

  predicate InBounds(g: Ground) {
    Abs(g.x) < Bound && Abs(g.z) < Bound
  }

  /** The `useFrame` callback for a frame's velocity: nothing when disabled,
      otherwise each axis steps on its own, taking its move exactly when the
      new coordinate stays within the bound. */
  function Frame(g: Ground, enabled: bool, vx: real, vz: real): (r: Ground)
    ensures !enabled ==> r == g
    ensures enabled ==> (r.x == (if Abs(g.x + vx) < Bound then g.x + vx else g.x))
    ensures enabled ==> (r.z == (if Abs(g.z + vz) < Bound then g.z + vz else g.z))
    ensures InBounds(g) ==> InBounds(r)
  {
    if !enabled then g else Ground(AxisStep(g.x, vx), AxisStep(g.z, vz))
  }

  function FrameRun(g: Ground, enabled: bool, velocities: seq<(real, real)>): Ground
    decreases |velocities|
  {
    if velocities == [] then g
    else FrameRun(Frame(g, enabled, velocities[0].0, velocities[0].1), enabled, velocities[1..])
  }

  /** Whatever the player does, the camera never leaves the warehouse. */
  lemma {:induction false} StaysInBounds(g: Ground, enabled: bool, velocities: seq<(real, real)>)
    requires InBounds(g)
    ensures InBounds(FrameRun(g, enabled, velocities))
    decreases |velocities|
  {
    if velocities != [] {
      StaysInBounds(Frame(g, enabled, velocities[0].0, velocities[0].1), enabled, velocities[1..]);
    }
  }

  lemma StartInBounds()
    ensures InBounds(Start)
  {
  }

  /** While disabled, frames never move the camera. */
  lemma {:induction false} DisabledNeverMoves(g: Ground, velocities: seq<(real, real)>)
    ensures FrameRun(g, false, velocities) == g
    decreases |velocities|
  {
    if velocities != [] {
      DisabledNeverMoves(g, velocities[1..]);
    }
  }

  /** Against a wall the player slides: the blocked axis stays, the other moves. */
  lemma SlidesAlongWall()
    ensures Frame(Ground(13.5, 0.0), true, 1.0, 2.0) == Ground(13.5, 2.0)
  {
  }

  // ------------------------------------------------------------ the hook

  /** The hook's state: its flags, the camera and the page's listeners. */
  class Controls {
    const enabled: bool
    const canvas: ElementId
    var moveState: MoveState
    var orientation: Orientation
    var isLocked: bool
    var lockRequested: bool
    var position: Ground
    var listeners: seq<Listener>

    ghost predicate Valid()
      reads this
    {
      InBounds(position) && -PitchMax <= orientation.pitch <= PitchMax
    }

    /** Mounting the hook: the camera at its start, nothing held, not locked,
        and the listeners registered when enabled. */
    constructor (enabled: bool, canvas: ElementId, registry: seq<Listener>)
      ensures Valid()
      ensures this.enabled == enabled && this.canvas == canvas
      ensures moveState == Still && !isLocked && !lockRequested
      ensures position == Start && orientation == Orientation(0.0, 0.0)
      ensures listeners == Mount(registry, enabled)
    {
      this.enabled := enabled;
      this.canvas := canvas;
      moveState := Still;
      orientation := Orientation(0.0, 0.0);
      isLocked := false;
      lockRequested := false;
      position := Start;
      listeners := Mount(registry, enabled);
    }

    method HandleKeyDown(code: string)
      requires enabled
      modifies this
      ensures moveState == OnKey(old(moveState), code, true)
      ensures orientation == old(orientation) && position == old(position)
      ensures isLocked == old(isLocked) && lockRequested == old(lockRequested) && listeners == old(listeners)
    {
      moveState := OnKey(moveState, code, true);
    }

    method HandleKeyUp(code: string)
      requires enabled
      modifies this
      ensures moveState == OnKey(old(moveState), code, false)
      ensures orientation == old(orientation) && position == old(position)
      ensures isLocked == old(isLocked) && lockRequested == old(lockRequested) && listeners == old(listeners)
    {
      moveState := OnKey(moveState, code, false);
    }

    method HandleMouseMove(movementX: real, movementY: real)
      requires enabled && Valid()
      modifies this
      ensures Valid()
      ensures orientation == Look(old(orientation), isLocked, movementX, movementY)
      ensures moveState == old(moveState) && position == old(position)
      ensures isLocked == old(isLocked) && lockRequested == old(lockRequested) && listeners == old(listeners)
    {
      if !isLocked {
        return;
      }
      var yaw := orientation.yaw - movementX * LookSensitivity;
      var pitch := orientation.pitch - movementY * LookSensitivity;
      pitch := Clamp(pitch, -PitchMax, PitchMax);
      orientation := Orientation(yaw, pitch);
    }

    /** A click on the canvas asks the browser for the pointer lock; the
        answer arrives as a pointer-lock change. */
    method HandleClick()
      requires enabled
      modifies this
      ensures lockRequested
      ensures moveState == old(moveState) && orientation == old(orientation) && position == old(position)
      ensures isLocked == old(isLocked) && listeners == old(listeners)
    {
      lockRequested := true;
    }

    method HandlePointerLockChange(pointerLockElement: Option<ElementId>)
      requires enabled
      modifies this
      ensures isLocked <==> pointerLockElement == Some(canvas)
      ensures moveState == old(moveState) && orientation == old(orientation) && position == old(position)
      ensures lockRequested == old(lockRequested) && listeners == old(listeners)
    {
      isLocked := pointerLockElement == Some(canvas);
    }

    /** One rendered frame with the velocity computed from the held keys. */
    method OnFrame(vx: real, vz: real)
      requires Valid()
      modifies this
      ensures Valid()
      ensures position == Frame(old(position), enabled, vx, vz)
      ensures moveState == old(moveState) && orientation == old(orientation)
      ensures isLocked == old(isLocked) && lockRequested == old(lockRequested) && listeners == old(listeners)
    {
      if !enabled {
        return;
      }
      var newX := position.x + vx;
      var newZ := position.z + vz;
      if Abs(newX) < Bound {
        position := position.(x := newX);
      }
      if Abs(newZ) < Bound {
        position := position.(z := newZ);
      }
    }

    /** The effect's cleanup. */
    method Cleanup()
      modifies this
      ensures listeners == Unmount(old(listeners))
      ensures moveState == old(moveState) && orientation == old(orientation) && position == old(position)
      ensures isLocked == old(isLocked) && lockRequested == old(lockRequested)
    {
      listeners := Unmount(listeners);
    }
  }
}
