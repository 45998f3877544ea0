/**
 * The view switcher's state machine (Assets/Script/CameraSwitcher.cs) stated on values: the two
 * camera rigs, the cursor, the view flag, the pitch accumulator and the body's yaw, and what
 * each transition, each mouse-look step and each frame makes of them.
 */
module CameraViews {

  /** Euler angles in degrees (pitch, yaw, roll). */
  datatype Euler = Euler(x: real, y: real, z: real)

  /**
   * What the switcher reads and writes of one camera object: whether its game object is active
   * and whether its parents are, its audio listener (present, enabled), its follow script
   * (present, enabled) and its local rotation.
   */
  datatype Camera = Camera(active: bool, parentsActive: bool,
                           hasListener: bool, listenerEnabled: bool,
                           hasFollow: bool, followEnabled: bool,
                           localRotation: Euler)

  datatype CursorLockMode = NoLock | Locked | Confined

  datatype Cursor = Cursor(lockState: CursorLockMode, visible: bool)

  /** The whole state the switcher acts on. */
  datatype View = View(isFirstPersonView: bool, xRotation: real,
                       thirdPersonCam: Camera, firstPersonCam: Camera,
                       cursor: Cursor, bodyYaw: real)

  /** One frame's input: the switch key's press and the two mouse axes, plus the frame time. */
  datatype FrameInput = FrameInput(switchPressed: bool, mouseX: real, mouseY: real, deltaTime: real)

  /** `activeInHierarchy`: the object and all its parents are active. */
  predicate ActiveInHierarchy(c: Camera)
  {
    c.active && c.parentsActive
  }

  /** The camera has an audio listener and it is enabled. */
  predicate Listening(c: Camera)
  {
    c.hasListener && c.listenerEnabled
  }

  /** The camera has the follow script and it is enabled. */
  predicate Following(c: Camera)
  {
    c.hasFollow && c.followEnabled
  }

  /** The third-person arrangement of lines 50-63. */
  predicate ThirdPersonLayout(v: View)
  {
    v.thirdPersonCam.active && Listening(v.thirdPersonCam) && Following(v.thirdPersonCam) &&
    !v.firstPersonCam.active && !Listening(v.firstPersonCam) &&
    v.cursor == Cursor(NoLock, true)
  }

  /** The first-person arrangement of lines 65-79. */
  predicate FirstPersonLayout(v: View)
  {
    v.firstPersonCam.active && Listening(v.firstPersonCam) &&
    !v.thirdPersonCam.active && !Listening(v.thirdPersonCam) && !Following(v.thirdPersonCam) &&
    v.cursor == Cursor(Locked, false)
  }

  /** The cameras and the cursor are arranged as the view flag says. */
  predicate Settled(v: View)
  {
    if v.isFirstPersonView then FirstPersonLayout(v) else ThirdPersonLayout(v)
  }

  /** Only what the transitions touch may differ: the parents' activity, the component presence of the follow script and the rotations stay. */
  predicate SameScene(v: View, w: View)
  {
    v.thirdPersonCam.parentsActive == w.thirdPersonCam.parentsActive &&
    v.firstPersonCam.parentsActive == w.firstPersonCam.parentsActive &&
    v.thirdPersonCam.hasFollow == w.thirdPersonCam.hasFollow &&
    v.firstPersonCam.hasFollow == w.firstPersonCam.hasFollow &&
    v.firstPersonCam.followEnabled == w.firstPersonCam.followEnabled &&
    v.thirdPersonCam.localRotation == w.thirdPersonCam.localRotation &&
    v.firstPersonCam.localRotation == w.firstPersonCam.localRotation
  }

  /** `Mathf.Clamp(x, lo, hi)`. */
  function Clamp(x: real, lo: real, hi: real): (r: real)
    requires lo <= hi
    ensures lo <= r <= hi
    ensures lo <= x <= hi ==> r == x
    ensures x < lo ==> r == lo
    ensures x > hi ==> r == hi
  {
    if x < lo then lo else if x > hi then hi else x
  }

  /**
   * `ActivateThirdPersonView` (lines 50-63). The follow script must be present on the
   * third-person camera: line 55 enables it without a null check.
   */
  function ThirdPersonView(v: View): (r: View)
    requires v.thirdPersonCam.hasFollow
    ensures ThirdPersonLayout(r)
    ensures r.isFirstPersonView == v.isFirstPersonView && r.xRotation == v.xRotation && r.bodyYaw == v.bodyYaw
    ensures SameScene(v, r)
    ensures r.firstPersonCam.hasListener == v.firstPersonCam.hasListener
  {
    var tp := v.thirdPersonCam;
    var fp := v.firstPersonCam;
    v.(thirdPersonCam := tp.(active := true, hasListener := true, listenerEnabled := true, followEnabled := true),
       firstPersonCam := fp.(active := false, listenerEnabled := if fp.hasListener then false else fp.listenerEnabled),
       cursor := Cursor(NoLock, true))
  }

  /**
   * `ActivateFirstPersonView` (lines 65-79): the pitch accumulator takes the first-person
   * camera's current pitch as it stands, without clamping.
   */
  function FirstPersonView(v: View): (r: View)
    ensures FirstPersonLayout(r)
    ensures r.xRotation == v.firstPersonCam.localRotation.x
    ensures r.isFirstPersonView == v.isFirstPersonView && r.bodyYaw == v.bodyYaw
    ensures SameScene(v, r)
    ensures r.thirdPersonCam.hasListener == v.thirdPersonCam.hasListener
  {
    var tp := v.thirdPersonCam;
    var fp := v.firstPersonCam;
    v.(thirdPersonCam := tp.(active := false,
                             listenerEnabled := if tp.hasListener then false else tp.listenerEnabled,
                             followEnabled := if tp.hasFollow then false else tp.followEnabled),
       firstPersonCam := fp.(active := true, hasListener := true, listenerEnabled := true),
       cursor := Cursor(Locked, false),
       xRotation := fp.localRotation.x)
  }

  /** A press of the switch key (lines 30-41): flip the flag, then activate the view it names. */
  function PressSwitch(v: View): (r: View)
    requires v.isFirstPersonView ==> v.thirdPersonCam.hasFollow
    ensures r.isFirstPersonView == !v.isFirstPersonView
    ensures Settled(r)
    ensures SameScene(v, r) && r.bodyYaw == v.bodyYaw
  {
    var w := v.(isFirstPersonView := !v.isFirstPersonView);
    if w.isFirstPersonView then FirstPersonView(w) else ThirdPersonView(w)
  }

  /**
   * One mouse-look step (lines 81-93) with the already scaled deltas: the pitch accumulator
   * loses the vertical delta and is clamped to [-90, 90], the camera takes it as its local
   * rotation, and the body's yaw gains the horizontal delta without any bound.
   */
  function MouseLook(v: View, deltaX: real, deltaY: real): (r: View)
    ensures -90.0 <= r.xRotation <= 90.0
    ensures r.xRotation == Clamp(v.xRotation - deltaY, -90.0, 90.0)
    ensures r.firstPersonCam.localRotation == Euler(r.xRotation, 0.0, 0.0)
    ensures r.bodyYaw - v.bodyYaw == deltaX
    ensures r.isFirstPersonView == v.isFirstPersonView && r.cursor == v.cursor
    ensures r.thirdPersonCam == v.thirdPersonCam
    ensures r.firstPersonCam == v.firstPersonCam.(localRotation := r.firstPersonCam.localRotation)
  {
    var x := Clamp(v.xRotation - deltaY, -90.0, 90.0);
    v.(xRotation := x,
       firstPersonCam := v.firstPersonCam.(localRotation := Euler(x, 0.0, 0.0)),
       bodyYaw := v.bodyYaw + deltaX)
  }

  /** Mouse look runs only in the first-person view while that camera is active in the hierarchy (line 44). */
  predicate LooksAround(v: View)
  {
    v.isFirstPersonView && ActiveInHierarchy(v.firstPersonCam)
  }

  /** One call of `Update` (lines 28-48): the switch, then the mouse look when it applies. */
  function Frame(v: View, input: FrameInput, sensitivity: real): View
    requires input.switchPressed && v.isFirstPersonView ==> v.thirdPersonCam.hasFollow
  {
    var w := if input.switchPressed then PressSwitch(v) else v;
    if LooksAround(w) then
      MouseLook(w, input.mouseX * sensitivity * input.deltaTime, input.mouseY * sensitivity * input.deltaTime)
    else w
  }

  /** The state after a run of frames. */
  function Run(v: View, inputs: seq<FrameInput>, sensitivity: real): View
    requires v.thirdPersonCam.hasFollow
    decreases |inputs|
  {
    if inputs == [] then v
    else
      var w := Frame(v, inputs[0], sensitivity);
      FrameKeepsScene(v, inputs[0], sensitivity);
      Run(w, inputs[1..], sensitivity)
  }

  /** How many of the frames press the switch key. */
  function Presses(inputs: seq<FrameInput>): nat
    decreases |inputs|
  {
    if inputs == [] then 0
    else (if inputs[0].switchPressed then 1 else 0) + Presses(inputs[1..])
  }

  /** A frame changes no part of the scene the switcher does not write. */
  lemma FrameKeepsScene(v: View, input: FrameInput, sensitivity: real)
    requires input.switchPressed && v.isFirstPersonView ==> v.thirdPersonCam.hasFollow
    ensures Frame(v, input, sensitivity).thirdPersonCam.hasFollow == v.thirdPersonCam.hasFollow
    ensures Frame(v, input, sensitivity).firstPersonCam.parentsActive == v.firstPersonCam.parentsActive
  {
  }

  /** In a settled state exactly one camera is active and listening, and the cursor is locked and hidden exactly in first person. */
  lemma SettledExclusive(v: View)
    requires Settled(v)
    ensures v.thirdPersonCam.active != v.firstPersonCam.active
    ensures Listening(v.thirdPersonCam) != Listening(v.firstPersonCam)
    ensures v.cursor.lockState == Locked <==> v.isFirstPersonView
    ensures v.cursor.visible <==> !v.isFirstPersonView
    ensures Following(v.thirdPersonCam) <==> !v.isFirstPersonView
  {
  }

  /** Two presses of the switch key restore the view, the cameras' activity, listeners and follow script, and the cursor. */
  lemma SwitchTwiceRestores(v: View)
    requires Settled(v) && v.thirdPersonCam.hasFollow
    ensures var r := PressSwitch(PressSwitch(v));
      r.isFirstPersonView == v.isFirstPersonView && r.cursor == v.cursor &&
      r.thirdPersonCam.active == v.thirdPersonCam.active && r.firstPersonCam.active == v.firstPersonCam.active &&
      Listening(r.thirdPersonCam) == Listening(v.thirdPersonCam) &&
      Listening(r.firstPersonCam) == Listening(v.firstPersonCam) &&
      Following(r.thirdPersonCam) == Following(v.thirdPersonCam) &&
      r.bodyYaw == v.bodyYaw && SameScene(v, r)
  {
  }

  /** After two presses from any state, a further two presses give back exactly the same state. */
  lemma SwitchFourTimesIsSwitchTwice(v: View)
    requires v.thirdPersonCam.hasFollow
    ensures PressSwitch(PressSwitch(PressSwitch(PressSwitch(v)))) == PressSwitch(PressSwitch(v))
  {
  }

  /** A frame keeps the cameras and the cursor arranged as the view flag says. */
  lemma FrameKeepsSettled(v: View, input: FrameInput, sensitivity: real)
    requires Settled(v) && v.thirdPersonCam.hasFollow
    ensures Settled(Frame(v, input, sensitivity))
  {
  }

  /** A frame flips the view exactly when the switch key is pressed. */
  lemma FrameFlipsOnPress(v: View, input: FrameInput, sensitivity: real)
    requires v.thirdPersonCam.hasFollow
    ensures Frame(v, input, sensitivity).isFirstPersonView == (v.isFirstPersonView != input.switchPressed)
  {
  }

  /** A frame that ends looking around in first person leaves the pitch in [-90, 90], whatever the seed was. */
  lemma FrameClampsPitch(v: View, input: FrameInput, sensitivity: real)
    requires input.switchPressed && v.isFirstPersonView ==> v.thirdPersonCam.hasFollow
    ensures var r := Frame(v, input, sensitivity);
      LooksAround(r) ==> -90.0 <= r.xRotation <= 90.0 && r.firstPersonCam.localRotation == Euler(r.xRotation, 0.0, 0.0)
  {
  }

  /** A frame that does not look around leaves the pitch accumulator and the body's yaw as the switch left them. */
  lemma NoLookWithoutFirstPerson(v: View, input: FrameInput, sensitivity: real)
    requires input.switchPressed && v.isFirstPersonView ==> v.thirdPersonCam.hasFollow
    ensures var w := if input.switchPressed then PressSwitch(v) else v;
      var r := Frame(v, input, sensitivity);
      !LooksAround(w) ==> r == w
    ensures !input.switchPressed && !v.isFirstPersonView ==> Frame(v, input, sensitivity) == v
  {
  }

  /**
   * The seed is not clamped when taken: entering first person with a camera pitch of 350 (how the
   * engine reports a slight upward look) and no mouse motion, the same frame's look step clamps
   * the pitch to 90.
   */
  lemma EnteringWithLargeSeed(v: View, sensitivity: real)
    requires !v.isFirstPersonView && v.firstPersonCam.parentsActive
    requires v.firstPersonCam.localRotation == Euler(350.0, 0.0, 0.0)
    ensures FirstPersonView(v).xRotation == 350.0
    ensures Frame(v, FrameInput(true, 0.0, 0.0, 0.02), sensitivity).xRotation == 90.0
  {
  }

  /** Over any run of frames the arrangement matches the view flag. */
  lemma {:induction false} RunKeepsSettled(v: View, inputs: seq<FrameInput>, sensitivity: real)
    requires Settled(v) && v.thirdPersonCam.hasFollow
    ensures Settled(Run(v, inputs, sensitivity))
    decreases |inputs|
  {
    if inputs != [] {
      FrameKeepsSettled(v, inputs[0], sensitivity);
      FrameKeepsScene(v, inputs[0], sensitivity);
      RunKeepsSettled(Frame(v, inputs[0], sensitivity), inputs[1..], sensitivity);
    }
  }

  /** Each press flips the view once: after a run, the view has flipped exactly when the number of presses is odd. */
  lemma {:induction false} RunParity(v: View, inputs: seq<FrameInput>, sensitivity: real)
    requires v.thirdPersonCam.hasFollow
    ensures Run(v, inputs, sensitivity).isFirstPersonView == (v.isFirstPersonView != (Presses(inputs) % 2 == 1))
    decreases |inputs|
  {
    if inputs != [] {
      FrameFlipsOnPress(v, inputs[0], sensitivity);
      FrameKeepsScene(v, inputs[0], sensitivity);
      RunParity(Frame(v, inputs[0], sensitivity), inputs[1..], sensitivity);
    }
  }

  /** The state the switcher starts in: the third-person view, settled (lines 14 and 25). */
  lemma StartIsThirdPerson(v: View)
    requires !v.isFirstPersonView && v.thirdPersonCam.hasFollow
    ensures Settled(ThirdPersonView(v)) && !ThirdPersonView(v).isFirstPersonView
  {
  }
}
