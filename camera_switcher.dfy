/**
 * The view switcher component (Assets/Script/CameraSwitcher.cs) over the scene objects it
 * changes in place: the two cameras, the player body's transform and the global cursor. Each
 * method's new state is the one the matching function of CameraViews gives.
 */
module CameraSwitching {
  import opened CameraViews

  /** A camera's game object together with its audio listener, its follow script and its transform. */
  class CameraObject {
    var active: bool
    var parentsActive: bool
    var hasListener: bool
    var listenerEnabled: bool
    var hasFollow: bool
    var followEnabled: bool
    var localRotation: Euler

    function State(): Camera
      reads this
    {
      Camera(active, parentsActive, hasListener, listenerEnabled, hasFollow, followEnabled, localRotation)
    }

    constructor (c: Camera)
      ensures State() == c
    {
      active, parentsActive := c.active, c.parentsActive;
      hasListener, listenerEnabled := c.hasListener, c.listenerEnabled;
      hasFollow, followEnabled := c.hasFollow, c.followEnabled;
      localRotation := c.localRotation;
    }
  }

  /** The transform that mouse look turns about the vertical axis: its yaw in degrees. */
  class BodyTransform {
    var yaw: real

    constructor (yaw: real)
      ensures this.yaw == yaw
    {
      this.yaw := yaw;
    }
  }

  /** The engine's global cursor state. */
  class CursorSettings {
    var lockState: CursorLockMode
    var visible: bool

    function State(): Cursor
      reads this
    {
      Cursor(lockState, visible)
    }

    constructor (c: Cursor)
      ensures State() == c
    {
      lockState, visible := c.lockState, c.visible;
    }
  }

  class CameraSwitcher {
    const thirdPersonCam: CameraObject
    const firstPersonCam: CameraObject
    var playerBody: BodyTransform?
    /** The transform of the object the script sits on. */
    const ownTransform: BodyTransform
    var mouseSensitivity: real
    var xRotation: real
    var isFirstPersonView: bool
    const cursor: CursorSettings

    /** The two camera references name different objects. */
    predicate Valid()
      reads this
    {
      thirdPersonCam != firstPersonCam
    }

    /** The state the switcher acts on, with `body` as the player body. */
    function ViewWith(body: BodyTransform): View
      reads this, thirdPersonCam, firstPersonCam, cursor, body
    {
      View(isFirstPersonView, xRotation, thirdPersonCam.State(), firstPersonCam.State(), cursor.State(), body.yaw)
    }

    /** The state the switcher acts on. */
    function CurrentView(): View
      reads this, thirdPersonCam, firstPersonCam, cursor, playerBody
      requires playerBody != null
    {
      ViewWith(playerBody)
    }

    /** A component as the scene creates it, with the declared defaults (lines 5-14). */
    constructor (third: CameraObject, first: CameraObject, body: BodyTransform?,
                 own: BodyTransform, cursorSettings: CursorSettings)
      requires third != first
      ensures Valid()
      ensures thirdPersonCam == third && firstPersonCam == first
      ensures playerBody == body && ownTransform == own && cursor == cursorSettings
      ensures mouseSensitivity == 100.0 && xRotation == 0.0 && !isFirstPersonView
    {
      thirdPersonCam, firstPersonCam := third, first;
      playerBody, ownTransform := body, own;
      mouseSensitivity := 100.0;
      xRotation := 0.0;
      isFirstPersonView := false;
      cursor := cursorSettings;
    }

    /** Start-up (lines 16-26): default the player body to the own transform, then show the third-person view. */
    method Start()
      requires Valid() && thirdPersonCam.hasFollow
      modifies this`playerBody, thirdPersonCam, firstPersonCam, cursor
      ensures playerBody == (if old(playerBody) == null then ownTransform else old(playerBody))
      ensures CurrentView() == old(ThirdPersonView(ViewWith(if playerBody == null then ownTransform else playerBody)))
      ensures ThirdPersonLayout(CurrentView())
      ensures isFirstPersonView == old(isFirstPersonView)
    {
      if playerBody == null {
        playerBody := ownTransform;
      }
      ActivateThirdPersonView();
    }

    /** One frame (lines 28-48): the switch on a key press, then mouse look when it applies. */
    method Update(switchPressed: bool, mouseAxisX: real, mouseAxisY: real, deltaTime: real)
      requires Valid() && playerBody != null
      requires switchPressed && isFirstPersonView ==> thirdPersonCam.hasFollow
      modifies this`isFirstPersonView, this`xRotation, thirdPersonCam, firstPersonCam, cursor, playerBody
      ensures CurrentView() ==
        Frame(old(CurrentView()), FrameInput(switchPressed, mouseAxisX, mouseAxisY, deltaTime), mouseSensitivity)
    {
      if switchPressed {
        isFirstPersonView := !isFirstPersonView;
        if isFirstPersonView {
          ActivateFirstPersonView();
        } else {
          ActivateThirdPersonView();
        }
      }
      if isFirstPersonView && firstPersonCam.active && firstPersonCam.parentsActive {
        HandleFirstPersonMouseLook(mouseAxisX, mouseAxisY, deltaTime);
      }
    }

    /** Lines 50-63. */
    method ActivateThirdPersonView()
      requires Valid() && playerBody != null && thirdPersonCam.hasFollow
      modifies thirdPersonCam, firstPersonCam, cursor
      ensures CurrentView() == ThirdPersonView(old(CurrentView()))
    {
      thirdPersonCam.active := true;
      if !thirdPersonCam.hasListener {
        thirdPersonCam.hasListener, thirdPersonCam.listenerEnabled := true, true;
      }
      thirdPersonCam.listenerEnabled := true;
      thirdPersonCam.followEnabled := true;

      firstPersonCam.active := false;
      if firstPersonCam.hasListener {
        firstPersonCam.listenerEnabled := false;
      }

      cursor.lockState := NoLock;
      cursor.visible := true;
    }

    /** Lines 65-79. */
    method ActivateFirstPersonView()
      requires Valid() && playerBody != null
      modifies this`xRotation, thirdPersonCam, firstPersonCam, cursor
      ensures CurrentView() == FirstPersonView(old(CurrentView()))
    {
      thirdPersonCam.active := false;
      if thirdPersonCam.hasListener {
        thirdPersonCam.listenerEnabled := false;
      }
      if thirdPersonCam.hasFollow {
        thirdPersonCam.followEnabled := false;
      }

      firstPersonCam.active := true;
      if !firstPersonCam.hasListener {
        firstPersonCam.hasListener, firstPersonCam.listenerEnabled := true, true;
      }
      firstPersonCam.listenerEnabled := true;

      cursor.lockState := Locked;
      cursor.visible := false;
      xRotation := firstPersonCam.localRotation.x;
    }

    /** Lines 81-93, with the mouse axes and the frame time given. */
    method HandleFirstPersonMouseLook(mouseAxisX: real, mouseAxisY: real, deltaTime: real)
      requires Valid() && playerBody != null
      modifies this`xRotation, firstPersonCam, playerBody
      ensures CurrentView() ==
        MouseLook(old(CurrentView()), mouseAxisX * mouseSensitivity * deltaTime, mouseAxisY * mouseSensitivity * deltaTime)
    {
      var mouseX := mouseAxisX * mouseSensitivity * deltaTime;
      var mouseY := mouseAxisY * mouseSensitivity * deltaTime;

      xRotation := xRotation - mouseY;
      xRotation := Clamp(xRotation, -90.0, 90.0);
      firstPersonCam.localRotation := Euler(xRotation, 0.0, 0.0);

      playerBody.yaw := playerBody.yaw + mouseX;
    }
  }
}
