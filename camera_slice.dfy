/** The camera slice: third-person or first-person view. */
module CameraSlice {
  import opened Session

  function SetCameraMode(s: State, mode: CameraMode): (r: State)
    ensures r.cameraMode == mode
    ensures r == s.(cameraMode := r.cameraMode)
  {
    s.(cameraMode := mode)
  }

  /** Switches to the other view. */
  function ToggleCameraMode(s: State): (r: State)
    ensures r.cameraMode != s.cameraMode
    ensures r == s.(cameraMode := r.cameraMode)
  {
    s.(cameraMode := if s.cameraMode == Third then First else Third)
  }

  /** Toggling twice gives back the state toggled from. */
  lemma ToggleTwice(s: State)
    ensures ToggleCameraMode(ToggleCameraMode(s)) == s
  {
  }
}
