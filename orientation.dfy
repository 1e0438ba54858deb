/** The orientation hint handed to the face detector with every frame. */
module Orientation {

  /** UIDeviceOrientation: every value the platform reports. */
  datatype DeviceOrientation =
    | Unknown
    | Portrait
    | PortraitUpsideDown
    | LandscapeLeft
    | LandscapeRight
    | FaceUp
    | FaceDown

  /** The EXIF orientation code (1..8) under which the detector reads the
      camera image. Three orientations have a code of their own; portrait
      and every orientation that says nothing about rotation share code 6. */
  function ExifOrientation(orientation: DeviceOrientation): (code: int)
    ensures code in {1, 3, 6, 8}
    ensures code == 8 <==> orientation == PortraitUpsideDown
    ensures code == 3 <==> orientation == LandscapeLeft
    ensures code == 1 <==> orientation == LandscapeRight
    ensures code == 6 <==> orientation !in {PortraitUpsideDown, LandscapeLeft, LandscapeRight}
  {
    match orientation
    case PortraitUpsideDown => 8
    case LandscapeLeft => 3
    case LandscapeRight => 1
    case _ => 6
  }
}
