# FaceTracking geometry, modelled in Dafny

The FaceTracking app streams front-camera frames, asks a face detector for
face boxes, and moves a label view over each face in the camera preview. The
model covers the geometry that turns a detector's face box into the label's
frame on screen, in `FaceTracking/ViewController.swift`:

- `exifOrientation(orientation:)`: the fixed table from device orientation
  to the EXIF orientation code given to the detector (`Orientation`).
- `videoBox(frameSize:apertureSize:)`: the rectangle the camera image
  occupies relative to the preview layer. The aperture is turned by 90
  degrees (its ratio is height over width), scaled to the frame and centred
  (`FrameGeometry`).
- the arithmetic of `calculateFaceRect`: it swaps the axes of the face box,
  scales them by the video box, shifts by the box's y origin and mirrors
  horizontally (`FaceRectMapper`).

All coordinates are exact reals. `Geometry` holds the value types (CGSize,
CGPoint, CGRect) and the CGRect operations the source uses: the `width` and
`height` getters, standardisation and `offsetBy`.

`videoBox` and `calculateFaceRect` build their result step by step in local
structs. They are modelled as methods that perform the same assignments in
the same order. Each method is proved equal to a reference definition built
from a single aspect-fill factor, `FillScale = max(frame.width /
aperture.height, frame.height / aperture.width)`. `FillBox` is the rotated
aperture scaled by that factor and centred. `MappedFace` is the face swapped,
scaled uniformly by it, shifted and mirrored. The properties of the source's
geometry are proved about these definitions.

Three facts about the code shape the model:

- The code computes an aspect-fill. The box covers the frame and overflows on
  one axis, matching the preview layer's `AVLayerVideoGravityResizeAspectFill`
  gravity. As a result, the branches for a box smaller than the frame are
  never taken.
- The code has no error path and its divisions are unguarded, so the model
  requires the divisors to be positive.
- A 1080 x 1920 frame over a 1920 x 1080 aperture has equal ratios, takes the
  height branch and gives the box {x: 0, y: 0, w: 1080, h: 1920}.

The x formula of the final rectangle subtracts half of the overlay's width
(the face's height times the width factor, after the swap and the scaling)
and half the box's x origin. The y formula adds the whole box y origin. This
asymmetry is kept exactly as written.

## Model

| member | source | states |
|---|---|---|
| Orientation.ExifOrientation | FaceTracking/ViewController.swift:175-186 | the code is always one of 1, 3, 6, 8; it is 8 exactly for portrait upside down, 3 exactly for landscape left, 1 exactly for landscape right, and 6 exactly for every other orientation |
| FrameGeometry.VideoBox | FaceTracking/ViewController.swift:188-217 | a frame relatively wider than the rotated aperture gets a box of exactly the frame's width, otherwise exactly the frame's height; the box has the rotated aperture's aspect (width x aperture width = height x aperture height); it covers the frame on both axes; each origin is half the absolute overflow; the result equals the aspect-fill reference box |
| FrameGeometry.RatioOrder | FaceTracking/ViewController.swift:189-194 | the branch test view ratio > aperture ratio holds exactly when fitting the frame's width needs the larger scale factor |
| FrameGeometry.FillScaleIsLeastCover | FaceTracking/ViewController.swift:194-200 | the aspect-fill factor is the least factor at which the rotated aperture covers the frame on both axes (iff) |
| FrameGeometry.FillBoxCovers | FaceTracking/ViewController.swift:194-216 | the box covers the frame, equals it on at least one axis, keeps the rotated aperture's aspect, has non-negative origins and overflows by the same amount on both sides of each axis |
| FrameGeometry.FillScaleOfScaledAperture | FaceTracking/ViewController.swift:189-200 | an aperture k times larger in both sides (k > 0) still has non-zero sides and needs an aspect-fill factor k times smaller |
| FrameGeometry.VideoBoxDependsOnlyOnAspect | FaceTracking/ViewController.swift:188-217 | an aperture k times larger in both sides (k > 0) gives exactly the same video box: only the aperture's aspect matters |
| FrameGeometry.FullHdPortraitBox | FaceTracking/ViewController.swift:188-217 | a 1080 x 1920 frame over a 1920 x 1080 aperture has equal ratios, and its box is exactly {x: 0, y: 0, w: 1080, h: 1920} |
| FaceRectMapper.UniformScale | FaceTracking/ViewController.swift:244-245 | the width and height scale factors are equal to each other, equal to the aspect-fill factor, and positive |
| FaceRectMapper.ShiftThenMirror | FaceTracking/ViewController.swift:252-253 | for a rectangle of non-negative size, `offsetBy(dx: 0, dy: box y origin)` followed by the final rectangle keeps the size, adds the box's y origin to y, and sets x to parent width minus x, minus half the width, minus half the box's x origin |
| FaceRectMapper.PlaceInBox | FaceTracking/ViewController.swift:239-255 | for a face of non-negative size and non-negative factors, the swap, the per-axis scaling, the vertical shift and the mirror give the reference placement, whose sizes are the swapped face sizes times their factors and are never negative |
| FaceRectMapper.MappedFaceScales | FaceTracking/ViewController.swift:241-253 | the reference mapping has width face height x (box width / aperture height), height face width x (box height / aperture width), y face x x (box height / aperture width) + box y origin, x parent width - face y x (box width / aperture height) - width / 2 - box x origin / 2, non-negative sizes, and the face's aspect with the axes swapped |
| FaceRectMapper.CalculateFaceRect | FaceTracking/ViewController.swift:227-256 | the result width is face height x box width / aperture height; the height is face width x box height / aperture width; y is face x scaled plus the box's y origin; x is parent width minus face y scaled, minus half the result width, minus half the box's x origin; the sizes are non-negative; the face's aspect is kept with the axes swapped; the result equals the reference mapping |
| FaceRectMapper.MirrorReversesHorizontalOrder | FaceTracking/ViewController.swift:241-253 | for a fixed size and parent, moving the face by d along the sensor's y axis moves the overlay by -d x scale along x, so the overlay's x strictly decreases as the face's y grows |
| FaceRectMapper.SwapKeepsVerticalOrder | FaceTracking/ViewController.swift:242-252 | for a fixed size and parent, moving the face by d along the sensor's x axis moves the overlay by d x scale along y, so a face further along x lands strictly lower on screen |
| FaceRectMapper.FaceStaysInShiftedBoxVertically | FaceTracking/ViewController.swift:241-252 | a face lying within the aperture along the sensor's x axis lands between the box's y origin and that origin plus the box height |
| FaceRectMapper.MapWithScaledFace | FaceTracking/ViewController.swift:244-253 | for any factor and any non-zero k, a face k times larger placed with factors k times smaller gives the same rectangle: the placement sees the face only through the face sizes and origin times their factors |
| FaceRectMapper.OverlayIndependentOfResolution | FaceTracking/ViewController.swift:239-253 | a face box and aperture both measured k times larger (k > 0) give exactly the same overlay rectangle: the overlay depends only on where the face lies relative to the clean aperture |
| FaceRectMapper.FullHdPortraitFace | FaceTracking/ViewController.swift:227-256 | a 30 x 40 face at (100, 50) on a 1080 x 1920 preview over a 1920 x 1080 aperture becomes the 40 x 30 rectangle at (1010, 100) |

## Left out

- Capture session setup, camera selection and output configuration (lines 70-114): these are platform plumbing with no geometry.
- Pixel-buffer extraction, the detector call and the clean-aperture query (lines 128-150): these are foreign framework calls. The face box and the aperture size are inputs to the model.
- The per-frame loop over features, the main-queue dispatch, the animation, the label text and hiding the label when no face is found (lines 154-171, 259-268): this is UI work and thread hand-off.
- View lifecycle and debug printing (lines 47-65, 228-237): UI and I/O.
- The read of the preview layer's frame size (line 228): it becomes the `parent` parameter. The unused `facePosition` argument is dropped.
- Floating point: the model works over exact reals, with no rounding, NaN or infinity.
- FrameGeometry.VideoBox: requires strictly positive aperture sides and frame height, and a non-negative frame width. A zero aperture side yields infinity or NaN in the source, which the model does not represent. A zero frame height does not: the source then still returns a finite box (the zero rectangle for a 0 x 0 frame, whose NaN ratio selects the height branch; for a positive width, an infinite ratio selects the width branch), and the model does not cover that case. Negative sides, which the source does not check, are excluded as well.
- FaceRectMapper.CalculateFaceRect: requires a face size that is not negative. CGRect standardisation (in the `width`/`height` getters and `offsetBy`) is modelled, but only proved for non-negative sizes, which the detector reports.
