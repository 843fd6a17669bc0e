# OpenGL interactive scene: loaders, cameras and input, modelled in Dafny

This project models the non-graphical core of an OpenGL scene viewer written in C++:

- **The Wavefront OBJ loader** (`src/parser.cpp`). It reads a file word by word and handles four kinds of word:
  - `v`, `vt` and `vn` add records to three attribute pools;
  - `f` adds three `p/t/n` corners to three parallel index lists.

  It then de-indexes every corner through its 1-based indices, writes the result into a buffer of eight floats per corner, and clears its nine working vectors. It returns the buffer and the corner count.
- **The camera record `SCamera`** and its update rules:
  - `InitCamera`;
  - the fly-through rules `MoveCamera` and `OrientCamera`;
  - the orbit rule `MoveAndOrientCamera`.
- **The BMP loader `loadbitmap`.** It decodes and checks the packed little-endian headers, sizes the pixel buffer, and swaps the first and third byte of every 3-byte pixel in place (BGR to RGB).
- **The input handling of the main program:**
  - the globals it shares;
  - the camera set-up before the render loop;
  - `processKeyboard`, one step per frame for the set of keys held;
  - `processMouse`, one step per cursor event.

Modules, one per source file:
- `Geometry`: glm stand-ins;
- `Camera`: `camera.h`;
- `FlyThroughCamera`;
- `ModelViewerCamera`;
- `ObjParser`;
- `Bitmap`;
- `SceneInput`: `COMP3011_ASSESSMENT_3.cpp`;
- `Wrappers`: `Option`.

How the source's state is represented:
- The parser's global vectors are the fields of the class `ObjLoader`.
- `SCamera` and the scene's globals are the classes `Camera.SCamera` and `SceneInput.Scene`.
- Each method that updates them is proved against a function on values. Examples are `Moved`, `Oriented`, `Orbited`, `Scan`, `KeyboardStep` and `MouseStep`.
- The lemmas state the source's promises about those functions.

Angles, trigonometry, normalisation and the cross product come from glm. They are uninterpreted: a `Maths` record of functions is passed to every operation that uses them. Vector addition, subtraction and scaling are exact over `real`.

Where the loader's own messages and its code disagree, the model follows the code. The loader reports "Ensure Only Triangles Are Used" (`src/parser.cpp:125`), but the face conversion at `src/parser.cpp:114-120` reads only the first three corners of a line. A fourth corner is then read by `%s` as a word of its own and skipped, so a quad face is accepted as its first triangle. `ObjParser.Step` does the same.

## Model

| member | source | states |
|---|---|---|
| Camera.SCamera.constructor | src/headers/camera.h:13-24 | a camera of static storage starts with every vector and angle zero and the mouse sensitivity at its default 0.25 |
| Camera.ClampPitch | src/headers/FlyThroughCamera.h:35-38 | the result lies in [-89, 89]; it is the input when that is in range, 89 above the range, -89 below it |
| Camera.InitCamera | src/headers/camera.h:27-37 | the camera's new state is `Initialised` of its old state: the fixed basis, the given yaw and pitch, all else kept |
| Camera.InitialisedBasis | src/headers/camera.h:29-36 | Front = (0,0,-1), Position = 0, Up = WorldUp = (0,1,0), Right = normalize(cross(Front, WorldUp)); yaw and pitch are the arguments, unclamped; the sensitivity is unchanged |
| Camera.InitialisedRight | src/headers/camera.h:33 | with the true cross product the initial Right is normalize((1,0,0)) |
| Camera.ClampPitchIdempotent | src/headers/ModelViewerCamera.h:23-26 | clamping an already clamped pitch changes nothing |
| FlyThroughCamera.MoveCamera | src/headers/FlyThroughCamera.h:18-28 | the camera's new state is `Moved` of its old state for the direction |
| FlyThroughCamera.MovedDisplacement | src/headers/FlyThroughCamera.h:20-27 | FORWARD/BACKWARD displace the position by +/- Front*0.5, LEFT/RIGHT by -/+ Right*0.5; no other field changes |
| FlyThroughCamera.MovesCancel | src/headers/FlyThroughCamera.h:20-27 | BACKWARD undoes FORWARD and RIGHT undoes LEFT, in either order |
| FlyThroughCamera.OrientCamera | src/headers/FlyThroughCamera.h:30-52 | the camera's new state is `Oriented` of its old state and the offsets |
| FlyThroughCamera.OrientedAngles | src/headers/FlyThroughCamera.h:32-38 | yaw grows by xoffset*sensitivity without bound; pitch grows by yoffset*sensitivity, ends in [-89, 89] and equals the unclamped sum whenever that is in range; position, world-up and sensitivity are kept |
| FlyThroughCamera.OrientedIgnoresOldBasis | src/headers/FlyThroughCamera.h:40-51 | two cameras with equal yaw, pitch, world-up and sensitivity get the same Front, Right and Up whatever their old basis; Front = normalize of the yaw/pitch direction, Right and Up follow by cross products |
| ModelViewerCamera.MoveAndOrientCamera | src/headers/ModelViewerCamera.h:18-38 | the camera's new state is `Orbited` of its old state, the target, the distance and the offsets |
| ModelViewerCamera.OrbitedAngles | src/headers/ModelViewerCamera.h:20-26 | yaw drops by xoffset*MovementSpeed; pitch drops by yoffset*MovementSpeed, ends in [-89, 89] and equals the unclamped difference whenever that is in range; world-up and sensitivity are kept |
| ModelViewerCamera.OrbitedPositionAndBasis | src/headers/ModelViewerCamera.h:31-37 | the position depends on the new yaw, pitch and distance only, not on the old position or the target; Front = normalize(target - Position), then Right and Up by cross products |
| ModelViewerCamera.OrbitPositionLinear | src/headers/ModelViewerCamera.h:31-33 | the position scales linearly with the distance, and distance 0 puts the camera at the origin |
| ModelViewerCamera.OrbitedZeroOffsetIdempotent | src/headers/ModelViewerCamera.h:18-38 | zero offsets keep the yaw and only clamp the pitch, so repeating the call changes nothing |
| ModelViewerCamera.OppositeYawConventions | src/headers/ModelViewerCamera.h:20 | a positive x offset lowers the orbit camera's yaw but raises the fly-through camera's |
| ObjParser.Converted | src/parser.cpp:79 | the number of successful conversions is at most the number asked for; they cover a run of convertible words, and the run stops only at a word that does not convert or at the end |
| ObjParser.Step | src/parser.cpp:63-143 | a pass of the word loop either ends the read or moves on by at least one word, never past the end |
| ObjParser.StepEffects | src/parser.cpp:76-143 | `v`/`vt`/`vn` append exactly one record to their own pool and change nothing else; `f` ends the read exactly when fewer than 9 integers convert, otherwise it appends three entries to each index list and nothing else; any other word is skipped |
| ObjParser.ScanShape | src/parser.cpp:130-142 | the three index lists keep equal lengths, a multiple of 3, over a whole read |
| ObjParser.ScanExtends | src/parser.cpp:76-143 | a read only appends: every pool and index list starts with what it held before |
| ObjParser.MalformedFaceEndsRead | src/parser.cpp:114-127 | at an `f`, the read ends with the pools exactly as they were if and only if the face does not yield 9 integers |
| ObjParser.ConvertedAll | src/parser.cpp:79 | when k convertible words follow, all k conversions succeed |
| ObjParser.ConvertedShift | src/parser.cpp:79-120 | conversions only look at words from their starting position on |
| ObjParser.FloatAtShift | src/parser.cpp:79 | the component a conversion reads does not depend on earlier words |
| ObjParser.StepShift | src/parser.cpp:63-143 | one pass of the word loop only depends on the words from its own position on |
| ObjParser.VertexStepShift | src/parser.cpp:76-100 | a `v` or `vn` pass is the same when earlier words are prepended, shifted by their number |
| ObjParser.TexCoordStepShift | src/parser.cpp:85-91 | a `vt` pass is the same when earlier words are prepended, shifted by their number |
| ObjParser.FaceStepShift | src/parser.cpp:109-143 | an `f` pass is the same when earlier words are prepended, shifted by their number |
| ObjParser.ScanShift | src/parser.cpp:57-144 | reading from position abs(a)+i of a+b is reading from position i of b |
| ObjParser.LineStep | src/parser.cpp:76-143 | a well-formed `v`, `vt`, `vn` or triangle `f` line is consumed by exactly one pass and has exactly its meaning |
| ObjParser.RenderReadsBack | src/parser.cpp:57-144 | round trip: the words of a sequence of well-formed lines are read back as exactly those lines' records, in file order |
| ObjParser.Gather | src/parser.cpp:155-184 | de-indexing yields one element per index |
| ObjParser.GatherAt | src/parser.cpp:162 | element k of the de-indexed list is `pool[idx[k] - 1]` |
| ObjParser.GatherSnoc | src/parser.cpp:158-165 | one more index appends exactly the element it names |
| ObjParser.AppendGathered | src/parser.cpp:155-166 | a de-indexing loop appends, in index order, the pool elements the 1-based indices name |
| ObjParser.Interleave | src/parser.cpp:193-213 | the layout holds exactly 8 floats per corner |
| ObjParser.InterleaveAt | src/parser.cpp:198-212 | floats 8k..8k+7 are corner k's position, texture coordinate and normal |
| ObjParser.InterleaveSlot | src/parser.cpp:196-212 | float 8c+j is component j of the position, j-3 of the texture coordinate or j-5 of the normal of corner c, and (8c+j)/8 = c |
| ObjParser.VertexBufferLayout | src/parser.cpp:155-213 | the buffer holds 8 floats per corner; corner k's floats are the position, texture coordinate and normal its three 1-based indices name |
| ObjParser.ObjLoader.constructor | src/parser.cpp:13-26 | all nine vectors start empty |
| ObjParser.ObjLoader.ProcessFile | src/parser.cpp:40-147 | the pools and index lists become the result of reading the file onto them; a file that cannot be opened adds nothing; the ordered vectors are untouched |
| ObjParser.ObjLoader.ProcessWord | src/parser.cpp:63-143 | one pass of the word loop, stopping exactly when `Step` halts and otherwise leaving the state `Step` gives |
| ObjParser.ObjLoader.ProcessData | src/parser.cpp:149-187 | with every index in range, the ordered vectors grow by the de-indexed corners; otherwise nothing changes and the failure is reported |
| ObjParser.ObjLoader.Clear | src/parser.cpp:233-244 | all nine vectors are empty afterwards |
| ObjParser.ObjLoader.CreateVertices | src/parser.cpp:189-247 | the new buffer is the interleaving of the ordered vectors, and all nine vectors are empty afterwards |
| ObjParser.ObjLoader.ParseObj | src/parser.cpp:29-38 | the load succeeds if and only if every index names an element. Then the count is the number of corners (a multiple of 3), the buffer holds 8 floats per corner, and each corner's floats are its indexed records. An unopenable file gives an empty buffer with count 0. All vectors are empty afterwards |
| Bitmap.FromLittleEndian | src/headers/bitmap.h:71 | n bytes decode to a value below 256^n |
| Bitmap.ToLittleEndian | src/headers/bitmap.h:31-38 | a field is written as exactly n bytes |
| Bitmap.LittleEndianRoundTrip | src/headers/bitmap.h:31-38 | decoding the little-endian bytes of a value that fits gives the value back |
| Bitmap.EncodeFileHeader | src/headers/bitmap.h:31-38 | the packed file header is 2+4+2+2+4 = 14 bytes |
| Bitmap.FileHeaderRoundTrip | src/headers/bitmap.h:31-38 | every file header field is read back from its packed offset, whatever follows the header |
| Bitmap.PixelBytes | src/headers/bitmap.h:89 | the byte count is a multiple of 3, and positive exactly when width and height are non-zero and of the same sign |
| Bitmap.CheckHeaders | src/headers/bitmap.h:71-91 | "BM" (0x4D42) is checked before the 40-byte info header is read. The input is accepted if and only if it is long enough for both headers, the magic matches, the bit count is at least 24, the byte count w*h*3 is not negative, and it is 0 or its bytes from bfOffBits lie within the file. Accepted headers are the decoded ones |
| Bitmap.SwappedRB | src/headers/bitmap.h:95-100 | the swap keeps the length |
| Bitmap.SwappedRBPixel | src/headers/bitmap.h:95-100 | bytes 0 and 2 of every pixel are exchanged and byte 1 is kept |
| Bitmap.SwappedRBInvolution | src/headers/bitmap.h:95-100 | swapping twice restores the buffer |
| Bitmap.SwapRedBlue | src/headers/bitmap.h:95-100 | the loop leaves the array holding the swap of its old contents |
| Bitmap.PixelData | src/headers/bitmap.h:87-91 | the n bytes of the file from the offset, and none when n is 0 wherever the offset lies |
| Bitmap.ReadPixels | src/headers/bitmap.h:87-91 | the new buffer holds the n file bytes from the offset |
| Bitmap.LoadBitmap | src/headers/bitmap.h:59-106 | an unopenable file, a failed check or success are told apart; on success the headers are the decoded ones and the new buffer is the swap of the w*h*3 bytes at bfOffBits, or empty when there are no pixels |
| Bitmap.TwosComplement32 | src/headers/bitmap.h:45-46 | a LONG is stored as a 4-byte pattern below 2^32 that reads back as the same signed value |
| Bitmap.EncodeInfoHeader | src/headers/bitmap.h:42-55 | the packed info header is 4+4+4+2+2+4*6 = 40 bytes |
| Bitmap.EncodeInfoFront | src/headers/bitmap.h:44-48 | biSize to biBitCount take 16 bytes |
| Bitmap.EncodeInfoBack | src/headers/bitmap.h:49-54 | biCompression to biClrImportant take 24 bytes |
| Bitmap.FieldRoundTrip | src/headers/bitmap.h:31-55 | an unsigned field is read back from its offset, wherever the header starts and whatever follows it |
| Bitmap.SignedFieldRoundTrip | src/headers/bitmap.h:45-52 | a LONG field is read back with its sign |
| Bitmap.InfoFrontRoundTrip | src/headers/bitmap.h:44-48 | biSize, biWidth, biHeight, biPlanes and biBitCount are read back from offsets 0, 4, 8, 12 and 14 |
| Bitmap.InfoBackRoundTrip | src/headers/bitmap.h:49-54 | the last six fields are read back from offsets 16 to 36 |
| Bitmap.InfoHeaderRoundTrip | src/headers/bitmap.h:42-55 | every info header field is read back from its packed offset, wherever the header starts and whatever follows it |
| Bitmap.EmptyImageAccepted | src/headers/bitmap.h:87-91 | a well-formed file whose image has no pixels is accepted with the headers as written, whatever bfOffBits is |
| SceneInput.Scene.constructor | src/COMP3011_ASSESSMENT_3.cpp:42-56 | the globals' initial values: light (0,-1,0) at (0,4,0), fly-through mode, distance and rotation 0, two distinct zeroed cameras, first mouse event pending |
| SceneInput.Scene.SetupCameras | src/COMP3011_ASSESSMENT_3.cpp:95-103 | the state becomes `SetUp` of the old one |
| SceneInput.InitialScene | src/COMP3011_ASSESSMENT_3.cpp:95-103 | after set-up the fly-through camera is at the origin with yaw 45 and pitch -15; the orbit camera has yaw -180, pitch 22.5, distance 15 and sits at the orbit position for them |
| SceneInput.Scene.ProcessKeyboard | src/COMP3011_ASSESSMENT_3.cpp:406-509 | the state becomes `KeyboardStep` of the old one and the held keys |
| SceneInput.Scene.HandleWindowKeys | src/COMP3011_ASSESSMENT_3.cpp:411-420 | Escape requests closing; the rotation becomes `RotationAfter` |
| SceneInput.Scene.HandleModeKeys | src/COMP3011_ASSESSMENT_3.cpp:422-427 | the mode becomes `ModeAfter` |
| SceneInput.Scene.HandleLightKeys | src/COMP3011_ASSESSMENT_3.cpp:429-439 | the light becomes `LightAfter` for the camera of the current mode |
| SceneInput.Scene.MoveFlyThrough | src/COMP3011_ASSESSMENT_3.cpp:445-463 | the fly-through camera becomes `FlyMoves` of its old state; a change is flagged exactly when one of W, A, S, D is held |
| SceneInput.Scene.ReadOrbitKeys | src/COMP3011_ASSESSMENT_3.cpp:464-495 | the distance becomes `DistanceAfter`, the offsets are `OrbitOffset`, and a change is flagged exactly when an orbit key is held |
| SceneInput.ModeAfter | src/COMP3011_ASSESSMENT_3.cpp:422-427 | N selects fly-through even when M is held too; M alone selects orbit; neither keeps the mode |
| SceneInput.RotationAfter | src/COMP3011_ASSESSMENT_3.cpp:416-420 | `,` alone adds 5, `.` alone subtracts 5, both or neither keep the angle |
| SceneInput.OrbitOffset | src/COMP3011_ASSESSMENT_3.cpp:441-485 | the last held of UP, DOWN, LEFT, RIGHT decides: RIGHT (1,0) beats LEFT (-1,0) beats DOWN (0,1) beats UP (0,-1); none gives (0,0); the offset is always one of these five |
| SceneInput.DistanceAfter | src/COMP3011_ASSESSMENT_3.cpp:487-494 | R alone brings the camera 0.2*MovementSpeed closer, F alone moves it that much further, both or neither keep the distance |
| SceneInput.KeyboardTouchesActiveCameraOnly | src/COMP3011_ASSESSMENT_3.cpp:445-501 | the new mode governs the step. In fly-through mode only W/A/S/D move the fly-through camera; the orbit camera and distance are kept. In orbit mode the fly-through camera is kept, and without an orbit key the orbit camera too. The keyboard never touches the cursor record, and a close request is never withdrawn |
| SceneInput.LightFollowsActiveCamera | src/COMP3011_ASSESSMENT_3.cpp:429-439 | Space or L copies the Front and Position of the new mode's camera, as they were before this frame's moves; otherwise the light stays |
| SceneInput.FlyMovesDisplacement | src/COMP3011_ASSESSMENT_3.cpp:445-462 | the moves of a frame add up: only the position changes; W and S cancel, A and D cancel |
| SceneInput.OrbitKeysMoveOrbitCamera | src/COMP3011_ASSESSMENT_3.cpp:487-501 | in orbit mode with an orbit key held, the orbit camera is re-oriented about the origin by the chosen offsets at the new distance; R and F together keep the distance |
| SceneInput.MouseOffsets | src/COMP3011_ASSESSMENT_3.cpp:518-526 | the first event's offsets are zero; later ones are the motion since the recorded position, with y inverted |
| SceneInput.Scene.ProcessMouse | src/COMP3011_ASSESSMENT_3.cpp:511-534 | the state becomes `MouseStep` of the old one and the cursor position |
| SceneInput.FirstMouseEventOffsetsZero | src/COMP3011_ASSESSMENT_3.cpp:518-523 | the first event turns the fly-through camera by zero offsets and records the position |
| SceneInput.MouseIgnoredInOrbitMode | src/COMP3011_ASSESSMENT_3.cpp:528-533 | in orbit mode a cursor event only records the position |
| SceneInput.MouseTurnsTheRightWay | src/COMP3011_ASSESSMENT_3.cpp:525-532 | moving the cursor right raises the yaw; moving it up raises the pitch while it is below 89 |
| SceneInput.MouseYawTelescopes | src/COMP3011_ASSESSMENT_3.cpp:525-532 | two events turn the yaw as far as one event from the first recorded position straight to the last |

## Left out

- File and window I/O is not modelled. This covers `fopen`, `fscanf`, `fread`, `fseek`, `fclose`, `printf`, GLFW, shaders, textures and rendering.
  - An OBJ file is a sequence of tokens, and a file that cannot be opened is `None`.
  - A BMP file is a byte sequence.
  - Keys held in a frame are a set, and the window-close request is a flag.
- Lexing is not modelled. A `Number` token is a word `%f` converts; an `IndexTriple` is a word `%d/%d/%d` converts. A `Word` is taken never to be text that `%f` or `%d/%d/%d` converts (such as `1.5` or `1/2/3`): the lemmas range over all token streams, including ones no lexer would produce from such text. Two scanf details are therefore not captured:
  - a partly converting word such as `1/2/3` after a `v`, where `%f` would read the `1`;
  - a face whose corner stops in the middle of a triple (matches other than 0, 3, 6 or 9).
- Decimal-to-float conversion is left out, and so is all floating point: values are `real` and arithmetic is exact.
- glm's `radians`, `cos`, `sin`, `normalize` and `cross` are uninterpreted, so nothing is claimed about unit length or orthogonality of the basis.
- A vector component that `fscanf` does not reach is modelled as 0; the source leaves it as glm's default.
- ObjParser.ObjLoader.ProcessData: the source reads `pool[idx - 1]` unchecked, which is undefined for an index outside the pool. The model checks every index first and reports `IndexOutOfRange`, which ParseObj returns after clearing the vectors. Face indices are unbounded integers, so the wrap-around of a negative index stored in an `unsigned int` is not modelled.
- ObjParser.ObjLoader.ParseObj requires an empty loader. The source's vectors are globals that start empty and are emptied at the end of every call. The constructor and every call keep that.
- Bitmap.CheckHeaders: `Truncated` and `NegativeSize` are added errors. They stand for an unchecked `fread` of header or pixel bytes past the end of the file and for `new[]` of a negative size, which the source does not guard against. An image with no pixels is accepted whatever bfOffBits is, since nothing is read after the seek.
- Bitmap.LoadBitmap: the source returns `NULL` on every failure and `0` on success, which a caller cannot tell apart, and it leaves the caller's headers partly written on failure. The model returns which check failed and no headers.
- Bitmap.PixelBytes: the 32-bit overflow of `biWidth*biHeight*3` is not modelled.
- Pixel rows are assumed to have no padding, and a 32-bit bitmap is read as 3 bytes per pixel, exactly as the source does.
- `lightDirection_scene`, `lightPos_scene` and the per-frame animation in `main` are not modelled. The input handlers never touch them.
- The conversion of the mouse offsets from `double` to `float` is not modelled.
- SceneInput.Scene.ProcessKeyboard: the `glfwPollEvents` call at its start is where GLFW runs the cursor callback. A frame is therefore zero or more `MouseStep`s, for the pending cursor events, followed by `KeyboardStep`. The model keeps the two handlers as separate steps and does not model the event queue.
