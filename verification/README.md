# Scene and view managers of an OpenGL scene renderer, in Dafny

This project models two components of an OpenGL scene renderer and proves
properties about them.

**The scene manager (`SceneManager.cpp`) as a tagged texture and material registry.**
- Textures live in a fixed array of `(GL name, tag)` entries with a fill
  counter.
- `CreateGLTexture` stores an entry only for a decoded RGB or RGBA image.
- `FindTextureSlot` and `FindTextureID` return the first match or `-1`.
- Materials live in a growing list that `DefineObjectMaterials` fills and
  `FindMaterial` searches by first match.
- The `Set*` methods turn these lookups into uniform writes on the shader
  manager.
- `LoadSceneTextures` tries the eight scene images in order, ignores
  failures and then binds every registered texture to its unit.

**The view manager (`ViewManager.cpp`) as a projection-mode and mouse-tracking state machine with frame timing.**
- The state is the member flag `bOrthographicProjection`, plus the
  file-scope globals: the mirror `g_bOrthographic`, the cursor reference
  `gLastX`/`gLastY`, the first-sample flag `gFirstMouse`, `gDeltaTime` and
  `gLastFrame`.
- The cursor callback drops samples in orthographic mode. It turns a
  first sample into a zero offset, and otherwise sends the offset from the
  reference with y inverted.
- `ProcessKeyboardEvents` moves the camera for W/S/A/D/Q/E and switches
  mode with O and P. Each switch is guarded, and each sets the first-sample
  flag.
- `PrepareSceneView` updates the clock, processes the keys and sends the
  view, the projection and the camera position.

## Layout

| file | module | contents |
|---|---|---|
| `gfx.dfy` | `Gfx` | vectors, symbolic matrices and projections, uniform writes |
| `scene_manager.dfy` | `Scene` | first-match functions, GL event sequences, class `SceneManager`, lemmas |
| `view_manager.dfy` | `View` | tracking and key functions, classes `InputGlobals` and `ViewManager`, lemmas |

**Effects are recorded, not performed.**
- GL calls are appended to `glLog` as `GlEvent`s.
- Shader-manager calls are appended to `uniforms` as `UniformWrite`s.
- Calls on the camera are appended to `cameraCalls`.

**Inputs from outside the program are parameters.**
- The decoder's outcome for each image (`DecodeOutcome`).
- The name `glGenTextures` hands out.
- The key state of one poll (`Keys`).
- The clock reading.
- The camera's `Zoom` and `Position` when a frame is prepared (`CameraReadout`).

**Matrices are symbolic.**
- A model matrix is the list of its factors, `T · Rz · Ry · Rx · S`.
- A projection is the kind plus its parameters.
- The view matrix is an opaque `CameraView`.

**Types.**
- A GLuint is an integer in `[0, 2^32)`.
- `FindTextureID` converts the name to a 32-bit int explicitly (`AsInt32`).

## Model

| member | source | states |
|---|---|---|
| Scene.AsInt32 | 7-1_FinalProjectMilestones/Source/SceneManager.cpp:154-162 | The GLuint returned as `int` is a 32-bit value congruent to the name mod 2^32. It equals the name below 2^31. |
| Scene.SlotFrom | 7-1_FinalProjectMilestones/Source/SceneManager.cpp:170-178 | The scan from index `from` returns -1 iff no later entry has the tag. Otherwise it returns the first index at or after `from` whose entry has the tag. |
| Scene.FirstSlot | 7-1_FinalProjectMilestones/Source/SceneManager.cpp:170-178 | The result lies in [-1, count). It is -1 iff no entry has the tag; otherwise it is the smallest index whose entry has the tag. |
| Scene.MaterialIndexFrom | 7-1_FinalProjectMilestones/Source/SceneManager.cpp:186-197 | The material scan from `from` is -1 iff no later material has the tag, and otherwise the first match. |
| Scene.FirstMaterial | 7-1_FinalProjectMilestones/Source/SceneManager.cpp:186-197 | The result is None iff no material has the tag. A found material carries the tag. |
| Scene.SceneManager.constructor | 7-1_FinalProjectMilestones/Source/SceneManager.cpp:37-42 | The registry starts empty (count 0), with no materials and empty logs. It keeps the shader manager it was given. |
| Scene.SceneManager.CreateGLTexture | 7-1_FinalProjectMilestones/Source/SceneManager.cpp:63-120 | Returns true iff the image decoded with 3 or 4 channels. Then `(name, tag)` is written at the old count, the count rises by one and the other array cells are unchanged. Otherwise the count and the whole array are unchanged. The GL log grows by exactly `UploadEvents`. |
| Scene.SceneManager.BindGLTextures | 7-1_FinalProjectMilestones/Source/SceneManager.cpp:127-134 | The loop appends `BindSequence` of the registered entries, i.e. activate unit i then bind entry i's name, in order (loop invariant over the prefix). |
| Scene.SceneManager.DestroyGLTextures | 7-1_FinalProjectMilestones/Source/SceneManager.cpp:141-147 | The loop deletes each registered name in order. The count is not reset. |
| Scene.SceneManager.FindTextureID | 7-1_FinalProjectMilestones/Source/SceneManager.cpp:154-162 | The loop returns -1 when no entry has the tag. Otherwise it returns the first match's name converted to int. |
| Scene.SceneManager.FindTextureSlot | 7-1_FinalProjectMilestones/Source/SceneManager.cpp:170-178 | The loop returns `FirstSlot` of the registered entries, a value in [-1, count). |
| Scene.SceneManager.FindMaterial | 7-1_FinalProjectMilestones/Source/SceneManager.cpp:186-197 | Returns true iff some material has the tag. On a hit it copies out the first match; on a miss the out-parameter keeps its incoming value. The list is not modified. |
| Scene.SceneManager.SetTransformations | 7-1_FinalProjectMilestones/Source/SceneManager.cpp:205-221 | With a shader manager, writes `model` = translate · rotZ · rotY · rotX · scale in that factor order. Without one, writes nothing. |
| Scene.SceneManager.SetShaderColor | 7-1_FinalProjectMilestones/Source/SceneManager.cpp:228-241 | Writes `bUseTexture` = 0 and then `objectColor` = the RGBA colour. Without a shader manager, writes nothing. |
| Scene.SceneManager.SetShaderTexture | 7-1_FinalProjectMilestones/Source/SceneManager.cpp:248-256 | Writes `bUseTexture` = 1 and then the sampler `objectTexture` = the tag's first slot, which is -1 for an unknown tag. Without a shader manager, writes nothing. |
| Scene.SceneManager.SetTextureUVScale | 7-1_FinalProjectMilestones/Source/SceneManager.cpp:263-269 | Writes `UVscale` = (u, v) when there is a shader manager. |
| Scene.SceneManager.SetShaderMaterial | 7-1_FinalProjectMilestones/Source/SceneManager.cpp:277-286 | An unknown tag writes nothing. A known tag writes the first match's diffuse colour, then its specular colour, then its shininess. |
| Scene.SceneManager.DefineObjectMaterials | 7-1_FinalProjectMilestones/Source/SceneManager.cpp:294-434 | Appends the seventeen scene materials to the list, in source order. |
| Scene.SceneManager.LoadSceneTextures | 7-1_FinalProjectMilestones/Source/SceneManager.cpp:525-540 | The registry grows by exactly the entries of the uploadable images, in call order, tagged `pot` … `wall`. The GL log grows by each call's upload events and then the bind sequence of all registered entries. |
| Scene.SceneManager.LoadTextureAt | 7-1_FinalProjectMilestones/Source/SceneManager.cpp:529-536 | The k-th `CreateGLTexture` call of a load extends the entries and the log from the first k calls' share to the first k+1 calls' share. |
| Scene.StoredGrows | 7-1_FinalProjectMilestones/Source/SceneManager.cpp:529-536 | A prefix of a load registers no more entries than the whole load. |
| Scene.LoadFits | 7-1_FinalProjectMilestones/Source/SceneManager.cpp:111-113 | If the whole load fits the array, every storing call within it finds a free cell. |
| Scene.FirstSlotIs | 7-1_FinalProjectMilestones/Source/SceneManager.cpp:170-178 | A match at i with no match before i is the first slot. |
| Scene.FirstSlotAppend | 7-1_FinalProjectMilestones/Source/SceneManager.cpp:170-178 | Registering more textures never changes the slot of a tag already registered. A new tag resolves to its first position in the appended part, offset by the old count. |
| Scene.TextureIdMatchesSlot | 7-1_FinalProjectMilestones/Source/SceneManager.cpp:154-178 | When all names are below 2^31, FindTextureID is -1 exactly when FindTextureSlot is -1. Otherwise it is the name at that slot. |
| Scene.LargestNameReadsAsSentinel | 7-1_FinalProjectMilestones/Source/SceneManager.cpp:154-162 | A texture registered with name 0xFFFFFFFF is found at slot 0, yet its ID lookup reads -1, the "not found" value. |
| Scene.BindSequenceAt | 7-1_FinalProjectMilestones/Source/SceneManager.cpp:127-134 | Event 2i of the bind sequence activates unit i, and event 2i+1 binds entry i's name. |
| Scene.DeleteSequenceAt | 7-1_FinalProjectMilestones/Source/SceneManager.cpp:141-147 | The i-th deletion frees entry i's name. |
| Scene.UploadEventsShape | 7-1_FinalProjectMilestones/Source/SceneManager.cpp:72-119 | A failed decode makes no GL call. A stored image generates its name first and ends by unbinding. Any other channel count generates a name that is never deleted and leaves it bound. |
| Scene.StoredCount | 7-1_FinalProjectMilestones/Source/SceneManager.cpp:529-536 | A load registers exactly as many textures as it had uploadable images. |
| Scene.UnusedTagNotStored | 7-1_FinalProjectMilestones/Source/SceneManager.cpp:529-536 | A tag that none of the calls used is not found among what they registered. |
| Scene.LoadedSlot | 7-1_FinalProjectMilestones/Source/SceneManager.cpp:529-539 | With distinct tags, image j's slot is the number of uploadable images before it. A failed image's tag is not found. |
| Scene.UploadableCountBound | 7-1_FinalProjectMilestones/Source/SceneManager.cpp:529-536 | At most j of the first j images are uploadable, and fewer when one of them failed. |
| Scene.CountAtMost | 7-1_FinalProjectMilestones/Source/SceneManager.cpp:529-536 | The number of uploadable images among the first k is at most k. |
| Scene.SceneTextureTagsDistinct | 7-1_FinalProjectMilestones/Source/SceneManager.cpp:529-536 | The eight scene texture tags are pairwise different. |
| Scene.SceneTextureSlots | 7-1_FinalProjectMilestones/Source/SceneManager.cpp:529-539 | On an empty registry, scene texture j sits in slot j when every earlier image loaded. A failed earlier load shifts it to a lower slot. |
| Scene.AllUploadableCount | 7-1_FinalProjectMilestones/Source/SceneManager.cpp:529-536 | When all of the first k images load, the count of uploadable images is k. |
| Scene.FirstMaterialIs | 7-1_FinalProjectMilestones/Source/SceneManager.cpp:186-197 | A match at i with no match before i is what the material lookup returns. |
| Scene.FirstMaterialAppend | 7-1_FinalProjectMilestones/Source/SceneManager.cpp:186-197 | Appending materials never changes what an already defined tag resolves to, because the first definition wins. Other tags resolve in the appended part. |
| Scene.SceneMaterialTagsDistinct | 7-1_FinalProjectMilestones/Source/SceneManager.cpp:294-434 | The scene's materials have pairwise different tags. |
| Scene.SceneMaterialsResolve | 7-1_FinalProjectMilestones/Source/SceneManager.cpp:294-434 | Every scene material is found under its own tag. Defining the materials twice changes no lookup. |
| View.MouseStep | 7-1_FinalProjectMilestones/Source/ViewManager.cpp:100-120 | In orthographic mode a sample changes nothing and calls nothing. Otherwise the sample becomes the reference, the flag clears and one look call is made. That call is (0, 0) for a first sample, and otherwise (x − lastX, lastY − y). |
| View.ProjectionKeys | 7-1_FinalProjectMilestones/Source/ViewManager.cpp:149-160 | The new mode is orthographic iff P is up and either O is down or the mode was already orthographic. A real switch sets the first-sample flag and the mirror equal to the mode. No switch leaves everything as it was. The reference cursor is never touched. |
| View.KeyMove | 7-1_FinalProjectMilestones/Source/ViewManager.cpp:134-145 | A pressed key makes one camera call and a released key makes none. |
| View.ProjectionFor | 7-1_FinalProjectMilestones/Source/ViewManager.cpp:180-199 | Orthographic mode gives the fixed box ±10 with near 0.1 and far 100. Perspective mode gives fov = Zoom, aspect 1000/800, near 0.1 and far 100. |
| View.InputGlobals.constructor | 7-1_FinalProjectMilestones/Source/ViewManager.cpp:19-37 | The globals start with no camera, reference (500, 400), the first-sample flag set, delta and last frame 0, and the mirror false. |
| View.MousePositionCallback | 7-1_FinalProjectMilestones/Source/ViewManager.cpp:100-120 | The callback's new globals and camera calls are those of `MouseStep` from the old globals. |
| View.ViewManager.constructor | 7-1_FinalProjectMilestones/Source/ViewManager.cpp:43-55 | Starts in perspective mode with no window. It creates a fresh camera with position (0.5, 5.5, 10), front (0, −0.5, −2), up (0, 1, 0), zoom 80 and speed 10. |
| View.ViewManager.CreateDisplayWindow | 7-1_FinalProjectMilestones/Source/ViewManager.cpp:74-95 | Succeeds iff the window was created, and only then sets the window. |
| View.ViewManager.ProcessKeyboardEvents | 7-1_FinalProjectMilestones/Source/ViewManager.cpp:125-161 | Without a window or a camera, nothing changes. Otherwise Escape requests closing, the movement calls of this poll are appended with the current delta, and the mode and globals follow `ProjectionKeys`. |
| View.ViewManager.PollKeys | 7-1_FinalProjectMilestones/Source/ViewManager.cpp:129-160 | The body of a poll: close request, movement calls, then the mode switch, as above. |
| View.ViewManager.MoveIfPressed | 7-1_FinalProjectMilestones/Source/ViewManager.cpp:134-145 | Movement key n appends its call, if pressed, after the calls of keys 0..n−1. |
| View.ViewManager.SwitchProjection | 7-1_FinalProjectMilestones/Source/ViewManager.cpp:149-160 | The O check runs and then the P check, with the result given by `ProjectionKeys`. |
| View.ViewManager.PrepareSceneView | 7-1_FinalProjectMilestones/Source/ViewManager.cpp:166-208 | Without a window, nothing changes. Otherwise delta = now − old last frame and last frame = now, and only then are the keys processed, so movement uses this frame's delta. With a shader manager it then writes `view`, `projection` (the projection for the mode after the keys) and `viewPosition`. |
| View.ViewManager.PrepareFrame | 7-1_FinalProjectMilestones/Source/ViewManager.cpp:168-207 | A frame with a window, as above. |
| View.ViewManager.SendViewUniforms | 7-1_FinalProjectMilestones/Source/ViewManager.cpp:202-207 | With a shader manager, writes view, projection and camera position in that order. Without one, writes nothing. |
| View.OrthographicDropsSamples | 7-1_FinalProjectMilestones/Source/ViewManager.cpp:103-104 | Any run of samples in orthographic mode leaves the globals unchanged and makes no camera call: samples are dropped, not queued. |
| View.LookOffsetsTelescope | 7-1_FinalProjectMilestones/Source/ViewManager.cpp:106-119 | In perspective mode a run of n samples makes n look calls. Their offsets add up to the last sample minus the reference, which is the first sample itself when the flag was set. |
| View.NoJumpAfterOrthographic | 7-1_FinalProjectMilestones/Source/ViewManager.cpp:149-160 | O, any cursor motion, then P: the motion is dropped and the next sample gives offset (0, 0). |
| View.ToggleSequence | 7-1_FinalProjectMilestones/Source/ViewManager.cpp:149-160 | O, P, O are each real switches that set the flag, with the mirror equal to the mode. Pressing O again then changes nothing. |
| View.ProjectionKeyGuards | 7-1_FinalProjectMilestones/Source/ViewManager.cpp:149-160 | O in orthographic mode and P in perspective mode are no-ops. O and P together end in perspective from either mode. |
| View.MirrorAgrees | 7-1_FinalProjectMilestones/Source/ViewManager.cpp:149-160 | If the member flag and its mirror agree before a poll, they agree after it. |
| View.OrthographicIgnoresCamera | 7-1_FinalProjectMilestones/Source/ViewManager.cpp:180-199 | The orthographic projection does not depend on the camera zoom. The perspective projection is determined by it. |
| View.MovesUpToShape | 7-1_FinalProjectMilestones/Source/ViewManager.cpp:134-145 | The first n keys make one call per pressed key, each a keyboard movement with this frame's delta. |
| View.MoveCallsShape | 7-1_FinalProjectMilestones/Source/ViewManager.cpp:134-145 | One call per pressed movement key, each with this frame's delta. With W pressed, the first call moves forward. |
| View.MovesPrefix | 7-1_FinalProjectMilestones/Source/ViewManager.cpp:134-145 | The calls of earlier keys come first: key order is call order. |
| View.PressedCount | 7-1_FinalProjectMilestones/Source/ViewManager.cpp:134-145 | Counting the movement keys in table order gives the number of pressed keys among W, S, A, D, Q, E. |

## Left out

- Image decoding, file names and vertical flipping: the decoder's outcome is a parameter. Pixel data and the console messages are not modelled.
- GL, GLFW and shader-manager effects: they are recorded as events and uniform writes, never performed.
- Context creation, cursor mode, blending and `glfwTerminate` in `CreateDisplayWindow` are not modelled. Only the window pointer is.
- The camera class (`camera.h`) is not part of this model.
  - Its calls are logged, and its readouts (`Zoom`, `Position`) are parameters.
  - Nothing is claimed about how it moves.
  - A camera replaced by a second ViewManager constructor is not freed in the source; the model just starts a fresh call log.
- Matrix arithmetic: the model, view and projection matrices are symbolic descriptors. Degrees are not converted to radians.
- Floating point: cursor positions, times and colours are `real`. The single-precision rounding of `float` (and the double→float narrowing of cursor positions) is not modelled.
- Capacity: the array size comes from SceneManager.h, which is not part of this model.
  - The array's length stands for it.
  - `CreateGLTexture` and `LoadSceneTextures` require room for each image that will be stored, since the source writes without a bounds check.
- Null shader manager: `SetShaderMaterial` uses the shader manager without a check, so a lookup hit requires one. A miss with no shader manager is allowed, because the source does nothing then.
- `Mouse_Position_Callback` and `PrepareSceneView` use the camera without a null check, so the model requires a camera where they reach it.
- `RenderScene`, `SetupSceneLights`, `PrepareScene` and both destructors are hand-placed data and teardown with no logic worth verifying, and are not modelled.
- Scene.TextureIdMatchesSlot: the -1 agreement with `FindTextureSlot` is proved only for names below 2^31. At 2^32 − 1 the int conversion yields -1; `Scene.LargestNameReadsAsSentinel` exhibits that case.
- View.ViewManager.PrepareSceneView: the camera readout is taken as an input after the keys are processed, so the effect of a movement call on the position is not modelled.
