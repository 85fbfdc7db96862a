# dicomviewer — a Dafny model of its volume indexing and render state

dicomviewer reads an index file listing DICOM slices, stacks them into a cubic
voxel grid, and shows the grid as a 3-D texture drawn as a stack of quads with
maximum-intensity blending. Keyboard and special-key events rotate the volume
and switch lighting, blending, depth test and the texture filter.

This project models the two parts of the program that are integer logic:

- `volume_loader.dfy` (module `VolumeLoader`): the working size `taille` of the
  cubic grid, the layer `VOL[i-1]` that slice `i` is written to (with Python's
  negative indexing), the shape rule of the copy into that layer, and the
  `loadVolume` loop that fills an `array` of layers in place. Slices are
  opaque. A layer is either `Zero` or `Holds(i)`, "the pixels of slice `i`".
- `render.dfy` (module `Render`): the render state of `Canvas` as a `State`
  record with pure transitions (`Toggled`, `Rotated`, `NextFilter`), the class
  `Canvas` whose methods update its fields in place, ghost fields mirroring
  the OpenGL capabilities GL_LIGHT1, GL_BLEND and GL_DEPTH_TEST, and the
  projection set by `ReSizeGLScene`.
- `window.dfy` (module `Window`): the key codes, the keyboard and special-key
  dispatch tables of `GLWindow` as pure functions (`KeyStep`,
  `SpecialKeyStep`), runs of key events (`RunKeys`), and the class `GLWindow`
  with its one-shot fullscreen flag.
- `wrappers.dfy`: `Option` and `Result`.

Each class method is specified by the pure function of the old state that
gives its new state. The properties are proved about those functions.

Slice `i >= 1` is written to layer `i - 1`, and slice 0 wraps to the last
layer, `taille - 1`, through Python's negative indexing. The model proves
where every slice lands.

## Model

| member | source | states |
|---|---|---|
| VolumeLoader.CeilLog2 | dicomviewer.py:51 | the exponent k has 2^k >= m, and 2^(k-1) < m when k > 0 |
| VolumeLoader.CeilLog2Least | dicomviewer.py:51 | every exponent whose power reaches m is at least CeilLog2(m) |
| VolumeLoader.WorkingSize | dicomviewer.py:49-53 | the working size is at least the height, the width, the slice count and 256 |
| VolumeLoader.WorkingSizeIsPowerOfTwo | dicomviewer.py:51-53 | the working size is a power of two |
| VolumeLoader.WorkingSizeLeast | dicomviewer.py:49-53 | the working size is at most every power of two that is at least 256 and at least each of height, width and n |
| VolumeLoader.WorkingSizeExamples | dicomviewer.py:49-53 | 300x200 with 10 slices gives 512; 100x100 with 5 gives 256; 64x64 with 4 gives 256 |
| VolumeLoader.PyIndex | dicomviewer.py:60 | a Python index is valid iff it lies in [-len, len), and then it addresses element index mod len |
| VolumeLoader.LayerOfInRange | dicomviewer.py:56-60 | every slice index below taille addresses a layer, and SliceFor recovers the slice from that layer |
| VolumeLoader.SliceForRoundTrip | dicomviewer.py:56-60 | every layer is the target of exactly one slice index below taille |
| VolumeLoader.LayerOfInjective | dicomviewer.py:56-60 | two distinct slices never land in the same layer |
| VolumeLoader.LayoutPlacement | dicomviewer.py:54-60 | after n slices, slice i >= 1 is in layer i-1, slice 0 is in layer taille-1, layers n-1 to taille-2 are zero, and every filled layer holds the slice that maps to it |
| VolumeLoader.LayoutStep | dicomviewer.py:56-60 | writing slice k into its layer changes exactly that layer of the grid |
| VolumeLoader.ChainedViewFitsOnlyFullWidth | dicomviewer.py:60 | as written, for a first slice of at least 2x2 pixels, a slice of its shape fits its destination iff its width is taille and its height is at most its width |
| VolumeLoader.ChainedViewRejects64By64 | dicomviewer.py:49-60 | as written, four 64x64 slices give taille 256 and the first copy cannot broadcast |
| VolumeLoader.BlockViewFitsFirstShape | dicomviewer.py:60 | into the block view, a slice of the first slice's shape always fits |
| VolumeLoader.LoadVolume | dicomviewer.py:36-72 | an empty index file, a first slice without rows and a first slice without columns are errors; with the corrected block copy in place of line 60, a slice that does not fit is reported with its index; otherwise the grid is taille = WorkingSize layers laid out as Layout(n, taille), and the output is 256 x 256 x 256 |
| Render.ToggledFlipsOnlyItsFlag | dicomviewer.py:241-260 | a toggle negates its own flag and leaves the other flags, the filter and the rotations unchanged |
| Render.ToggledTwice | dicomviewer.py:241-260 | toggling twice restores the state |
| Render.RotatedChangesOnlyItsCounter | dicomviewer.py:262-278 | a rotation changes its own counter by exactly delta and nothing else |
| Render.RotatedInverse | dicomviewer.py:262-278 | increase then decrease, and decrease then increase, are the identity on each axis |
| Render.RotatedTimesAdds | dicomviewer.py:262-278 | k presses add exactly k * delta to the counter, with no clamping |
| Render.FullTurn | dicomviewer.py:210-213 | 360 increases add 360 degrees, so the angle modulo 360 is unchanged |
| Render.NextFilterInRange | dicomviewer.py:314-317 | from a filter in {0,1,2}, the next filter is in {0,1,2} and differs from the current one |
| Render.NextFilterPeriod | dicomviewer.py:314-317 | three filter steps return to the start and four equal one |
| Render.Resize | dicomviewer.py:131-148 | the viewport width is never 0; a nonzero width is kept; the box is [-4,4] across, [-100,100] deep, symmetric vertically, with height/width aspect |
| Render.ResizeZeroWidth | dicomviewer.py:135-136 | resizing to width 0 gives exactly the projection of width 1 |
| Render.Canvas.constructor | dicomviewer.py:115-125 | a fresh canvas has filter 0, light on, blending on, depth test off and all rotations 0 |
| Render.Canvas.InitGL | dicomviewer.py:151-191 | GL_LIGHT1 and GL_BLEND end up enabled and GL_DEPTH_TEST disabled, which matches a fresh canvas's toggles |
| Render.Canvas.ChangeLight | dicomviewer.py:241-246 | the new state is the old one with lighting toggled, and GL_LIGHT1's mirror equals the new flag |
| Render.Canvas.ChangeBlending | dicomviewer.py:248-253 | the new state is the old one with blending toggled, and GL_BLEND's mirror equals the new flag |
| Render.Canvas.ChangeDepth | dicomviewer.py:255-260 | the new state is the old one with the depth test toggled, and GL_DEPTH_TEST's mirror equals the new flag |
| Render.Canvas.IncreaseXYRotation | dicomviewer.py:262-263 | the xy counter goes up by one and nothing else changes |
| Render.Canvas.DecreaseXYRotation | dicomviewer.py:265-266 | the xy counter goes down by one and nothing else changes |
| Render.Canvas.IncreaseYZRotation | dicomviewer.py:268-269 | the yz counter goes up by one and nothing else changes |
| Render.Canvas.DecreaseYZRotation | dicomviewer.py:271-272 | the yz counter goes down by one and nothing else changes |
| Render.Canvas.IncreaseXZRotation | dicomviewer.py:274-275 | the xz counter goes up by one and nothing else changes |
| Render.Canvas.DecreaseXZRotation | dicomviewer.py:277-278 | the xz counter goes down by one and nothing else changes |
| Window.SpecialKeyEffect | dicomviewer.py:325-337 | each of codes 100, 102, 101, 103, 106, 107 moves exactly one rotation counter by exactly one degree; any other code leaves the state unchanged; flags and filter never change |
| Window.KeyStepUnmatched | dicomviewer.py:305-323 | a code outside the keyboard table changes nothing and does not quit |
| Window.KeyStepEffect | dicomviewer.py:305-323 | only Escape quits; only the filter key changes the filter; only its own key flips each toggle; no key rotates; only E changes the fullscreen flag, and only from 0 |
| Window.KeyStepKeepsFilterInRange | dicomviewer.py:314-317 | every keyboard event keeps the filter in {0,1,2} |
| Window.FullScreenAtMostOnce | dicomviewer.py:310-313 | over any run of keys, the window goes fullscreen at most once, never if the flag was already set, and the flag only moves from 0 to 1 |
| Window.FilterKeyPeriod | dicomviewer.py:314-317 | three presses of the filter key restore the state; four equal one |
| Window.GLWindow.constructor | dicomviewer.py:281-294 | a new window holds its canvas and has the fullscreen flag at 0 |
| Window.GLWindow.KeyPressed | dicomviewer.py:305-323 | the new canvas state, fullscreen flag, quit and fullscreen call are those of the keyboard table; the toggle key's GL mirror is set to its new flag and every other mirror is unchanged, so mirrors in agreement stay in agreement; a filter in {0,1,2} stays in {0,1,2} |
| Window.GLWindow.SpecialKeyPressed | dicomviewer.py:325-337 | the new canvas state is that of the special-key table; GL mirrors unchanged |

## Findings

| source | as written | input that shows it | evidently intended | confidence | as-written member | corrected member |
|---|---|---|---|---|---|---|
| dicomviewer.py:60 | `VOL[i-1][0:height][0:width] = tab` slices the rows twice, so the destination is min(height, width) rows by taille columns, and a height x width slice only broadcasts into it when width == taille and height <= width | four 64x64 slices: taille is 256, and a 64x64 array does not broadcast into a 64x256 view (numpy raises ValueError) | copy into the top-left block, `VOL[i-1, 0:height, 0:width] = tab`, which accepts every slice of the first slice's shape | high (not executed) | VolumeLoader.ChainedViewRejects64By64 | VolumeLoader.BlockViewFitsFirstShape |

`LoadVolume` uses the block view, and reports a slice whose shape does not
broadcast into it as `SliceDoesNotFit`.

## Left out

- Reading the index file and decoding DICOM (lines 37-47, 57-59). These are I/O and an external decoder. `LoadVolume` takes the list of file names and a decoder function that gives only the shape of each pixel array. Three error paths of these lines are modelled: an empty index file (IndexError at line 41), a first slice without rows (IndexError at line 44) and a first slice without columns (ValueError of `np.max` at line 46). Unreadable files and decoder failures are not.
- VolumeLoader.LoadVolume: the copy uses the corrected block view `VOL[i-1, 0:height, 0:width]`, not the chained view of line 60. So the ValueError line 60 raises is not reproduced: it happens for a first slice narrower than `taille` (and wider than 1), or taller than it is wide. One example is four 64x64 slices. See Findings.
- VolumeLoader.LoadVolume: the pixel values are not modelled. A layer records which slice it holds, not the copied data.
- The intensity normalisation `(VOL - min) / (max - min)` (lines 62-65) is float array work and is not modelled. The source does not guard a flat volume, where max equals min.
- The `scipy.ndimage.zoom` resampling to 256 cubed (line 66) is a float interpolation library and is not modelled. Only the fixed output sizes of lines 69-71 are stated.
- VolumeLoader.WorkingSize: computed exactly on integers. The source uses float `log2`/`ceil`/`pow`. That already differs from the exact value at m = 2^49 + 1: `log2` rounds to 49.0, so the float path gives 2^49, which is below m. When max(height, width, n) > 128, the source's `taille` stays the float result of `pow`, so `np.zeros` at line 54 gets a float shape: older numpy accepts that with a warning, and recent numpy raises TypeError. Otherwise line 53 sets `taille` to the int 256. The model does not reproduce the float case.
- The texture upload and light setup (lines 89-101, 154-172, 177-178, 183, 187) and the quad stack of `DrawGLScene` (lines 193-239) are OpenGL calls over float coordinates. Only the enable/disable of GL_LIGHT1, GL_BLEND and GL_DEPTH_TEST is mirrored, by ghost fields.
- Render.Resize: the aspect ratio uses exact real division, not float division; `glViewport` and `glOrtho` are represented by the values passed to them.
- The Canvas fields `notYet` and `textures` are not modelled: `notYet` is never read, and `textures` is a GL texture handle.
- The filter mode is stored but never read by the drawing code; the model keeps it as the source's integer.
- GLUT window creation, callback registration, `glutMainLoop`, `glutSwapBuffers`, `glutFullScreen` and the program entry (lines 280-300, 339-346). Escape's `glutDestroyWindow` and process exit become the `quit` result. The `glutFullScreen` call becomes the `enterFullScreen` result.
- Window.GLWindow.KeyPressed: the `x`, `y` mouse position arguments are unused by the source and are dropped. The key is given as its character code, the result of `ord`.
