# Floating image gallery: layout, construction and selection

The gallery is a single browser script. It builds one textured plane per
configured image and scatters the planes at random. Two buttons re-arrange
the planes: a "cross" grid or a new random "cloud". Clicking a plane opens
an info panel with that image's title and description.

This project models the script's discrete logic over a sequence of immutable
plane records. Each record holds a position, a rotation and the image's
title/description metadata.

- `Geometry`: vectors, image records and plane records. It also defines
  `SameButPositions`, the relation "same planes, only positions differ".
- `Grid`: the cross layout's cell for plane `i`. Row is `floor(i/3) - 1`,
  column is `(i mod 3) - 1`, and the cell is `(col*6, row*6, 0)`. It also
  has a partial inverse, `CellOf`, that decodes a position back to its
  index, and an independent raster-scan definition, `RasterPosition`.
- `Layout`: `arrangeInCross` and `arrangeInCloud` over the whole plane
  sequence.
- `Gallery`: the construction loop over the image list.
- `Selection`: the click handler's update of the info panel. The ray
  cast's hit list is an input.
- `App`: the page as a state machine driven by clicks. A click on a
  button runs the button's layout change and then, as the event bubbles to
  the window, the same selection update as any other click.

Random values are not computed. Each random placement is an arbitrary
function `place: nat -> Vec3` from plane index to point. Coordinates are
exact reals.

## Model

| member | source | states |
|---|---|---|
| Grid.CrossPosition | script.js:94-98 | The cross cell of plane `i` has z = 0, x in {-6, 0, 6}, and y >= -6. x is -6 exactly for the first column, and y is negative exactly for the first three planes. |
| Grid.CellOfCross | script.js:94-98 | Decoding the cross position of plane `i` gives back `i`. |
| Grid.CrossOfCell | script.js:94-98 | Every point that decodes to index `i` is plane `i`'s cross position, so the decoder recognises exactly the grid cells. |
| Grid.CrossInjective | script.js:94-98 | Two distinct indices never get the same cross position. |
| Grid.RasterIsCross | script.js:92-100 | The closed-form layout equals a row-by-row raster scan. The scan starts at (-6,-6,0), steps right by 6, and wraps to the left edge one row up after three columns. |
| Grid.FirstCells | script.js:94-98 | Planes 0 and 1 land at (-6,-6,0) and (0,-6,0). |
| Grid.TenthPlaneLeavesBlock | script.js:94-97 | Nine planes stay within y in [-6, 6]. A tenth plane goes to (-6, 12, 0), outside the 3x3 block, because the row count is unbounded. |
| Layout.ArrangeInCross | script.js:92-100 | Only positions change: same count, rotations and metadata. Every plane ends at z = 0, and plane `i`'s position decodes to `i`. |
| Layout.CrossPlacesByIndex | script.js:94-97 | After the cross layout, plane `i` has x = ((i mod 3) - 1) * 6 and y = (floor(i/3) - 1) * 6. |
| Layout.CrossPositionsDistinct | script.js:93-98 | After the cross layout, no two planes share a position. |
| Layout.CrossForgetsPositions | script.js:92-100 | The result depends only on index, rotation and metadata. Planes that differ only in position get identical results. |
| Layout.CrossIdempotent | script.js:92-100 | Applying the cross layout twice equals applying it once. |
| Layout.ArrangeInCloud | script.js:102-108 | Only positions change. Plane `i` moves to the arbitrary point drawn for it. |
| Layout.CrossAfterCloud | script.js:102-108 | A cross layout after any cloud gives the same planes as a cross layout without the cloud. |
| Gallery.Build | script.js:35-52 | There is one plane per image, in input order. Plane `i` carries image `i`'s title and description, the default rotation, and the arbitrary start point drawn for it. |
| Gallery.BuildKeepsOrder | script.js:35-52 | The built gallery's titles, in order, are exactly the configured images' titles. |
| Gallery.BuildDiffersOnlyInPositions | script.js:43-46 | Two builds of the same images differ only in positions, whatever random start each got. |
| Gallery.CrossErasesRandomStart | script.js:92-100 | After the cross button, a built gallery no longer depends on its random start. |
| Selection.Click | script.js:74-80 | With a non-empty hit list, the panel becomes visible and shows the first hit's title and description. With an empty list, the panel is unchanged. |
| Selection.ClickNeverHides | script.js:74-77 | A click never hides a visible panel. |
| Selection.OnlyFirstHitMatters | script.js:75 | Only the first hit affects the panel; later hits are ignored. |
| Selection.ClickIdempotent | script.js:74-80 | Repeating a click with the same hit list changes nothing more. |
| Selection.HitOverwrites | script.js:74-80 | A click that hits something replaces whatever an earlier click displayed. |
| Selection.ClickShowsAPlane | script.js:72-80 | After a click, the panel is either unchanged or shows some plane's metadata. |
| App.Init | script.js:35-52 | Start-up's planes are exactly the constructed gallery, one plane per configured image, and the panel is as given. |
| App.Step | script.js:67-90 | A handled click changes no plane's count, rotation or metadata. A click on the cross button moves the planes to the cross layout, a click on the cloud button moves them to the cloud layout of its random points, and a click off the buttons leaves the planes alone. Every click, including one on a button, runs the window's selection update after any layout change. With no hit the panel stays as it was; with hits it shows the first hit plane's metadata. |
| App.CrossPressOverPlane | script.js:67-100 | A press of the cross button over a plane moves the planes to the grid and also shows that plane's title and description, because the button click bubbles to the window's click listener. |
| App.Run | script.js:67-90 | No sequence of events adds, removes, turns or relabels a plane. |
| App.CrossResetsHistory | script.js:84-100 | After any events, a cross press puts the planes exactly where the cross layout of the starting planes would, whatever its bubbled click hits. |
| App.MissesKeepPanel | script.js:74-80 | Clicks whose ray cast hits no plane never change the panel, whether or not they were on a button. |
| App.PanelStaysFromGallery | script.js:67-81 | If the panel starts hidden or showing a plane, it stays hidden or shows the metadata of one of the gallery's planes. |
| App.ClickShowsImage | script.js:49-79 | On a freshly built gallery, a click with hits shows the panel with the first hit image's configured title and description. |

## Left out

- Scene, camera, renderer, lights and orbit controls (script.js:2-21) are calls into the rendering library.
- The render loop and resize handler (script.js:111-124) are also calls into the rendering library.
- Texture loading (script.js:36) is asynchronous I/O through the rendering library's loader.
- Materials and plane geometry (script.js:38-41) are also left out.
- Random placement (script.js:44-46, 104-106) depends on `Math.random` and floating point. Each placement is the arbitrary parameter `place`. The model does not restate that each coordinate lies in [-10, 10).
- `floatAnimation` (script.js:55-61) adds floating-point increments driven by `Date.now()` and `Math.sin` every frame, and is not modelled. So the model has no per-frame drift of y or of the rotations. Construction sets each rotation to the default, and no modelled event changes it.
- Pointer-to-NDC conversion (script.js:68-69) is floating-point division.
- The ray cast and its hit ordering (script.js:71-72) belong to the rendering library. The hit list is an input of plane indices. The intersection test tests only the gallery's meshes, so each index names a gallery plane.
- DOM updates of the info panel (script.js:76-79) are modelled only as the abstract displayed title, description and visibility. The page markup that sets the panel's initial state is not part of this model, so that state is a parameter.
- Coordinates are exact reals, not IEEE doubles. Every value the cross layout writes is a small integer, which doubles represent exactly.
- Gallery.Build accepts an empty image list and builds an empty gallery, as the script does: the loop at script.js:35 runs zero times.
- The buttons' listeners (script.js:84-90) do not stop the click from bubbling, so the window listener's ray cast runs after the layout change, against the positions last drawn: the scene-graph library refreshes a mesh's world matrix only when a frame is rendered (script.js:115). The model takes that ray cast's hit list as an input of the button command; it does not check which planes lie under the button.
