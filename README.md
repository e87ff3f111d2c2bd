# Solar system simulation: input handling, picking and selection

This project is a Dafny model of the state logic of the OpenGL solar system viewer in
`Proj/main.cpp`. The program shows ten bodies and their moons moving on orbits. The user
interacts with it in three ways:

- Keys pause the clock, switch the time scale between five presets and toggle the orbit lines.
- W/A/S/D pan the camera. `=`/`-` and the mouse wheel zoom it.
- Hovering the pointer over a body or moon labels it ("Body" or "Body - Moon"). A left click
  then pins that entry's name and description.

The model keeps the program's own shape:

- The global variables become the fields of one class, `SolarApp.AppState`.
- Each GLFW callback becomes a method on that class, and so does the clock step of the main
  loop. Each method has `modifies` clauses naming only the globals it writes.
- The callbacks' loops (the hover scan and the click lookup) stay `while` loops. Each is proved
  against a recursive reference function: `Picking.Pick` for the hover scan and
  `Selection.CommitPin` for the click lookup.
- Pure pieces are functions: `clamp`, the zoom steps, the pixel/NDC/world conversions and the
  body and moon positions.

Modules:

- `Geometry`: vectors, points of the z = 0 plane, and the math library's trigonometry. The
  trigonometry is carried as uninterpreted function values in `Trig`. This module also holds
  the square-root-free distance test `WithinRadius`.
- `Catalog`: the `Moon` and `SolarObject` records and the ten-body table that `main` loads. It
  also says when names are usable as lookup keys, and proves that the loaded table's names are.
- `Orbit`: where a body or moon is at time `t`. Pluto follows an offset ellipse, every other
  body a circle about the Sun, and each moon its own absolute angle around its parent.
- `Camera`: the zoom bounds, `clamp`, the pan step, the keyboard and wheel zoom, and the
  conversion between window pixels, NDC and world points. It also shows that picking inverts
  the projection the renderer draws with.
- `Picking`: the hover scan as a first-hit search in scan order.
- `Selection`: `std::string::find`, the body and moon lookups, and what a click pins.
- `SolarApp`: the application state and the callbacks.

Modelling choices:

- Floating-point numbers are real numbers.
- `sqrt(d) < r` is modelled exactly as `0 < r && d < r * r`.
- `cos`, `sin` and `tan` are a `Trig` parameter of the application. Properties that need
  `cos² + sin² = 1` or a positive `tan(30°)` assume it explicitly.
- The keys held during a frame (`glfwGetKey`) are a set of key codes passed to `ProcessInput`.
- The frame time `deltaTime` is a parameter of `AdvanceClock`.
- The renderer pointer being non-null is the flag `hasRenderer`.
- The renderer's view matrix is recorded as the eye and centre of the `glm::lookAt` call that
  built it.

## Model

| member | source | states |
|---|---|---|
| Camera.Clamp | Proj/main.cpp:566-568 | with lo <= hi the result lies in [lo, hi]; a value already in range is returned unchanged; a value below lo gives lo and one above hi gives hi; with hi < lo the result is hi, as std::min(std::max(v, lo), hi) gives |
| Camera.KeyZoom | Proj/main.cpp:613-621 | with '=' or '-' held the zoom ends within [MIN_ZOOM, MAX_ZOOM]; with neither it is unchanged; '=' alone moves it down by exactly 0.1 and '-' alone up by exactly 0.1 when that stays in range, and never the wrong way from a zoom in range; both together cancel out when neither step is clamped |
| Camera.ScrollZoom | Proj/main.cpp:640-642 | after a wheel event the zoom is within [MIN_ZOOM, MAX_ZOOM] whatever the offset; a positive offset never zooms out, a negative one never in; when the unclamped value is in range it is exactly zoom - 0.5 * yoffset |
| Camera.ScrollZoomAll | Proj/main.cpp:634-642 | any non-empty run of wheel events, however extreme the offsets, leaves the zoom within [MIN_ZOOM, MAX_ZOOM] |
| Camera.PixelNdcRoundTrip | Proj/main.cpp:675-676 | the pixel-to-NDC conversion of mouse_callback is a bijection: converting a pixel to NDC and back gives the pixel, and the converse |
| Camera.PickingInvertsProjection | Proj/main.cpp:678-683 | when the eye is straight above the target at height zoomLevel, the pointer-to-world conversion of mouse_callback is the exact inverse of the perspective projection, in both directions |
| Orbit.CircularBodyOnOrbitLine | Proj/main.cpp:695-698 | every body other than Pluto is at distance orbitRadius from the Sun, on the circle drawn as its orbit line |
| Orbit.PlutoOnOrbitLine | Proj/main.cpp:690-693 | Pluto lies on the ellipse with semi-axes 5.5 and 4.1 * 0.9 centred at (-1.0, 0.4), the curve drawn as its orbit line |
| Orbit.MoonOnOrbitLine | Proj/main.cpp:700-704 | a moon is at distance orbitRadius from its parent, on its drawn orbit circle |
| Orbit.MoonOffsetIgnoresParentPhase | Proj/main.cpp:700-704 | a moon's offset from its parent depends only on the moon and the time, not on the parent's orbital phase |
| Catalog.SolarSystemWellFormed | Proj/main.cpp:806-869 | in the table loaded by main, every name is non-empty and free of '-', body names are pairwise distinct, and the moon names of each body are pairwise distinct |
| Picking.PickMoon | Proj/main.cpp:700-713 | the moon scan of one body returns the first moon, from the given index on, whose centre is strictly within 3.5 of its radii of the pointer; when it returns none, no such moon exists |
| Picking.PickFrom | Proj/main.cpp:687-720 | the catalog scan from a body on returns a hit target, and no target scanned before it is hit; when it returns none, nothing from that body on is hit |
| Picking.PickIsFirstHit | Proj/main.cpp:687-720 | the picked entry is x exactly when x is hit and no entry tested before x (earlier bodies, and earlier moons or any moon of x's own body) is hit |
| Picking.PickNoneIffNoHit | Proj/main.cpp:685-720 | nothing is picked exactly when no body and no moon is under the pointer |
| Picking.HoverTextEmptyIffNoHit | Proj/main.cpp:685-720 | with non-empty names, the hover text stays empty exactly when no entry is hit |
| Picking.PointerOnBodyPicksIt | Proj/main.cpp:715-719 | a pointer exactly over a body's centre picks that body unless an entry tested before it is hit |
| Selection.FindFrom | Proj/main.cpp:725 | the result of find is an occurrence of the pattern with none before it; when nothing is found, the pattern occurs nowhere |
| Selection.FirstBodyNamed | Proj/main.cpp:731-732 | the body lookup returns the first body with that name, or none when no body has it |
| Selection.FirstMoonNamed | Proj/main.cpp:733-734 | the moon lookup returns the first moon with that name, or none when no moon has it |
| Selection.CommitPinIsCatalogEntry | Proj/main.cpp:723-753 | whatever a click pins is the name and description of one body or moon of the catalog |
| Selection.CommitLabelPinsTarget | Proj/main.cpp:708-753 | with usable names, committing the hover label of an entry pins exactly that entry's name and description (hover then click round trip) |
| Selection.CommitPinSomeIffLabel | Proj/main.cpp:723-753 | a click pins something only when the hover text is the label of a catalog entry, and with usable names it pins something whenever it is |
| SolarApp.AppState.constructor | Proj/main.cpp:546-564 | the initial globals: no catalog and no renderer, time scale 1, running, orbits shown, empty labels, time 0, zoom 8, eye (0, 0, 8) looking at the origin |
| SolarApp.AppState.Start | Proj/main.cpp:806-871 | main loads the catalog table and creates the renderer, whose first view looks from (0, 0, zoomLevel) at the origin; the camera invariant holds |
| SolarApp.AppState.AdvanceClock | Proj/main.cpp:879-881 | while paused the time is frozen; otherwise it grows by exactly deltaTime * timeScale, and never decreases for a non-negative deltaTime; nothing else changes |
| SolarApp.AppState.KeyCallback | Proj/main.cpp:657-669 | only presses act: SPACE flips the pause, O flips the orbit lines, keys 1-5 select 0.5, 1, 2, 5, 10; any other key or action changes nothing |
| SolarApp.AppState.ProcessInput | Proj/main.cpp:574-632 | without a renderer nothing changes; otherwise each held W/S/A/D moves eye and target together by zoom * 2 * 0.016 * 0.25, '='/'-' set the zoom as KeyZoom, the eye is put back at height zoomLevel and the view is rebuilt; the camera invariant is kept |
| SolarApp.AppState.PanWithKeys | Proj/main.cpp:580-605 | the eye and target move by the same net offset on each axis, so the eye stays straight above the target |
| SolarApp.AppState.ZoomWithKeys | Proj/main.cpp:613-631 | the zoom becomes KeyZoom of the held keys, and only the eye's height follows it |
| SolarApp.AppState.ScrollCallback | Proj/main.cpp:634-655 | without a renderer nothing changes; otherwise the zoom becomes ScrollZoom, eye and target are both scaled by new zoom / old zoom, the eye is put back at height zoomLevel and the view is rebuilt |
| SolarApp.AppState.MouseCallback | Proj/main.cpp:671-720 | the pointer is recorded and the hover label becomes the label of the picked entry at the pointer's world point, or "" when nothing is hit |
| SolarApp.AppState.HoverLabel | Proj/main.cpp:685-720 | the nested scan with early returns computes exactly the label of the first hit entry, or "" |
| SolarApp.AppState.MouseButtonCallback | Proj/main.cpp:722-754 | a left press pins what the lookup of the hover label finds: the first body with the label's name, or for "Body - Moon" the first moon so named of the first body so named; any other button or action, an empty label or a failed lookup leaves the pin unchanged |
| SolarApp.AppState.PickingMatchesView | Proj/main.cpp:446-456 | with the renderer running, the pointer over any drawn point converts back to exactly that point |
| SolarApp.TogglesAreInvolutions | Proj/main.cpp:659-660 | two presses of SPACE, and two of O, restore the flags they toggle and leave every other global (time scale, clock, camera, view, catalog, pointer, labels and pin) as it was |
| SolarApp.HoverThenClick | Proj/main.cpp:671-754 | hovering and then left-clicking records the pointer, sets the hover label to the hover text at the pointer's world point, and pins exactly the entry under the pointer, or leaves the pin alone when nothing is there; only the pointer, label and pin fields change, so the catalog, clock and camera are the ones hovered with |

## Left out

- Floating-point rounding. All coordinates, speeds and times are real numbers, and `sqrt`/`pow`
  are replaced by an exact squared-distance comparison.
- The values of `cos`, `sin` and `tan`. They are uninterpreted; lemmas that need
  `cos² + sin² = 1` or `tan(30°) > 0` take them as preconditions.
- `Shader`, `TextRenderer`, the drawing code of `Renderer`, and the text panel of the main loop.
  These are OpenGL, FreeType and drawing calls. Only the position formulas that drawing and
  picking share are modelled, in `Orbit`.
- `glm::lookAt` and `glm::perspective`. The view is recorded as the eye and centre passed to
  `glm::lookAt`. `Camera.Project` is the projection those matrices give for an eye straight
  above its target, written out directly.
- The Escape key closing the window in `processInput`, `framebuffer_size_callback`, `limitFPS`,
  and window, GLEW and monitor setup. These are window-system I/O and timing.
- The cursor reads in `processInput` and `scroll_callback`. Their results are never used.
- `renderer->setCurrentTime`. It copies the time into the renderer for drawing only.
- `SolarApp.AppState.ScrollCallback` (like every camera method) requires the camera
  invariant `Valid()`. The globals always satisfy it: the zoom starts at 8 and every change
  clamps it into [1, 20]. So the model does not cover a zero zoom, where the code would divide
  by zero.
- The wheel zoom follows the code: it scales both the camera position and the target by
  new zoom / old zoom. It does not ease toward the pointer.
- The catalog is the one in the code. It has no asteroid belts and no Eris. The time presets
  are 0.5, 1, 2, 5 and 10, and there is no recenter command.
