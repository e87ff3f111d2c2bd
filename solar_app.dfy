/** The application state of the simulation (the globals of Proj/main.cpp)
    and the GLFW callbacks and main-loop steps that change it. */
module SolarApp {
  import opened Geometry
  import opened Catalog
  import opened Orbit
  import opened Camera
  import opened Picking
  import opened Selection

  // GLFW key, button and action codes the callbacks react to.
  const KEY_SPACE: int := 32
  const KEY_MINUS: int := 45
  const KEY_1: int := 49
  const KEY_2: int := 50
  const KEY_3: int := 51
  const KEY_4: int := 52
  const KEY_5: int := 53
  const KEY_EQUAL: int := 61
  const KEY_A: int := 65
  const KEY_D: int := 68
  const KEY_O: int := 79
  const KEY_S: int := 83
  const KEY_W: int := 87
  const PRESS: int := 1
  const MOUSE_BUTTON_LEFT: int := 0

  /** The time scales selected by keys 1 to 5. */
  const TIME_SCALE_PRESETS: seq<real> := [0.5, 1.0, 2.0, 5.0, 10.0]
  const INITIAL_TIME_SCALE: real := 1.0

  /** The view matrix handed to the renderer, as the eye and centre of the
      glm::lookAt call that built it (the up vector is always (0, 1, 0)). */
  datatype View = LookAt(eye: Vec3, center: Vec3)

  class AppState {
    /** The math library used for positions and picking. */
    const trig: Trig

    var solarSystem: seq<SolarObject>
    var timeScale: real
    var simulationPaused: bool
    var showOrbits: bool
    var lastMouseX: real
    var lastMouseY: real
    /** The hover label: "", "Body" or "Body - Moon". */
    var selectedObjectInfo: string
    /** The pinned entry shown in the description panel. */
    var selectedObjectName: string
    var selectedObjectDescription: string
    var currentTime: real
    var zoomLevel: real
    /** `renderer` is no longer null. */
    var hasRenderer: bool
    /** The renderer's view matrix; meaningful once `hasRenderer`. */
    var view: View
    var cameraPosition: Vec3
    var cameraTarget: Vec3

    /** The camera looks straight down at its target from height zoomLevel,
        the zoom is within bounds, the time scale is a preset, and the
        renderer's view is built from the current camera. The camera does not
        move before the renderer exists. The catalog's names are usable as
        lookup keys. */
    ghost predicate Valid()
      reads this
    {
      && InZoomRange(zoomLevel)
      && timeScale in TIME_SCALE_PRESETS
      && cameraTarget.z == 0.0
      && cameraPosition == Vec3(cameraTarget.x, cameraTarget.y, zoomLevel)
      && (!hasRenderer ==> cameraTarget == ORIGIN)
      && (hasRenderer ==> view == LookAt(cameraPosition, cameraTarget))
      && WellFormed(solarSystem)
    }

    /** The globals' initial values, before `main` runs. */
    constructor (trig: Trig)
      ensures Valid() && this.trig == trig
      ensures solarSystem == [] && !hasRenderer
      ensures timeScale == INITIAL_TIME_SCALE && !simulationPaused && showOrbits
      ensures selectedObjectInfo == "" && selectedObjectName == "" && selectedObjectDescription == ""
      ensures lastMouseX == 0.0 && lastMouseY == 0.0 && currentTime == 0.0
      ensures zoomLevel == INITIAL_ZOOM
      ensures cameraPosition == Vec3(0.0, 0.0, INITIAL_ZOOM) && cameraTarget == ORIGIN
    {
      this.trig := trig;
      solarSystem := [];
      timeScale := INITIAL_TIME_SCALE;
      simulationPaused := false;
      showOrbits := true;
      lastMouseX, lastMouseY := 0.0, 0.0;
      selectedObjectInfo := "";
      selectedObjectName := "";
      selectedObjectDescription := "";
      currentTime := 0.0;
      zoomLevel := INITIAL_ZOOM;
      hasRenderer := false;
      cameraPosition := Vec3(0.0, 0.0, INITIAL_ZOOM);
      cameraTarget := ORIGIN;
      view := LookAt(cameraPosition, cameraTarget);
    }

    /** `main`: load the catalog, then create the renderer, whose first view
        looks from (0, 0, zoomLevel) at the origin. */
    method Start()
      requires Valid() && !hasRenderer
      modifies this`solarSystem, this`hasRenderer, this`view
      ensures Valid() && hasRenderer && solarSystem == SolarSystem()
      ensures view == LookAt(Vec3(0.0, 0.0, zoomLevel), ORIGIN)
    {
      solarSystem := SolarSystem();
      SolarSystemWellFormed();
      hasRenderer := true;
      view := LookAt(Vec3(0.0, 0.0, zoomLevel), ORIGIN);
    }

    /** The clock step of the main loop. */
    method AdvanceClock(deltaTime: real)
      requires Valid()
      modifies this`currentTime
      ensures Valid()
      ensures simulationPaused ==> currentTime == old(currentTime)
      ensures !simulationPaused ==> currentTime == old(currentTime) + deltaTime * timeScale
      ensures 0.0 <= deltaTime ==> old(currentTime) <= currentTime
    {
      if !simulationPaused {
        currentTime := currentTime + deltaTime * timeScale;
        assert 0.0 <= deltaTime ==> 0.0 <= deltaTime * timeScale by {
          if 0.0 <= deltaTime {
            ProductSign(deltaTime, timeScale);
          }
        }
      }
    }

    /** key_callback: only key presses act; SPACE toggles the pause, O the
        orbit lines, and keys 1 to 5 select a time-scale preset. */
    method KeyCallback(key: int, action: int)
      requires Valid()
      modifies this`simulationPaused, this`showOrbits, this`timeScale
      ensures Valid()
      ensures simulationPaused == (old(simulationPaused) != (action == PRESS && key == KEY_SPACE))
      ensures showOrbits == (old(showOrbits) != (action == PRESS && key == KEY_O))
      ensures action == PRESS && KEY_1 <= key <= KEY_5 ==> timeScale == TIME_SCALE_PRESETS[key - KEY_1]
      ensures !(action == PRESS && KEY_1 <= key <= KEY_5) ==> timeScale == old(timeScale)
    {
      if action == PRESS {
        if key == KEY_SPACE {
          simulationPaused := !simulationPaused;
        } else if key == KEY_O {
          showOrbits := !showOrbits;
        } else if key == KEY_1 {
          timeScale := 0.5;
        } else if key == KEY_2 {
          timeScale := 1.0;
        } else if key == KEY_3 {
          timeScale := 2.0;
        } else if key == KEY_4 {
          timeScale := 5.0;
        } else if key == KEY_5 {
          timeScale := 10.0;
        }
      }
    }

    /** processInput, camera part: each held W/S/A/D key moves the camera and
        its target together by one pan step, then '=' and '-' zoom in and out
        one clamped step each and the eye is put back at height zoomLevel.
        Nothing happens before the renderer exists. */
    method ProcessInput(held: set<int>)
      requires Valid()
      modifies this`cameraPosition, this`cameraTarget, this`zoomLevel, this`view
      ensures Valid()
      ensures !hasRenderer ==>
        cameraPosition == old(cameraPosition) && cameraTarget == old(cameraTarget)
        && zoomLevel == old(zoomLevel) && view == old(view)
      ensures hasRenderer ==>
        var step := PanStep(old(zoomLevel));
        var dx, dy := PanOffset(KEY_D in held, KEY_A in held, step), PanOffset(KEY_W in held, KEY_S in held, step);
        && cameraTarget == Vec3(old(cameraTarget).x + dx, old(cameraTarget).y + dy, old(cameraTarget).z)
        && cameraPosition.x == old(cameraPosition).x + dx && cameraPosition.y == old(cameraPosition).y + dy
        && zoomLevel == KeyZoom(old(zoomLevel), KEY_EQUAL in held, KEY_MINUS in held)
        && cameraPosition.z == zoomLevel
        && view == LookAt(cameraPosition, cameraTarget)
    {
      if !hasRenderer {
        return;
      }
      PanWithKeys(held);
      ZoomWithKeys(held);
    }

    /** The WASD part of processInput. */
    method PanWithKeys(held: set<int>)
      requires Valid() && hasRenderer
      modifies this`cameraPosition, this`cameraTarget, this`view
      ensures Valid()
      ensures var step := PanStep(zoomLevel);
        var dx, dy := PanOffset(KEY_D in held, KEY_A in held, step), PanOffset(KEY_W in held, KEY_S in held, step);
        && cameraTarget == Vec3(old(cameraTarget).x + dx, old(cameraTarget).y + dy, old(cameraTarget).z)
        && cameraPosition == Vec3(old(cameraPosition).x + dx, old(cameraPosition).y + dy, old(cameraPosition).z)
    {
      var currentSpeed := PanStep(zoomLevel);
      if KEY_W in held {
        cameraPosition := cameraPosition.(y := cameraPosition.y + currentSpeed);
        cameraTarget := cameraTarget.(y := cameraTarget.y + currentSpeed);
      }
      if KEY_S in held {
        cameraPosition := cameraPosition.(y := cameraPosition.y - currentSpeed);
        cameraTarget := cameraTarget.(y := cameraTarget.y - currentSpeed);
      }
      assert cameraPosition.y == cameraTarget.y == old(cameraTarget).y + PanOffset(KEY_W in held, KEY_S in held, currentSpeed);
      if KEY_A in held {
        cameraPosition := cameraPosition.(x := cameraPosition.x - currentSpeed);
        cameraTarget := cameraTarget.(x := cameraTarget.x - currentSpeed);
      }
      if KEY_D in held {
        cameraPosition := cameraPosition.(x := cameraPosition.x + currentSpeed);
        cameraTarget := cameraTarget.(x := cameraTarget.x + currentSpeed);
      }
      assert cameraPosition.x == cameraTarget.x == old(cameraTarget).x + PanOffset(KEY_D in held, KEY_A in held, currentSpeed);
      view := LookAt(cameraPosition, cameraTarget);
    }

    /** The '=' / '-' part of processInput. */
    method ZoomWithKeys(held: set<int>)
      requires Valid() && hasRenderer
      modifies this`cameraPosition, this`zoomLevel, this`view
      ensures Valid()
      ensures zoomLevel == KeyZoom(old(zoomLevel), KEY_EQUAL in held, KEY_MINUS in held)
      ensures cameraPosition == old(cameraPosition).(z := zoomLevel)
    {
      if KEY_EQUAL in held || KEY_MINUS in held {
        if KEY_EQUAL in held {
          zoomLevel := Clamp(zoomLevel - KEY_ZOOM_STEP, MIN_ZOOM, MAX_ZOOM);
        }
        if KEY_MINUS in held {
          zoomLevel := Clamp(zoomLevel + KEY_ZOOM_STEP, MIN_ZOOM, MAX_ZOOM);
        }
        cameraPosition := cameraPosition.(z := zoomLevel);
        view := LookAt(cameraPosition, cameraTarget);
      }
    }

    /** scroll_callback: the wheel zooms by half a unit per offset, clamped,
        and scales both the eye and the target by new zoom / old zoom before
        the eye is put back at height zoomLevel. Nothing happens before the
        renderer exists. */
    method ScrollCallback(xoffset: real, yoffset: real)
      requires Valid()
      modifies this`cameraPosition, this`cameraTarget, this`zoomLevel, this`view
      ensures Valid()
      ensures !hasRenderer ==>
        cameraPosition == old(cameraPosition) && cameraTarget == old(cameraTarget)
        && zoomLevel == old(zoomLevel) && view == old(view)
      ensures hasRenderer ==>
        var factor := zoomLevel / old(zoomLevel);
        && zoomLevel == ScrollZoom(old(zoomLevel), yoffset)
        && zoomLevel == factor * old(zoomLevel)
        && cameraTarget == old(cameraTarget).Scale(factor)
        && cameraPosition == Vec3(old(cameraPosition).x * factor, old(cameraPosition).y * factor, zoomLevel)
        && view == LookAt(cameraPosition, cameraTarget)
    {
      if !hasRenderer {
        return;
      }
      var zoomDelta := yoffset * SCROLL_ZOOM_STEP;
      var oldZoom := zoomLevel;
      zoomLevel := Clamp(zoomLevel - zoomDelta, MIN_ZOOM, MAX_ZOOM);

      var zoomFactor := zoomLevel / oldZoom;
      cameraPosition := cameraPosition.Scale(zoomFactor);
      cameraTarget := cameraTarget.Scale(zoomFactor);
      cameraPosition := cameraPosition.(z := zoomLevel);
      view := LookAt(cameraPosition, cameraTarget);
    }

    /** mouse_callback: remember the pointer, convert it to the z = 0 plane,
        and label the first catalog entry under it (each body's moons before
        the body), or clear the label when nothing is hit. */
    method MouseCallback(xpos: real, ypos: real)
      modifies this`lastMouseX, this`lastMouseY, this`selectedObjectInfo
      ensures lastMouseX == xpos && lastMouseY == ypos
      ensures selectedObjectInfo
        == HoverText(trig, solarSystem, currentTime, NdcToWorld(trig, PixelToNdc(xpos, ypos), zoomLevel, cameraTarget))
    {
      lastMouseX := xpos;
      lastMouseY := ypos;

      var pointer := NdcToWorld(trig, PixelToNdc(xpos, ypos), zoomLevel, cameraTarget);
      selectedObjectInfo := HoverLabel(pointer);
    }

    /** The scan of mouse_callback for the world point `pointer`: the label of
        the first entry hit, or "" when nothing is. */
    method HoverLabel(pointer: Point) returns (info: string)
      ensures info == HoverText(trig, solarSystem, currentTime, pointer)
    {
      ghost var cat, t := solarSystem, currentTime;
      var i := 0;
      while i < |solarSystem|
        invariant 0 <= i <= |solarSystem|
        invariant Pick(trig, cat, t, pointer) == PickFrom(trig, cat, t, pointer, i)
      {
        var obj := solarSystem[i];
        var planet := BodyPosition(trig, obj, currentTime);

        var j := 0;
        while j < |obj.moons|
          invariant 0 <= j <= |obj.moons|
          invariant PickMoon(trig, cat, t, pointer, i, 0) == PickMoon(trig, cat, t, pointer, i, j)
        {
          var moon := obj.moons[j];
          var moonPos := MoonPosition(trig, planet, moon, currentTime);
          PickMoonStep(trig, cat, t, pointer, i, j);
          if WithinRadius(pointer, moonPos, moon.radius * MOON_PICK_FACTOR) {
            PickFromStep(trig, cat, t, pointer, i);
            return obj.name + SEPARATOR + moon.name;
          }
          j := j + 1;
        }

        PickFromStep(trig, cat, t, pointer, i);
        if WithinRadius(pointer, planet, obj.radius * BODY_PICK_FACTOR) {
          return obj.name;
        }
        i := i + 1;
      }
      return "";
    }

    /** mouse_button_callback: a left press commits the hover label. A
        "Body - Moon" label pins that moon of the first body of that name; a
        plain label pins the first body of that name; an empty label or a
        failed lookup leaves the pinned entry as it was. */
    method MouseButtonCallback(button: int, action: int)
      modifies this`selectedObjectName, this`selectedObjectDescription
      ensures var pin := if button == MOUSE_BUTTON_LEFT && action == PRESS
                         then CommitPin(solarSystem, selectedObjectInfo) else None;
        if pin.Some? then
          selectedObjectName == pin.value.name && selectedObjectDescription == pin.value.description
        else
          selectedObjectName == old(selectedObjectName)
          && selectedObjectDescription == old(selectedObjectDescription)
    {
      if button == MOUSE_BUTTON_LEFT && action == PRESS {
        if selectedObjectInfo != "" {
          var hyphenPos := Find(selectedObjectInfo, SEPARATOR);
          if hyphenPos.Some? {
            var planetName := selectedObjectInfo[..hyphenPos.value];
            var moonName := selectedObjectInfo[hyphenPos.value + |SEPARATOR|..];

            var i := 0;
            while i < |solarSystem|
              invariant 0 <= i <= |solarSystem|
              invariant forall k :: 0 <= k < i ==> solarSystem[k].name != planetName
              invariant selectedObjectName == old(selectedObjectName)
              invariant selectedObjectDescription == old(selectedObjectDescription)
            {
              var obj := solarSystem[i];
              if obj.name == planetName {
                assert FirstBodyNamed(solarSystem, planetName, 0) == Some(i);
                var j := 0;
                while j < |obj.moons|
                  invariant 0 <= j <= |obj.moons|
                  invariant forall k :: 0 <= k < j ==> obj.moons[k].name != moonName
                  invariant selectedObjectName == old(selectedObjectName)
                  invariant selectedObjectDescription == old(selectedObjectDescription)
                {
                  if obj.moons[j].name == moonName {
                    assert FirstMoonNamed(obj.moons, moonName, 0) == Some(j);
                    selectedObjectName := obj.moons[j].name;
                    selectedObjectDescription := obj.moons[j].info;
                    break;
                  }
                  j := j + 1;
                }
                break;
              }
              i := i + 1;
            }
          } else {
            var i := 0;
            while i < |solarSystem|
              invariant 0 <= i <= |solarSystem|
              invariant forall k :: 0 <= k < i ==> solarSystem[k].name != selectedObjectInfo
              invariant selectedObjectName == old(selectedObjectName)
              invariant selectedObjectDescription == old(selectedObjectDescription)
            {
              if solarSystem[i].name == selectedObjectInfo {
                assert FirstBodyNamed(solarSystem, selectedObjectInfo, 0) == Some(i);
                selectedObjectName := solarSystem[i].name;
                selectedObjectDescription := solarSystem[i].info;
                break;
              }
              i := i + 1;
            }
          }
        }
      }
    }

    /** With the renderer running, the pointer over any drawn point of the
        z = 0 plane converts back to exactly that point: picking uses the
        same camera as the view the renderer draws with. */
    lemma PickingMatchesView(p: Point)
      requires Valid() && hasRenderer && 0.0 < trig.tan(FOV / 2.0)
      ensures WorldScale(trig, view.eye.z) != 0.0
      ensures NdcToWorld(trig, Project(trig, view.eye, p), zoomLevel, cameraTarget) == p
    {
      PickingInvertsProjection(trig, zoomLevel, cameraTarget, p, Point(0.0, 0.0));
    }
  }

  /** Two presses of SPACE, or of O, restore the flag they toggle and leave
      everything else as it was. */
  method TogglesAreInvolutions(app: AppState)
    requires app.Valid()
    modifies app
    ensures app.Valid()
    ensures app.simulationPaused == old(app.simulationPaused)
    ensures app.showOrbits == old(app.showOrbits)
    ensures app.timeScale == old(app.timeScale)
    ensures app.solarSystem == old(app.solarSystem) && app.currentTime == old(app.currentTime)
    ensures app.zoomLevel == old(app.zoomLevel) && app.hasRenderer == old(app.hasRenderer)
    ensures app.cameraPosition == old(app.cameraPosition) && app.cameraTarget == old(app.cameraTarget)
    ensures app.view == old(app.view)
    ensures app.lastMouseX == old(app.lastMouseX) && app.lastMouseY == old(app.lastMouseY)
    ensures app.selectedObjectInfo == old(app.selectedObjectInfo)
    ensures app.selectedObjectName == old(app.selectedObjectName)
    ensures app.selectedObjectDescription == old(app.selectedObjectDescription)
  {
    app.KeyCallback(KEY_SPACE, PRESS);
    app.KeyCallback(KEY_SPACE, PRESS);
    app.KeyCallback(KEY_O, PRESS);
    app.KeyCallback(KEY_O, PRESS);
  }

  /** Hover, then a left click: the click pins exactly the entry under the
      pointer, or leaves the pinned entry alone when nothing is under it. */
  method HoverThenClick(app: AppState, xpos: real, ypos: real)
    requires app.Valid()
    modifies app`lastMouseX, app`lastMouseY, app`selectedObjectInfo
    modifies app`selectedObjectName, app`selectedObjectDescription
    ensures app.Valid()
    ensures app.lastMouseX == xpos && app.lastMouseY == ypos
    ensures app.selectedObjectInfo
      == HoverText(app.trig, app.solarSystem, app.currentTime,
                   NdcToWorld(app.trig, PixelToNdc(xpos, ypos), app.zoomLevel, app.cameraTarget))
    ensures var cat := app.solarSystem;
      var pointer := NdcToWorld(app.trig, PixelToNdc(xpos, ypos), app.zoomLevel, app.cameraTarget);
      match Pick(app.trig, cat, app.currentTime, pointer)
      case Some(x) =>
        && IsTarget(cat, x)
        && app.selectedObjectName == PinOf(cat, x).name
        && app.selectedObjectDescription == PinOf(cat, x).description
      case None =>
        && app.selectedObjectName == old(app.selectedObjectName)
        && app.selectedObjectDescription == old(app.selectedObjectDescription)
  {
    app.MouseCallback(xpos, ypos);
    ghost var pointer := NdcToWorld(app.trig, PixelToNdc(xpos, ypos), app.zoomLevel, app.cameraTarget);
    ghost var picked := Pick(app.trig, app.solarSystem, app.currentTime, pointer);
    if picked.Some? {
      CommitLabelPinsTarget(app.solarSystem, picked.value);
    }
    app.MouseButtonCallback(MOUSE_BUTTON_LEFT, PRESS);
  }
}
