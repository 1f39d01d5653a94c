# Snowfall host logic in Dafny

Snowfall is a macOS menu-bar app. It draws falling snow over every screen, or
over the screens the user picks, in transparent overlay windows. The snow is a
particle buffer that GPU kernels update and draw. With window interaction on,
snowflakes melt on the frontmost application's window. This project models
the Swift host code around those kernels and proves properties of it:

- `WindowInfo` (window_info.dfy): finding the active window in the
  operating system's window list, detecting Launchpad, and moving a point
  from the global space of all screens into one screen's space (`cast`).
- `SnowRendering` (snow_renderer.dfy): the per-screen `SnowRenderer`. It
  covers the particle buffer's capacity, the 0.5 s throttled cache of the
  active window with its off-screen sentinel (-1000, -1000, 0, 0), the frame
  clock, the uniform block, and the order of the GPU work one frame submits.
- `SnowfallApp` (snowfall_app.dfy): `AppDelegate.setupSnowWindows`. It
  computes the bounding rectangle of all screens, picks the screens that get
  snow, and rebuilds the list of overlay windows.
- `AppSettings` (settings.dfy): the shared `Settings` object, the four
  presets, and saving to / loading from the user defaults.
- `MenuBar` (menu_bar_settings.dfy): the helpers of the settings view. These
  are normalising the edited ranges, switching to the custom preset, the
  display toggle, and reloading the view's state from the settings.
- `Geometry` (geometry.dfy): points, rectangles, `Option`, and the rectangle
  overlap test.

How the model is built:

- Coordinates, sizes and times are `real`. Particle and byte counts are `int`.
- Every value the code gets from the operating system is an input of the
  call that uses it. This covers the window lists, the frontmost process id,
  the screens, the media clock readings, and whether the view hands out a
  command buffer, drawable and render pass descriptor.
- The classes whose fields the code assigns (`Settings`, `SnowRenderer`,
  `AppDelegate`) and the `@State` storage of the SwiftUI view
  `MenuBarSettings` (a struct whose helpers assign that storage) are Dafny
  classes. Their methods state
  the whole new state. The module-level methods that chain two calls
  (`DrawTwice`, `ApplyPresetTwice`, `SaveThenLoad`, `SwitchToCustomTwice`)
  state the property they exist to show.
- Rectangle sizes are those of the standardized rectangle (`Width()`,
  `Height()`, never negative), as `CGRect.width` and `CGRect.height` are;
  the renderer's screen size reads `size.width` and `size.height`, the raw
  values.
- The GPU is seen only through `commands`: the renderer's record of the
  passes it submits, with thread counts, vertex counts and uniform blocks.

The Swift type `ClosedRange` can only hold `lower <= upper`, so the model
uses a subset type for it. This makes the verifier check that
`updateSettings` never builds an inverted range.

Two details of the code, modelled as written:

- A zero or negative snowflake count is not clamped; the count is copied as
  it is.
- The provider's window rectangle is tested against the screen frame with
  `CGRect.intersects`. The window rectangle has a top-left origin and the
  screen frame a bottom-left origin; the two are compared without conversion.

## Model

| member | source | states |
|---|---|---|
| WindowInfo.IsLaunchpadVisible | SnowfallApp/Sources/Common/WindowInfo.swift:72-85 | true exactly when the window list is present and some entry has owner name "Dock" and layer 27; an absent list counts as empty |
| WindowInfo.GetActiveWindowRect | SnowfallApp/Sources/Common/WindowInfo.swift:35-70 | none without a frontmost process, while Launchpad is visible, or without a window list; a returned rectangle is the unchanged bounds of the first window that has the active process id, layer 0, all four bounds, width and height above 150, alpha above 0.9 (missing alpha counts as 1) and on-screen flag exactly true; otherwise none exactly when no window qualifies |
| WindowInfo.Cast | SnowfallApp/Sources/Common/WindowInfo.swift:87-91 | cast is the translation by the screen's top-left corner measured down from the global top (x origin, global height - (origin y + height), standardized heights): adding that offset back gives the input point, and the corner itself goes to (0, 0) |
| WindowInfo.CastIsTranslation | SnowfallApp/Sources/Common/WindowInfo.swift:87-91 | each output axis of cast depends only on the same input axis |
| WindowInfo.CastRoundTrip | SnowfallApp/Sources/Common/WindowInfo.swift:87-91 | adding the offsets back inverts cast, in both orders |
| WindowInfo.CastIdentity | SnowfallApp/Sources/Common/WindowInfo.swift:87-91 | a screen equal to the global rectangle at (0, 0) leaves points unchanged |
| Geometry.LeastNormalMagnitudePositive | SnowfallApp/Sources/SnowfallApp.swift:30-31 | the start value of the screen fold, 2^-1022, lies in (0, 1] |
| Geometry.Intersects | SnowfallApp/Sources/Common/SnowRenderer.swift:158 | two rectangles intersect exactly when both have positive width and height and each one's minimum lies below the other's maximum on both axes; a rectangle of positive area intersects itself |
| SnowRendering.PolledWindowRect | SnowfallApp/Sources/Common/SnowRenderer.swift:158-162 | a due poll stores either the provider's rectangle or the sentinel, never the old cache; the stored rectangle overlaps the screen exactly when interaction is on and the provider's rectangle overlaps it |
| SnowRendering.SnowRenderer.constructor | SnowfallApp/Sources/Common/SnowRenderer.swift:28-54 | field defaults (pointer sentinel, zero cache, check time 0, clock at creation), screen size from the frame, then one allocation for the configured count with its initialization pass if the init pipeline and a command buffer exist; the allocation counter is 1 |
| SnowRendering.SnowRenderer.GenerateSnowflakes | SnowfallApp/Sources/Common/SnowRenderer.swift:100-108 | particleCount becomes the configured count, the buffer length becomes count times stride, and one initialization pass over particleCount threads is submitted when possible |
| SnowRendering.SnowRenderer.InitializeParticlesOnGPU | SnowfallApp/Sources/Common/SnowRenderer.swift:110-129 | without a command buffer or init pipeline nothing is submitted; otherwise one initialization pass with one thread per particle and the current uniforms |
| SnowRendering.SnowRenderer.UpdateActiveWindowRect | SnowfallApp/Sources/Common/SnowRenderer.swift:155-165 | when now - lastCheck is not above 0.5 neither the cache nor the check time changes; otherwise the check time becomes now and the cache the polled rectangle (provider's if interaction is on, it exists and intersects the screen, else the sentinel) |
| SnowRendering.SnowRenderer.DrawableSizeWillChange | SnowfallApp/Sources/Common/SnowRenderer.swift:169-171 | the screen size becomes the new drawable size |
| SnowRendering.SnowRenderer.Draw | SnowfallApp/Sources/Common/SnowRenderer.swift:173-214 | with a resource missing nothing changes; otherwise reallocation (one more allocation) only when the count differs from the setting, then the poll, lastDrawTime becomes this frame's time, and the frame submits the update pass over particleCount threads, the draw of particleCount points and the present, with uniforms built after the poll whose deltaTime is this frame's time minus the previous lastDrawTime |
| SnowRendering.SnowRenderer.MakeCurrentUniforms | SnowfallApp/Sources/Common/SnowRenderer.swift:131-153 | the uniform window origin is the cached origin cast into the screen (converting it back gives the cached origin), its width and height are the cache's standardized, non-negative size; screen size, pointer, time, deltaTime (now - lastDrawTime), particle count, wind and interaction flag are passed through, and min/max size and speed are the settings' range bounds, so both are ordered |
| SnowRendering.DrawTwice | SnowfallApp/Sources/Common/SnowRenderer.swift:173-214 | the first ready frame ends after exactly 3 commands more than before (4 when it reallocated with an init pass), ending in a present; the second ready frame with the same settings allocates no buffer, submits no initialization pass, only its three frame commands, and keeps the buffer length at count times stride |
| SnowfallApp.GlobalRectBounds | SnowfallApp/Sources/SnowfallApp.swift:30-44 | the fold is at least leastNormalMagnitude, bounds every screen's maxX and maxY, selected or not, and equals leastNormalMagnitude or some screen's value |
| SnowfallApp.NoScreensGlobalRect | SnowfallApp/Sources/SnowfallApp.swift:30-44 | with no screens the global rectangle is (0, 0, leastNormalMagnitude, leastNormalMagnitude) |
| SnowfallApp.SelectedScreensMeaning | SnowfallApp/Sources/SnowfallApp.swift:34-42 | a screen is selected exactly when it is a screen and the mode is all monitors or its name is among the selected monitors; with all monitors the selection is the whole list in order |
| SnowfallApp.SelectedScreensAppend | SnowfallApp/Sources/SnowfallApp.swift:34-42 | selection distributes over concatenation, so selected screens keep screen order |
| SnowfallApp.SelectedWithinGlobal | SnowfallApp/Sources/SnowfallApp.swift:37-44 | every selected screen's maxX and maxY are within the global width and height |
| SnowfallApp.ComputeTopology | SnowfallApp/Sources/SnowfallApp.swift:30-44 | the loop computes the global rectangle (origin 0, 0, the folded maxima) and the selected screens |
| SnowfallApp.SnowWindow.constructor | SnowfallApp/Sources/SnowfallApp.swift:54-68 | a new window is open and covers the screen's frame, with the global rectangle for its renderer |
| SnowfallApp.SnowWindow.Close | SnowfallApp/Sources/SnowfallApp.swift:27 | a closed window is no longer open |
| SnowfallApp.AppDelegate.constructor | SnowfallApp/Sources/SnowfallApp.swift:18 | the window list starts empty |
| SnowfallApp.AppDelegate.SetupSnowWindows | SnowfallApp/Sources/SnowfallApp.swift:26-49 | every old window is closed, and the list holds exactly one new open window per selected screen, in order, on that screen's frame with the global rectangle |
| SnowfallApp.AppDelegate.CreateSnowWindow | SnowfallApp/Sources/SnowfallApp.swift:51-71 | appends one new open window on the screen's frame, keeping the earlier windows |
| AppSettings.PresetApplied | SnowfallApp/Sources/Common/Settings.swift:76-97 | no preset touches the preset field, pause flags, display mode, selected monitors, melting speed or window interaction; applying custom changes no field |
| AppSettings.PresetSelected | SnowfallApp/Sources/Common/Settings.swift:34-36 | the result records the chosen preset and keeps every field no preset touches; selecting custom changes only the recorded preset |
| AppSettings.LightValues | SnowfallApp/Sources/Common/Settings.swift:77-81 | light gives 800 flakes, speed 0.2...1.5, size 2...12, wind 0.5 |
| AppSettings.ComfortValues | SnowfallApp/Sources/Common/Settings.swift:83-87 | comfort gives 2000 flakes, speed 0.5...3.0, size 3...15, wind 1.0 |
| AppSettings.BlizzardValues | SnowfallApp/Sources/Common/Settings.swift:89-93 | blizzard gives 6000 flakes, speed 2...8, size 2...20, wind 4.0 |
| AppSettings.PresetSelectedIdempotent | SnowfallApp/Sources/Common/Settings.swift:34-38 | selecting a preset twice gives the same record as selecting it once |
| AppSettings.PresetsAreWellFormed | SnowfallApp/Sources/Common/Settings.swift:77-93 | every preset but custom yields a positive count, non-negative wind and strictly ordered positive ranges |
| AppSettings.Apply | SnowfallApp/Sources/Common/Settings.swift:74-98 | the object's fields become the preset's values on the old record; the stored data is untouched |
| AppSettings.Settings.Assign | SnowfallApp/Sources/Common/Settings.swift:60-70 | all eleven fields take the decoded record's values; the stored data is untouched |
| AppSettings.Settings.constructor | SnowfallApp/Sources/Common/Settings.swift:15-32 | with decodable stored data the fields are that data; otherwise the field defaults with comfort applied, saved |
| AppSettings.Settings.ApplyPreset | SnowfallApp/Sources/Common/Settings.swift:34-38 | currentPreset becomes the preset, its values are applied, and the result is saved |
| AppSettings.Settings.Reset | SnowfallApp/Sources/Common/Settings.swift:40-45 | with the defaults emptied, load falls back to comfort on the current fields, and saves |
| AppSettings.Settings.Save | SnowfallApp/Sources/Common/Settings.swift:47-51 | the stored data becomes the encoding of the current fields |
| AppSettings.Settings.Load | SnowfallApp/Sources/Common/Settings.swift:53-71 | absent or undecodable data falls back to applyPreset(.comfort); decoded data is copied into all eleven fields |
| AppSettings.ApplyPresetTwice | SnowfallApp/Sources/Common/Settings.swift:34-38 | two applyPreset calls with one preset leave the object as one call does |
| AppSettings.SaveThenLoad | SnowfallApp/Sources/Common/Settings.swift:47-71 | saving then loading restores every field |
| MenuBar.NormalizedRange | SnowfallApp/Sources/Views/MenuBarSettings.swift:203-207 | the stored range keeps the lower bound, keeps the upper bound when ordered, and raises it to the lower bound when the sliders cross |
| MenuBar.Truncate | SnowfallApp/Sources/Views/MenuBarSettings.swift:208 | Int(Float): the integer toward zero within one of its argument |
| MenuBar.Toggled | SnowfallApp/Sources/Views/MenuBarSettings.swift:136-142 | the toggled name's membership flips and every other name's is kept |
| MenuBar.ToggledTwice | SnowfallApp/Sources/Views/MenuBarSettings.swift:136-142 | toggling a name twice restores the set |
| MenuBar.MenuBarSettings.constructor | SnowfallApp/Sources/Views/MenuBarSettings.swift:4-15 | the view's values start from the settings (wind times 100, count as a float), with no display names |
| MenuBar.MenuBarSettings.SwitchToCustom | SnowfallApp/Sources/Views/MenuBarSettings.swift:190-195 | nothing changes when the picker shows custom; otherwise the picker and the settings' preset become custom and the settings are saved |
| MenuBar.SwitchToCustomTwice | SnowfallApp/Sources/Views/MenuBarSettings.swift:190-195 | two calls have the effect of one: custom in the picker, the settings' preset custom and saved, or nothing changed (stored data included) when custom was already shown; only the picker and the settings may change |
| MenuBar.MenuBarSettings.ApplyPreset | SnowfallApp/Sources/Views/MenuBarSettings.swift:197-200 | the settings get the preset selected and saved, and the view's values are reloaded from them |
| MenuBar.MenuBarSettings.UpdateSettings | SnowfallApp/Sources/Views/MenuBarSettings.swift:202-213 | each range's upper slider is raised to its lower one if they cross; the settings get the normalised ranges, the truncated count, the wind slider over 100, the display mode and the selected displays, all other fields kept, and are saved |
| MenuBar.MenuBarSettings.LoadValues | SnowfallApp/Sources/Views/MenuBarSettings.swift:215-229 | every view value except the selected displays is reloaded from the settings; the selected displays stay as they were; the display names are the screens' names |
| MenuBar.MenuBarSettings.ToggleDisplay | SnowfallApp/Sources/Views/MenuBarSettings.swift:136-142 | the selected displays become the toggled set |
| MenuBar.MenuBarSettings.PresetPicked | SnowfallApp/Sources/Views/MenuBarSettings.swift:31-38 | a preset other than custom is applied and the view reloaded; custom only sets the settings' preset to custom, leaving the view as it was; either way the settings are saved |
| MenuBar.MenuBarSettings.ResetPressed | SnowfallApp/Sources/Views/MenuBarSettings.swift:148-150 | the reset button applies comfort to the settings, saves them and reloads the view |
| MenuBar.MenuBarSettings.WindowInteractionChanged | SnowfallApp/Sources/Views/MenuBarSettings.swift:171-174 | only window interaction changes in the settings, which are saved |

## Left out

- The particle kernels (update, initialization, vertex and fragment) are not part of this model. They are named in SnowfallApp/Sources/Common/SnowRenderer.swift; they are not modelled, so particle motion, melting and respawning are not modelled. Their dispatches are modelled only as commands with thread or vertex counts.
- Metal objects (device, queue, pipelines, encoders, blending, `waitUntilCompleted`) are left out. A pipeline that failed to be created is a boolean. An allocation failure of `makeBuffer` is not modelled. A missing render pipeline, which the code would dereference, is not modelled.
- `CGWindowListCopyWindowInfo` and `NSWorkspace` become inputs: an optional list of records and an optional process id. The dictionary casts become optional fields.
- `CGRect.intersects` is modelled as "the standardized rectangles share a region of positive area". How CoreGraphics treats edge-touching and empty rectangles is not settled by this model.
- `CACurrentMediaTime` becomes real-valued readings passed to each call. makeCurrentUniforms reads the clock twice; the model merges those two readings into one.
- UserDefaults and JSON coding become a stored value (absent, undecodable or a record). Encoding is taken as exact and never failing.
- The SwiftUI view body, the NSWindow configuration, the notification observers and MetalSnowViewController (pointer tracking, its y flip and its exit sentinel) are left out.
- SwiftUI reacts to state changes by itself: a change of a slider value after loadValues runs updateSettings again, and a change of selectedPreset runs the picker handler again. The model has each handler as a separately callable method and does not replay those chains.
- Floating point: Float and CGFloat are reals. Truncate models Int(Float) toward zero, but not its trap on out-of-range or NaN values. The wind slider's ×100 and ÷100 are exact in the model, and no round trip through Float is claimed.
- Concurrency: none is modelled; each screen has its own renderer, and the model treats them as independent.
