# RetroDream launcher: configuration store, key-repeat controller, overlay toggling

This project models, in Dafny, the three stateful pieces of the RetroDream
game-image launcher that are not UI composition:

- **`RetroConfig`** (src/cfg.cpp): the typed configuration wrapper. It
  registers group `"main"` with four options (`data_path`,
  `filer_last_path`, `screen_size`, `input_delay`), loads the backing file
  and saves at once when that fails. Its setters persist. Its two path
  getters heal themselves: a stored path that no longer exists is replaced
  by the io's default, written back and saved. `setLastPath` refuses a
  path that does not exist. The model is the class `Config.RetroConfig`.
  It holds the options in memory (`options`), the backing file (`file`,
  `None` when absent or malformed) and a save counter (`saves`). Its
  collaborator `Config.RetroIo` holds the io's data path, home path and the
  set of paths for which `exist` holds.
- **The adaptive key-repeat controller** (`RetroDream::onUpdate`,
  src/main.cpp). While the same key set is held, the repeat delay pushed to
  the input layer falls from the configured delay to a quarter, an eighth
  and a twelfth of it after 1, 3 and 5 seconds. Any change of key set puts
  back the configured delay and restarts the timer. A frame that carries
  the `Delay` marker changes nothing. The pure rule is module `Repeat`, and
  `Shell.RetroDream.OnUpdate` is proved against it.
- **Overlay toggling** (`RetroDream::onInput`, src/main.cpp). While the
  credits are shown, menu keys do nothing. Otherwise Fire3+Fire5+Fire6 (the
  screenshot combination) wins over Fire4, and Fire4 wins over Start.
  Fire4 on a game toggles the file menu and hides the option menu. Start
  toggles the option menu and hides the file menu. The blur layer follows
  whichever menu was just toggled. `EV_QUIT` sets the quit flag in every
  case. The pure rule is module `Overlays`, and
  `Shell.RetroDream.OnInput` is proved against it.

Time is modelled as integer milliseconds. Each frame passes in one clock
sample `now`. The restartable timer is the field `timerStart`, so elapsed
time is `now - timerStart`. `asSeconds() > 5` becomes `elapsed > 5000`.
C++ `int` division truncates toward zero, so `Repeat.TruncDiv` models it
explicitly and no sign is required of the configured delay.

Points of the code that the model keeps:
- `setRepeatDelay` is called only when the key set changed or a hold
  passed 1 second (src/main.cpp:213-226). `OnUpdate` returns `None` for
  frames that make no call.
- The data-path fallback is whatever `io->getDataPath()` returns at the time
  of the call, and the constructor hands the resolved data path to
  `io->setDataPath` (src/cfg.cpp:29-30). The io's source (retroio.h) is
  not part of this model. The model ASSUMES that `setDataPath` changes what
  `getDataPath` returns afterwards. Under that assumption, after
  construction the fallback is the path resolved at start-up. The model's
  `RetroIo.dataPath` is mutable, and `GetDataPath` falls back to its
  current value.
- src/main.cpp:166 reads the delay through `getInt(RetroConfig::InputDelay)`,
  which src/cfg.cpp as given does not define. The model reads it through
  `GetInputDelay` (src/cfg.cpp:79-82).

## Model

| member | source | states |
|---|---|---|
| `Config.Defaults` | src/cfg.cpp:16-20 | the registered defaults: the io's data path, the io's home path, the rectangle {0,0,640,480} and 200 ms |
| `Config.Loaded` | src/cfg.cpp:23-24 | a failed `load()` keeps every registered value; a successful one takes each key the file holds and keeps the registered value of each key it lacks |
| `Config.Snapshot` | src/cfg.cpp:23-27 | what `save()` writes loads back as exactly the saved options, whatever defaults the loading store registered (save/load round trip) |
| `Config.RetroConfig.constructor` | src/cfg.cpp:12-31 | options are the defaults (io data path, io home path, {0,0,640,480}, 200) overlaid by the keys the file holds; a missing or malformed file is replaced by a snapshot of memory; a stale loaded data path is replaced by the io's data path and saved; the io's data path ends equal to the resolved data path; the file is well-formed afterwards; the save count is exact |
| `Config.RetroConfig.Save` | src/cfg.cpp:26 | the backing file becomes a snapshot of memory and the save count goes up by one |
| `Config.RetroIo.SetDataPath` | src/cfg.cpp:29-30 | the io hands out the given data path from then on |
| `Config.RetroConfig.GetDataPath` | src/cfg.cpp:33-45 | an existing stored path is returned with nothing changed and no save; otherwise the io's data path is returned, stored as `data_path` only, and saved; the result always exists or is the io's data path |
| `Config.RetroConfig.GetLastPath` | src/cfg.cpp:47-59 | the same as `GetDataPath` against the home path, touching only `filer_last_path` |
| `Config.RetroConfig.SetLastPath` | src/cfg.cpp:61-67 | an existing path is stored as `filer_last_path` only and saved; a missing path leaves memory, file and save count unchanged |
| `Config.RetroConfig.GetScreenSize` | src/cfg.cpp:69-72 | returns the stored screen rectangle and changes nothing |
| `Config.RetroConfig.SetScreenSize` | src/cfg.cpp:74-77 | stores the rectangle, changes no other option, and saves |
| `Config.RetroConfig.GetInputDelay` | src/cfg.cpp:79-82 | returns the stored input delay and changes nothing |
| `Config.RetroConfig.SetInputDelay` | src/cfg.cpp:84-87 | stores the delay, changes no other option, and saves |
| `ConfigProperties.FirstRun` | src/cfg.cpp:16-27 | with no usable file, construction leaves all four options at their defaults and the file holds exactly them |
| `ConfigProperties.LastPathRoundTrip` | src/cfg.cpp:47-67 | after setting an existing last path, `GetLastPath` returns it and a fresh load of the file yields it |
| `ConfigProperties.RejectedLastPath` | src/cfg.cpp:61-67 | setting a missing last path changes neither the stored path nor the file nor the save count |
| `ConfigProperties.HealedDataPathIsStable` | src/cfg.cpp:33-45 | with an existing fallback, two reads of the data path agree and the result exists; a correction is on disk and costs exactly one save; a valid path costs none |
| `ConfigProperties.ScreenSizeRoundTrip` | src/cfg.cpp:69-77 | set then get returns the same rectangle, nothing else changes, and a fresh load yields the new options |
| `ConfigProperties.InputDelayRoundTrip` | src/cfg.cpp:79-87 | set then get returns the same delay, nothing else changes, and a fresh load yields the new options |
| `Keys.XorDiffers` | src/main.cpp:213 | `(oldKeys ^ keys) != 0` holds exactly when the key sets differ |
| `Repeat.TruncDiv` | src/main.cpp:217-221 | C++ `int` division: the quotient rounded toward zero, with the sign of the dividend and a remainder smaller than the divisor |
| `Repeat.HoldCall` | src/main.cpp:215-222 | with the keys unchanged, no call within the first second; after that a quarter, an eighth or a twelfth of the configured delay, the twelfth past 5 s |
| `Repeat.Applied` | src/main.cpp:210-227 | the call one frame makes: none on a `Delay` frame; the configured delay when the keys changed; no call only on a `Delay` frame or a hold of at most 1 s |
| `Repeat.Step` | src/main.cpp:210-227 | after one frame, the delay in force is the one just pushed (or the old one when no call is made); the recorded keys are the frame's unless it is a `Delay` frame; the timer restarts exactly when the keys changed |
| `Repeat.TruncDivNonIncreasing` | src/main.cpp:216-221 | for a non-negative delay, a larger divisor never gives a larger quotient |
| `Repeat.HeldDelayNonIncreasing` | src/main.cpp:215-224 | for a non-negative configured delay, the delay due after a longer hold is never larger |
| `Repeat.HeldDelayBounds` | src/main.cpp:215-224 | for a non-negative configured delay, the delay due always lies between a twelfth of it and all of it |
| `Repeat.StepTracks` | src/main.cpp:210-227 | one frame keeps the delay in force equal to the one due for the current hold |
| `Repeat.RunTracks` | src/main.cpp:207-230 | over any run of frames with a clock that never goes back, the delay in force is the one due for how long the current key set has been held |
| `Repeat.HoldStepNonIncreasing` | src/main.cpp:215-222 | a frame that keeps the same keys held never raises the delay in force (non-negative configured delay) |
| `Repeat.RunStaysInTiers` | src/main.cpp:212-227 | over any run of frames the delay in force is one of the configured delay and its quarter, eighth and twelfth |
| `Repeat.AccelerationExample` | src/main.cpp:212-227 | with 200 ms, holds sampled at 0.5, 2, 4 and 6 s give 200, 50, 25 and 16 ms, and a new key set gives 200 ms and restarts the timer |
| `Overlays.Action` | src/main.cpp:177-197 | the branch taken: nothing under credits; the screenshot combination first; Fire4 next (acted on only for a game); Start last; each case as an if-and-only-if |
| `Overlays.Dispatch` | src/main.cpp:177-202 | one `onInput` never changes the credits; it sets quit exactly when `EV_QUIT` is held or quit was set; under credits only quit can change; it keeps the menus exclusive with the blur layer in step |
| `Overlays.DispatchAllExclusive` | src/main.cpp:181-197 | over any sequence of inputs, at most one menu is shown and the blur layer is up exactly when one is |
| `Overlays.DispatchAllUnderCredits` | src/main.cpp:177-202 | while the credits are shown, no input changes anything but the quit flag, and a set quit flag stays set |
| `Overlays.StartTwiceRestores` | src/main.cpp:191-197 | pressing Start twice with no file menu shown restores the menus and the blur layer |
| `Shell.RetroDream.constructor` | src/main.cpp:166-168 | the repeat delay starts at the configured input delay and the timer starts at the given clock sample; every overlay starts hidden |
| `Shell.RetroDream.OnUpdate` | src/main.cpp:207-230 | a `Delay` frame changes nothing and makes no call; a changed key set applies the configured delay, restarts the timer and records the keys; an unchanged key set applies the quarter, eighth or twelfth after 1, 3 or 5 s, and otherwise makes no call |
| `Shell.RetroDream.OnInput` | src/main.cpp:173-205 | credits freeze the menus and blur layer; Start toggles the option menu, hides the file menu, and the blur layer follows the option menu; Fire4 on a game hides the option menu, toggles the file menu, and the blur layer follows it; the screenshot combination changes nothing; quit is set by `EV_QUIT`; menu exclusivity is kept |

## Left out

- Widget tree construction, layout, colours, fonts and tweens of the
  `RetroDream` constructor (src/main.cpp:36-165) are UI composition over
  the cross2d toolkit. Tweens are taken as instant visibility changes.
- `main()`, the render loop, the splash screen and SD/IDE mounting
  (src/main.cpp:274-342) are platform I/O.
- `retroDebug`, `debugClockStart` and `debugClockEnd` (src/main.cpp:241-272)
  are diagnostics (printf, sleep, render flip).
- The screenshot itself (src/main.cpp:179-180) is not modelled.
  `OnInput` only reports that this branch won.
- `fileMenu->setTitle` and `fileMenu->save()` in `onInput`
  (src/main.cpp:185, 188, 195) are left out. The file menu's own
  configuration is not part of this model.
- `RectangleShape::onUpdate` (src/main.cpp:229) goes to toolkit code,
  which is not part of this model.
- The forwarding call `C2DObject::onInput` (src/main.cpp:204) is not
  modelled. It reaches the children's `onInput`, including the launcher's
  own `FileMenu::onInput` (src/filemenu.h:27) and `Menu::onInput`
  (src/menu.h:16). Their bodies are not part of this model.
- The `setVisibility` calls in `onInput` (src/main.cpp:184, 186, 192, 194)
  go to the overrides `FileMenu::setVisibility` (src/filemenu.h:25) and
  `Menu::setVisibility` (src/menu.h:14). Their bodies are not part of this
  model. The model takes each call as a plain assignment of the visibility.
- Overlays.DispatchAllExclusive, Overlays.DispatchAllUnderCredits and the
  exclusivity clause of Shell.RetroDream.OnInput hold for the body of
  `RetroDream::onInput` only. The children's `onInput` and
  `setVisibility` overrides can change the same visibilities, and they are
  not part of this model.
- The `printf` diagnostics of `getDataPath` and `getLastPath`
  (src/cfg.cpp:37-38, 51-52) are console output and are left out.
- The on-disk format and the internals of the toolkit's `Config::load` and
  `Config::save` are not modelled. `load()` overlays the keys a well-formed
  file holds and fails when the file is absent or malformed. `save()`
  always succeeds and writes a full snapshot. A failing save is not
  modelled.
- The cross2d key values (`Fire3` … `Fire6`, `Start`, `Delay`, `EV_QUIT`)
  come from a toolkit header that is not part of this model. `Keys` uses
  placeholder single bits, and no proof depends on which bits they are.
- The starting visibility of the option menu, file menu and credits is set
  by their own constructors, which are not part of this model. The model
  starts them hidden, as line 132 does for the blur layer. The model also
  starts `oldKeys` at 0 and `quit` at false. Their initial values are
  declared in src/main.h, which is not part of this model.
- The float timer is modelled as one integer-millisecond sample per frame,
  although the code reads `getElapsedTime()` up to three times.
- `FloatRect` is an opaque four-field value with no arithmetic.
- Filesystem existence is a set of paths held by the io. A path's
  existence can change between calls when a client updates that set, but
  not during a call.
- `Repeat.HeldDelayNonIncreasing`, `Repeat.HeldDelayBounds` and
  `Repeat.HoldStepNonIncreasing` are stated for a non-negative configured
  delay only. `setInputDelay` does not enforce this. With a negative delay,
  truncating division reverses the order.
