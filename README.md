# efl-util core, modelled in Dafny

efl-util is a small Tizen C library that lets an EFL application do four things through
the X window system:

- synthesise key and touch input through the XTEST virtual devices (`efl_util_input_*`);
- capture the screen into a tbm surface through an Xv capture port (`efl_util_screenshot_*`);
- set and read a notification window's level through the utilx properties, and get a callback when the window manager refuses it;
- set and read a window's screen mode through the `wm.policy.win.lcd.lock` aux hint, again with a refusal callback.

It also has a one-call window opacity hint.

This project models each of those operations. The X server, the Xv/XDamage/DRI3/tbm
libraries, utilx and ecore_evas are abstract: each answer the core consumes is a parameter.
These answers include:

- the device list and the set of openable device ids;
- the adaptors and the grabbable ports;
- whether a query fails;
- the descriptor the DRI3 negotiation yields;
- the event that arrives;
- the ecore_evas aux-hint list.

The model then proves what the core does with those answers.

Modules (one file each, all importing `Common`, which holds the error codes, `Option` and
bit tests):

- `Input` (`input.dfy`). Discovery of the two device ids is a `while` loop over the server's device list, proved equal to a recursive scan (`Scan`). Lemmas about the scan cover:
  - first-candidate selection;
  - the keyboard id being overwritten while no touch device is found;
  - stopping once every requested class is found.

  The generator handle is a class whose open and close methods are proved against pure
  functions. Key names resolve through `Keycode-N` or the keysym tables; a round-trip lemma
  covers `atoi`. The key and touch front ends' checks and results are functions.
- `Screenshot` (`screenshot.dfy`). It covers:
  - the FOURCC packing and its round trip;
  - the nested adaptor/format/port loops of the port search, proved against a specification whose first-match property is a lemma;
  - the handle's fields as a class;
  - the teardown of deinitialize as an ordered release trace;
  - the acquisition steps of initialize, each a method proved against a stage function, with the rollback through deinitialize;
  - the reconfigure path of a live singleton;
  - the X error handler's two flags;
  - the capture.
- `Registry` (`registry.dfy`). The refusal-callback registry that the notification module and the screen-mode module each keep: a list with at most one entry per window, a handler count and the access-result atom. The two source files hold identical copies with different names; one `CallbackRegistry` class models each copy. Its list operations are loops proved against recursive functions. The set/unset operations preserve a consistency invariant. Client-message dispatch is specified by `Dispatch`.
- `Notification` (`notification.dfy`). The level table written by the set call and read back by the get call, with the window-type checks first.
- `ScreenMode` (`screen_mode.dfy`). The set call writes "1" or "0" into the lock hint, adding it only when the window has none. The get call reads a prefix "1" as ALWAYS_ON and anything else as DEFAULT. The ecore_evas aux-hint list is a store of (id, name, value) records whose `EcoreEvas` class is changed in place by the set call.
- `Opacity` (`opacity.dfy`). Flag 0/1 to the utilx OFF/ON state.

Points where the model follows the code rather than the documented intent:

- `efl_util_screenshot_deinitialize` closes `drm_fd` whenever it is `>= 0`. A freshly calloc'ed handle has `drm_fd == 0`, so a rollback before the descriptor is negotiated closes descriptor 0. `TeardownOfBareHandleClosesDescriptorZero`, `RollbackClosesDescriptorZero` and `FailedAcquireRollbackDescriptor` state this.
- Re-registering a refusal callback for the same window replaces the entry but counts twice. After one unset the list is empty and the handler is still installed (`ReRegistrationKeepsHandler`).
- When a live singleton is reconfigured to a new size, a BadAccess raised while the port attribute is set is swallowed, but the permission flag stays set. The next failed capture then reports PERMISSION_DENIED (`StalePermissionFlagReported`). On a fresh initialize no singleton exists yet, so the error handler ignores the error and no flag is set.
- A failed `ecore_event_handler_add` in a set-callback call is neither reported nor undone: the registration counts, no handler is installed, and only a later successful set installs one (`FailedHandlerAddRetriedBySet`).
- Reconfiguring a live singleton to a new size stores the requested size. A fresh initialize stores the best size the server offers.
- A failed allocation in the registry's add still removes the window's old entry (`AddEntry`).
- Device discovery takes the touch id only while it is 0 but overwrites the keyboard id on every later candidate. Without a touch device, the last keyboard candidate wins (`KeyOverwrittenWhileTouchMissing`).
- A failed touch open leaves an already-opened keyboard device open while the handle is freed (`InitializeGenerator`'s `leaked`).

Constants taken from `efl_util.h`, which is not part of this model:

- the device-type bits: TOUCHSCREEN = 1, KEYBOARD = 2, MAX = 1024;
- the touch types: NONE = 0, BEGIN = 1, UPDATE = 2, END = 3, MAX = 10.

The error codes are symbolic.

## Model

| member | source | states |
|---|---|---|
| Input.FindAllRequestDevices | src/efl_util_input.c:376-396 | returns 1 exactly when every device class requested in the mask already has a nonzero id, otherwise 0 |
| Input.DiscoveredIds | src/efl_util_input.c:180-190 | a device type outside (NONE, MAX) leaves both ids untouched |
| Input.TouchNeverOverwritten | src/efl_util_input.c:199-212 | a touch id that is already set is never replaced by the scan |
| Input.UnrequestedIdsUnchanged | src/efl_util_input.c:194-241 | a class that is not requested keeps its id through the scan |
| Input.TouchIsFirstCandidate | src/efl_util_input.c:199-212 | with TOUCHSCREEN requested, the touch id is the first slave pointer with a nonzero id whose name starts with the touch device name |
| Input.KeyIsFirstCandidateWhenAlone | src/efl_util_input.c:213-238 | with only KEYBOARD requested, the keyboard id is the first slave or floating keyboard with a nonzero id and the hwkey name, and once there is such a keyboard the scan ends with all requested classes found |
| Input.KeyFromCandidate | src/efl_util_input.c:213-238 | for any mask, the keyboard id the scan ends with is the starting id or the id of a slave or floating keyboard with the hwkey name |
| Input.KeyOverwrittenWhileTouchMissing | src/efl_util_input.c:213-238 | with both classes requested and no touch device, every keyboard candidate overwrites the id, so the last one wins |
| Input.ScanStopsOnceAllFound | src/efl_util_input.c:207-236 | once all requested classes are found the loop stops, so devices after that point are never examined |
| Input.InputGenerator.constructor | src/efl_util_input.c:152-157 | a new handle has both ids 0 and both device slots empty |
| Input.InputGenerator.GetDeviceId | src/efl_util_input.c:180-246 | the device loop leaves exactly the ids of the recursive scan specification |
| Input.OpenDevices | src/efl_util_input.c:248-288 | the keyboard opens first and its failure skips the touch open; success iff some class is requested and every requested id is openable; otherwise NO_SUCH_DEVICE |
| Input.InputGenerator.OpenGenerateDevice | src/efl_util_input.c:248-288 | the method's slots and result equal OpenDevices |
| Input.CloseDevices | src/efl_util_input.c:290-305 | every opened slot is closed, in keyboard-then-touch order, and emptied, and its id zeroed; unopened slots keep their ids |
| Input.CloseIdempotent | src/efl_util_input.c:290-305 | closing twice leaves the same handle as closing once, and the second close closes nothing |
| Input.InputGenerator.CloseGenerateDevice | src/efl_util_input.c:290-305 | the method's new state and close calls equal CloseDevices |
| Input.InitializeGenerator | src/efl_util_input.c:26-67 | OUT_OF_MEMORY on a failed allocation; INVALID_OPERATION when ecore_x, the display or XI2 is missing; otherwise discovery then open; a handle exactly on success; a failed open leaks the devices already opened |
| Input.InitializeSucceedsIff | src/efl_util_input.c:248-288 | initialization succeeds iff some class is requested and each requested discovered id is openable; a mask without either class bit yields NO_SUCH_DEVICE |
| Input.KeyboardOnlyWithoutKeyboardFails | src/efl_util_input.c:254-262 | a KEYBOARD request on a server with no keyboard candidate fails with NO_SUCH_DEVICE, provided the server refuses to open device id 0 (the source opens the undiscovered id 0 without checking it) |
| Input.DeinitializeGenerator | src/efl_util_input.c:69-81 | a null handle gives INVALID_PARAMETER; otherwise the devices are closed as CloseDevices says and the result is NONE |
| Input.AtoiRoundTrip | src/efl_util_input.c:313-316 | atoi reads back the decimal rendering of every natural number, with or without a minus sign |
| Input.KeynameToKeycode | src/efl_util_input.c:307-325 | a `Keycode-` name gives atoi of the rest; otherwise an unknown keysym gives 0 and a known one its keycode in the server's mapping |
| Input.KeycodeNameRoundTrip | src/efl_util_input.c:313-316 | `Keycode-N` resolves to N whatever the keysym tables hold |
| Input.GenerateKey | src/efl_util_input.c:83-104 | an event is sent iff the handle is non-null and the keycode positive; it carries the keyboard device, the keycode and press == (pressed == 1); NONE iff the server accepts, else PERMISSION_DENIED |
| Input.TouchKindOf | src/efl_util_input.c:352-366 | BEGIN selects press, UPDATE selects move, END selects release, and no other type selects anything |
| Input.GenerateTouch | src/efl_util_input.c:106-121 | INVALID_PARAMETER without a sync for a null handle, a negative index or coordinate, or a type outside (NONE, MAX); otherwise the selected request with axes [x, y] is sent, and NONE iff one was sent and accepted, else PERMISSION_DENIED |
| Input.BeginThenEndAccepted | src/efl_util_input.c:106-121 | BEGIN and END at the same point both pass the checks and reach the server as a press and a release |
| Screenshot.Fourcc | src/efl_util_screenshot.c:83 | each of the four masked bytes lands in its own byte of the code, lowest first |
| Screenshot.FourccRoundTrip | src/efl_util_screenshot.c:83 | the bytes given to FOURCC are recovered from the code |
| Screenshot.FourccOfBytes | src/efl_util_screenshot.c:83 | packing the bytes of any code gives that code back |
| Screenshot.Rgb32Value | src/efl_util_screenshot.c:85 | FOURCC('R','G','B','4') is 0x34424752 |
| Screenshot.FirstGrabbable | src/efl_util_screenshot.c:156-163 | the lowest grabbable port in the adaptor's range, or none exactly when no port there is grabbable |
| Screenshot.PortSearchChoosesFirst | src/efl_util_screenshot.c:135-172 | -1 iff no input-and-still adaptor that lists the format has a grabbable port; otherwise the lowest grabbable port of the first such adaptor that has one |
| Screenshot.GetPort | src/efl_util_screenshot.c:108-173 | the nested loops return the port search specification, -1 when the extension or the adaptor query fails |
| Screenshot.StepReleases | src/efl_util_screenshot.c:451-492 | teardown step k releases a resource exactly when that resource is set and has rank k |
| Screenshot.DeinitReleasesInOrder | src/efl_util_screenshot.c:443-498 | a handle without a display gives INVALID_PARAMETER and releases nothing; otherwise NONE, with releases in source order and none repeated |
| Screenshot.DeinitReleasesOnlySetFields | src/efl_util_screenshot.c:451-492 | a resource is released iff its field passes its guard |
| Screenshot.DeinitGuards | src/efl_util_screenshot.c:465-492 | the display is closed iff it is internal; the video is stopped iff both a port and a pixmap are set; the descriptor is closed iff it is not negative |
| Screenshot.TeardownOfBareHandleClosesDescriptorZero | src/efl_util_screenshot.c:465-466 | tearing down a calloc'ed handle that has only a display closes descriptor 0 and nothing else |
| Screenshot.HandleXError | src/efl_util_screenshot.c:96-106 | errors while there is no singleton, or on another display, are ignored; on the singleton's display the caught flag is set, and the permission flag is set by BadAccess and never cleared |
| Screenshot.StepDisplay | src/efl_util_screenshot.c:248-259 | the ambient display is used, else one opened for the module and marked internal; failure iff neither exists |
| Screenshot.StepPort | src/efl_util_screenshot.c:262-285 | success iff a port > 0 is found and the best size is nonzero in both dimensions; then the best size is stored |
| Screenshot.StepDrawables | src/efl_util_screenshot.c:287-315 | success iff pixmap, GC, the damage extension and a positive damage object are all obtained |
| Screenshot.StepBuffers | src/efl_util_screenshot.c:356-428 | success iff the DRI3 descriptor is not negative and the buffer manager is obtained; a non-negative descriptor is the only one stored, and a missing or negative one leaves drm_fd unchanged |
| Screenshot.Acquire | src/efl_util_screenshot.c:248-435 | the acquisition succeeds iff every stage does, then with the best size (the server's answer for the requested size), a display and a port; drm_fd ends at 0 unless a non-negative descriptor was negotiated, and then it is that descriptor |
| Screenshot.RollbackClosesDescriptorZero | src/efl_util_screenshot.c:436-440 | on a display, a negotiation that yields no descriptor makes the initialize fail, and its rollback through deinitialize closes descriptor 0 |
| Screenshot.FailedAcquireRollbackDescriptor | src/efl_util_screenshot.c:248-440 | on a display, every failed initialize leaves drm_fd at 0 unless a non-negative descriptor was stored, and a rollback with drm_fd 0 closes descriptor 0 (an earlier stage failed, or the descriptor was negative or missing) |
| Screenshot.SurfaceDescriptor | src/efl_util_screenshot.c:633-644 | the surface is XRGB8888, 32 bpp, of the exported size, with one plane at offset 0 whose size is stride × height |
| Screenshot.CaptureSpec | src/efl_util_screenshot.c:501-684 | a surface iff the put-still raises no error, the damage event of the pixmap arrives and the export, import and surface creation succeed; otherwise PERMISSION_DENIED iff the flag was set or BadAccess was raised, else EXECUTION_FAIL; the permission flag is reported once and cleared |
| Screenshot.StalePermissionFlagReported | src/efl_util_screenshot.c:675-681 | a permission flag left by an earlier call turns a timed-out capture into PERMISSION_DENIED, and without it the result is EXECUTION_FAIL |
| Screenshot.ScreenshotHandle.constructor | src/efl_util_screenshot.c:239-245 | a new handle has every field 0 |
| Screenshot.ScreenshotModule.constructor | src/efl_util_screenshot.c:89-94 | no singleton and both error flags clear |
| Screenshot.ScreenshotModule.XErrorHandler | src/efl_util_screenshot.c:96-106 | the flags change as HandleXError says |
| Screenshot.ScreenshotModule.GetBestSize | src/efl_util_screenshot.c:175-195 | the caught flag ends clear; an error while the attribute is set changes the permission flag as the error handler does, so a BadAccess leaves it set only when a singleton on that display exists (the reconfigure of a live singleton), and on a fresh initialize it is unchanged; success iff both best dimensions are positive |
| Screenshot.ScreenshotModule.Deinitialize | src/efl_util_screenshot.c:443-498 | the result and releases equal Deinit of the handle's fields, and the singleton is cleared on success |
| Screenshot.ScreenshotModule.OpenDisplay | src/efl_util_screenshot.c:248-259 | the handle's new fields equal StepDisplay |
| Screenshot.ScreenshotModule.SetupPort | src/efl_util_screenshot.c:262-285 | the handle's new fields equal StepPort, and the caught flag is cleared once a port is found |
| Screenshot.ScreenshotModule.CreateDrawables | src/efl_util_screenshot.c:287-315 | the handle's new fields equal StepDrawables |
| Screenshot.ScreenshotModule.SetupBuffers | src/efl_util_screenshot.c:356-428 | the handle's new fields equal StepBuffers |
| Screenshot.ScreenshotModule.Acquisition | src/efl_util_screenshot.c:248-435 | the steps run in order, stop at the first failure and leave the fields Acquire gives |
| Screenshot.ScreenshotModule.Initialize | src/efl_util_screenshot.c:207-441 | a non-positive size gives INVALID_PARAMETER; a live singleton of equal size is returned unchanged; a different size re-queries the best size and stores the requested one; otherwise a fresh acquisition on success, and a rollback with INIT_FAIL or OUT_OF_MEMORY on failure |
| Screenshot.ScreenshotModule.TakeSurface | src/efl_util_screenshot.c:501-684 | a handle other than the singleton gives INVALID_PARAMETER; otherwise surface, requests, flags and the last result equal CaptureSpec |
| Registry.Find | src/efl_util_notification.c:287-301 | the position of the first entry for the window, and none exactly when there is no such entry |
| Registry.RemoveFoundIsOthers | src/efl_util_notification.c:305-316 | with one entry per window, removing the found entry drops exactly that window's entry and keeps the order |
| Registry.AddEntry | src/efl_util_notification.c:305-328 | the old entry of the window is removed first; on success the new entry is appended last; on a failed allocation the old entry is still gone; one entry per window is kept |
| Registry.DeleteEntry | src/efl_util_notification.c:332-344 | false and no change iff the window has no entry; otherwise exactly its entry goes |
| Registry.AfterSet | src/efl_util_notification.c:178-200 | a null window gives INVALID_PARAMETER with no change; a failed allocation gives OUT_OF_MEMORY; success appends the entry, increments the count, interns the atom once, and leaves a handler installed iff one already was or the new installation returns one; consistency is preserved |
| Registry.AfterUnset | src/efl_util_notification.c:204-228 | NONE iff the window is non-null and registered; then its entry goes, the count drops and the handler is removed when the count reaches 0; consistency is preserved |
| Registry.FailedHandlerAddRetriedBySet | src/efl_util_notification.c:178-200 | a first set whose handler installation fails succeeds with count 1 and no handler; a later successful set installs it |
| Registry.HandlerTracksCountPreserved | src/efl_util_notification.c:178-228 | while every installation succeeds, set and unset keep the handler installed exactly while the count is positive |
| Registry.ReRegistrationKeepsHandler | src/efl_util_notification.c:178-228 | setting the same window twice and unsetting it once leaves an empty list with count 1 and the handler installed; a second unset is refused |
| Registry.AccessDeniedIff | src/efl_util_notification.c:248 | the truncated access value is 0 iff the long is a multiple of 2^32 |
| Registry.FindByXwin | src/efl_util_notification.c:264-283 | the first entry with a non-null window whose X window matches, and none exactly when there is none |
| Registry.Dispatch | src/efl_util_notification.c:232-260 | the first matching entry's callback fires with PERMISSION_DENIED iff the message is the access-result atom, the access value is 0 and the callback is set; the event is always passed on |
| Registry.CallbackRegistry.constructor | include/efl_util_private.h:35-38 | an empty list, no handler, count 0 and no atom |
| Registry.CallbackRegistry.InfoFind | src/efl_util_notification.c:287-301 | the list loop returns Find |
| Registry.CallbackRegistry.InfoFindByXwin | src/efl_util_notification.c:264-283 | the list loop returns FindByXwin |
| Registry.CallbackRegistry.InfoAdd | src/efl_util_notification.c:305-328 | the list and the result equal AddEntry |
| Registry.CallbackRegistry.InfoDel | src/efl_util_notification.c:332-344 | the list and the result equal DeleteEntry |
| Registry.CallbackRegistry.SetErrorCb | src/efl_util_notification.c:178-200 | the new state and the result equal AfterSet, and consistency is kept |
| Registry.CallbackRegistry.UnsetErrorCb | src/efl_util_notification.c:204-228 | the new state and the result equal AfterUnset, and consistency is kept |
| Registry.CallbackRegistry.ClientMessageHandler | src/efl_util_notification.c:232-260 | the handler's action equals Dispatch |
| Notification.LevelTable | src/efl_util_notification.c:56-91 | every named level has a write, and the out-of-range level has none |
| Notification.SetNotificationLevel | src/efl_util_notification.c:29-94 | a null window gives INVALID_PARAMETER; a failed or non-notification type query gives NOT_SUPPORTED_WINDOW_TYPE before the level is looked at; then a write iff the level is named, else INVALID_PARAMETER |
| Notification.GetNotificationLevel | src/efl_util_notification.c:98-174 | the same checks as set; a known priority maps to its level; UNKNOWN falls back to the utilx level 1-3; anything else gives INVALID_PARAMETER; a returned level's table entry is what was read |
| Notification.SetThenGet | src/efl_util_notification.c:29-174 | get after a successful set yields the level that was set, assuming utilx reads back what was written: a written priority as that priority, and after a level write an UNKNOWN priority with the written level (`Readback`) |
| Notification.LevelTableInjective | src/efl_util_notification.c:56-91 | distinct named levels make distinct writes |
| ScreenMode.ModeValue | src/efl_util_screen_mode.c:65-78 | ALWAYS_ON writes "1" and DEFAULT writes "0"; no other mode writes anything; a written value starts with "1" iff the mode is ALWAYS_ON |
| ScreenMode.HintValSet | src/efl_util_screen_mode.c:66-71 | only the hint with that id gets the new value: ids, names, order and every other hint are unchanged, and reading that id back gives the new value; an unknown id changes nothing |
| ScreenMode.SetScreenMode | src/efl_util_screen_mode.c:48-81 | NONE iff the window, its evas and its ecore_evas exist and the mode is named; every failure is INVALID_PARAMETER and leaves the hints untouched; on success every hint not named as the lock hint is unchanged, only a new lock hint is appended and only when there was none, the lock hint keeps its id (or takes the next id), and its value is the mode's value; the store stays valid |
| ScreenMode.SetWindowScreenMode | src/efl_util_screen_mode.c:48-81 | the ecore_evas' hints and the result equal SetScreenMode |
| ScreenMode.GetScreenMode | src/efl_util_screen_mode.c:85-124 | NONE iff the window, out pointer, evas and ecore_evas exist and the lock hint exists with a value; the mode is ALWAYS_ON iff that value starts with "1", else DEFAULT |
| ScreenMode.SetThenGet | src/efl_util_screen_mode.c:48-124 | get after a successful set yields the mode that was set |
| ScreenMode.SetKeepsOneLockHint | src/efl_util_screen_mode.c:64-74 | a set adds the lock hint only when the window has none, so repeated sets never create a second one |
| Opacity.RequestedState | src/efl_util.c:37-42 | flag 0 asks for OFF and flag 1 for ON; no other flag asks for anything |
| Opacity.FlagStateRoundTrip | src/efl_util.c:37-42 | the flags 0 and 1 and the two states correspond one to one |
| Opacity.SetWindowOpaqueState | src/efl_util.c:25-48 | NONE iff the window is non-null, the flag is 0 or 1 and utilx reports success; every failure is INVALID_PARAMETER; the requested state is RequestedState of the flag |

## Left out

- X, Xv, XDamage, DRI3, tbm, utilx and ecore_evas are not modelled; their answers are parameters of the model.
- Logging (`fprintf`, `printf`) is left out.
- Notification.SetThenGet: what utilx reports back after a write is an assumption (`Readback`), not a property of the code here: after a level write the priority property is taken to read as UNKNOWN.
- `XSync` and `XFlush`: the key and touch generators record only whether the display is synced (the `synced` field of their outcomes). In the screenshot code, a sync is only the point where a pending X error reaches the error handler. What either call does on the server is not modelled.
- The DRI2 variant of the screenshot code (`USE_DRI2`) is not part of this model; the DRI3 path is.
- The capture's `select` timeout on the X connection is not modelled. The outcome of the wait (an event queued or arriving, a select failure, a time-out, or nothing pending) is a parameter.
- Screenshot.CaptureSpec: a queued event is not tied to the damage predicate's own filter. The event the wait yields is taken as given.
- Screenshot.ScreenshotModule.TakeSurface: the call with a null handle while no singleton exists is excluded by its precondition, because the source then dereferences a null handle.
- Screenshot.StepPort: the best size is an unsigned value stored into an `int`. Its wrap-around for values of 2^31 and above is not modelled.
- Screenshot.SurfaceDescriptor: stride × height is an unbounded product here. C `int` overflow is not modelled.
- Input.Atoi: atoi's undefined behaviour on overflow is not modelled; integers are unbounded.
- `ecore_x_init`/`ecore_x_shutdown` reference counting in the input generator is not modelled; only whether initialization succeeds is.
- Freeing memory (`free`, `XFree`, `tbm_bo_unref`, `XvFreeAdaptorInfo`) is left out; only the releases the teardown makes are listed.
- ScreenMode.SetWindowScreenMode: the result of `ecore_evas_aux_hint_add` and `ecore_evas_aux_hint_val_set` is ignored by the source, and the model takes both to succeed.
- The `screen` and `root` fields of the screenshot handle are stored but used only as server arguments; the model records them without giving them meaning.
- The test-case file `TC/testcase/utc_efl_util_input_generation.c` is a caller and is not modelled.
