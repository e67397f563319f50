/** The input generator: discovery of the virtual XTEST devices, opening and closing
    the two device slots of a generator handle, key-name resolution, and the parameter
    checks in front of key and touch synthesis.  The display server is abstract: the
    device list, the set of device ids it lets us open, the keysym tables and the
    result of each fake-event request are parameters. */
module Input {
  import opened Common

  const TOUCH_DEVICE_NAME: string := "Virtual core XTEST touch"
  const HWKEY_DEVICE_NAME: string := "Virtual core XTEST functionkeys"
  const KEYCODE_PREFIX: string := "Keycode-"

  // efl_util_input_device_type_e: NONE, TOUCHSCREEN = 1 << 0, KEYBOARD = 1 << 1, MAX = 1 << 10
  const DEVTYPE_NONE: int := 0
  const DEVTYPE_TOUCHSCREEN: int := 1
  const DEVTYPE_KEYBOARD: int := 2
  const DEVTYPE_ALL: int := 3
  const DEVTYPE_MAX: int := 1024

  // efl_util_input_touch_type_e
  const TOUCH_NONE: int := 0
  const TOUCH_BEGIN: int := 1
  const TOUCH_UPDATE: int := 2
  const TOUCH_END: int := 3
  const TOUCH_MAX: int := 10

  predicate RequestsTouch(mask: int) { HasBit(mask, 0) }
  predicate RequestsKeyboard(mask: int) { HasBit(mask, 1) }

  /** The `use` field of an XIDeviceInfo. */
  datatype DeviceUse = MasterPointer | MasterKeyboard | SlavePointer | SlaveKeyboard | FloatingSlave

  /** One entry of the XIQueryDevice answer, in server order. */
  datatype DeviceRecord = DeviceRecord(use: DeviceUse, id: int, name: string)

  /** An opened XDevice: the device id it was opened for. */
  datatype Device = Device(id: int)

  /** The two discovered device ids of a handle. */
  datatype Ids = Ids(key: int, touch: int)

  /** The device part of _input_generate_info: ids and opened slots. */
  datatype GenInfo = GenInfo(devidKey: int, devidTouch: int, keyDevice: Option<Device>, touchDevice: Option<Device>)

  predicate IsTouchCandidate(d: DeviceRecord)
  {
    d.use == SlavePointer && HasPrefix(d.name, TOUCH_DEVICE_NAME)
  }

  predicate IsKeyCandidate(d: DeviceRecord)
  {
    (d.use == SlaveKeyboard || d.use == FloatingSlave) && HasPrefix(d.name, HWKEY_DEVICE_NAME)
  }

  // ---------------------------------------------------------------------------------
  // _efl_util_input_find_all_request_devices

  /** 1 when every class requested in the mask already has a nonzero device id, else 0. */
  function FindAllRequestDevices(mask: int, ids: Ids): (r: int)
    ensures r == 0 || r == 1
    ensures r == 1 <==> (RequestsKeyboard(mask) ==> ids.key != 0) && (RequestsTouch(mask) ==> ids.touch != 0)
  {
    if RequestsKeyboard(mask) && ids.key == 0 then 0
    else if RequestsTouch(mask) && ids.touch == 0 then 0
    else 1
  }

  // ---------------------------------------------------------------------------------
  // _efl_util_input_get_device_id, as a specification on values

  /** One iteration of the discovery loop over device d: the ids afterwards, and whether
      d was taken (which is when the loop checks whether it may stop).  The touch id is
      only taken while it is still 0; the keyboard id has no such guard. */
  function Examine(d: DeviceRecord, mask: int, ids: Ids): (Ids, bool)
  {
    match d.use
    case SlavePointer =>
      if ids.touch == 0 && RequestsTouch(mask) && HasPrefix(d.name, TOUCH_DEVICE_NAME)
      then (ids.(touch := d.id), true) else (ids, false)
    case SlaveKeyboard =>
      if RequestsKeyboard(mask) && HasPrefix(d.name, HWKEY_DEVICE_NAME)
      then (ids.(key := d.id), true) else (ids, false)
    case FloatingSlave =>
      if RequestsKeyboard(mask) && HasPrefix(d.name, HWKEY_DEVICE_NAME)
      then (ids.(key := d.id), true) else (ids, false)
    case _ => (ids, false)
  }

  /** The ids after scanning devs in order, stopping right after a taken device that
      leaves every requested class found. */
  function Scan(devs: seq<DeviceRecord>, mask: int, ids: Ids): Ids
    decreases |devs|
  {
    if devs == [] then ids
    else
      var (next, taken) := Examine(devs[0], mask, ids);
      if taken && FindAllRequestDevices(mask, next) == 1 then next
      else Scan(devs[1..], mask, next)
  }

  predicate ValidDevType(mask: int)
  {
    DEVTYPE_NONE < mask < DEVTYPE_MAX
  }

  /** The ids _efl_util_input_get_device_id leaves in the handle. */
  function DiscoveredIds(devs: seq<DeviceRecord>, mask: int, ids: Ids): (r: Ids)
    ensures !ValidDevType(mask) ==> r == ids
  {
    if !ValidDevType(mask) then ids else Scan(devs, mask, ids)
  }

  /** The id of the first device in devs satisfying the touch test with a nonzero id, or 0. */
  function FirstTouchId(devs: seq<DeviceRecord>): (r: int)
    ensures r != 0 ==> exists i :: 0 <= i < |devs| && IsTouchCandidate(devs[i]) && devs[i].id == r
  {
    if devs == [] then 0
    else if IsTouchCandidate(devs[0]) && devs[0].id != 0 then devs[0].id
    else
      var r := FirstTouchId(devs[1..]);
      assert r != 0 ==> exists i :: 0 <= i < |devs[1..]| && IsTouchCandidate(devs[1..][i]) && devs[1..][i].id == r;
      r
  }

  /** Likewise for the keyboard test. */
  function FirstKeyId(devs: seq<DeviceRecord>): (r: int)
    ensures r != 0 ==> exists i :: 0 <= i < |devs| && IsKeyCandidate(devs[i]) && devs[i].id == r
  {
    if devs == [] then 0
    else if IsKeyCandidate(devs[0]) && devs[0].id != 0 then devs[0].id
    else
      var r := FirstKeyId(devs[1..]);
      assert r != 0 ==> exists i :: 0 <= i < |devs[1..]| && IsKeyCandidate(devs[1..][i]) && devs[1..][i].id == r;
      r
  }

  /** The id of the last device in devs satisfying the keyboard test, or dflt if none does. */
  function LastKeyId(devs: seq<DeviceRecord>, dflt: int): int
    decreases |devs|
  {
    if devs == [] then dflt
    else LastKeyId(devs[1..], if IsKeyCandidate(devs[0]) then devs[0].id else dflt)
  }

  /** A touch id that is already set survives the scan. */
  lemma {:induction false} TouchNeverOverwritten(devs: seq<DeviceRecord>, mask: int, ids: Ids)
    requires ids.touch != 0
    ensures Scan(devs, mask, ids).touch == ids.touch
  {
    if devs != [] {
      var (next, taken) := Examine(devs[0], mask, ids);
      if !(taken && FindAllRequestDevices(mask, next) == 1) {
        TouchNeverOverwritten(devs[1..], mask, next);
      }
    }
  }

  /** A class that is not requested keeps its id. */
  lemma {:induction false} UnrequestedIdsUnchanged(devs: seq<DeviceRecord>, mask: int, ids: Ids)
    ensures !RequestsTouch(mask) ==> Scan(devs, mask, ids).touch == ids.touch
    ensures !RequestsKeyboard(mask) ==> Scan(devs, mask, ids).key == ids.key
  {
    if devs != [] {
      var (next, taken) := Examine(devs[0], mask, ids);
      if !(taken && FindAllRequestDevices(mask, next) == 1) {
        UnrequestedIdsUnchanged(devs[1..], mask, next);
      }
    }
  }

  /** With TOUCHSCREEN requested and no touch id yet, the scan yields the id of the first
      slave pointer, in list order, whose name starts with the touch device name (ignoring
      devices whose id is 0, which leave the id unset), or 0 when there is none. */
  lemma {:induction false} TouchIsFirstCandidate(devs: seq<DeviceRecord>, mask: int, ids: Ids)
    requires RequestsTouch(mask) && ids.touch == 0
    ensures Scan(devs, mask, ids).touch == FirstTouchId(devs)
  {
    if devs != [] {
      var (next, taken) := Examine(devs[0], mask, ids);
      if IsTouchCandidate(devs[0]) && devs[0].id != 0 {
        assert next.touch == devs[0].id;
        if !(taken && FindAllRequestDevices(mask, next) == 1) {
          TouchNeverOverwritten(devs[1..], mask, next);
        }
      } else {
        assert next.touch == 0;
        assert FindAllRequestDevices(mask, next) == 0;
        TouchIsFirstCandidate(devs[1..], mask, next);
      }
    }
  }

  /** With only KEYBOARD requested and no keyboard id yet, the first keyboard candidate
      with a nonzero id wins and the scan stops there. */
  lemma {:induction false} KeyIsFirstCandidateWhenAlone(devs: seq<DeviceRecord>, mask: int, ids: Ids)
    requires RequestsKeyboard(mask) && !RequestsTouch(mask) && ids.key == 0
    ensures Scan(devs, mask, ids).key == FirstKeyId(devs)
    ensures FirstKeyId(devs) != 0 ==> FindAllRequestDevices(mask, Scan(devs, mask, ids)) == 1
  {
    if devs != [] {
      var (next, taken) := Examine(devs[0], mask, ids);
      if IsKeyCandidate(devs[0]) && devs[0].id != 0 {
        assert taken && FindAllRequestDevices(mask, next) == 1;
      } else {
        assert next.key == 0;
        KeyIsFirstCandidateWhenAlone(devs[1..], mask, next);
      }
    }
  }

  /** Whatever the mask, the keyboard id the scan ends with is the one it started with or
      the id of a device that passes the keyboard test. */
  lemma {:induction false} KeyFromCandidate(devs: seq<DeviceRecord>, mask: int, ids: Ids)
    ensures var k := Scan(devs, mask, ids).key;
            k == ids.key || exists i :: 0 <= i < |devs| && IsKeyCandidate(devs[i]) && devs[i].id == k
  {
    if devs != [] {
      var (next, taken) := Examine(devs[0], mask, ids);
      assert next.key == ids.key || (IsKeyCandidate(devs[0]) && next.key == devs[0].id);
      var k := Scan(devs, mask, ids).key;
      if !(taken && FindAllRequestDevices(mask, next) == 1) {
        KeyFromCandidate(devs[1..], mask, next);
        if k != next.key {
          var i :| 0 <= i < |devs[1..]| && IsKeyCandidate(devs[1..][i]) && devs[1..][i].id == k;
          assert devs[i + 1] == devs[1..][i];
        }
      }
      assert k == next.key || exists i :: 0 <= i < |devs| && IsKeyCandidate(devs[i]) && devs[i].id == k;
    }
  }

  /** With both classes requested and no touch device to be found, the scan never stops
      early, so every later keyboard candidate overwrites the keyboard id: the last one wins. */
  lemma {:induction false} KeyOverwrittenWhileTouchMissing(devs: seq<DeviceRecord>, mask: int, ids: Ids)
    requires RequestsKeyboard(mask) && RequestsTouch(mask) && ids.touch == 0
    requires FirstTouchId(devs) == 0
    ensures Scan(devs, mask, ids).key == LastKeyId(devs, ids.key)
  {
    if devs != [] {
      var (next, taken) := Examine(devs[0], mask, ids);
      assert next.touch == 0;
      assert FindAllRequestDevices(mask, next) == 0;
      assert next.key == if IsKeyCandidate(devs[0]) then devs[0].id else ids.key;
      KeyOverwrittenWhileTouchMissing(devs[1..], mask, next);
    }
  }

  /** The scan stops as soon as all requested classes are found: when they were not all found
      at the start but are at the end, devices appended after the list are never examined. */
  lemma {:induction false} ScanStopsOnceAllFound(devs: seq<DeviceRecord>, more: seq<DeviceRecord>, mask: int, ids: Ids)
    requires FindAllRequestDevices(mask, ids) == 0
    requires FindAllRequestDevices(mask, Scan(devs, mask, ids)) == 1
    ensures Scan(devs + more, mask, ids) == Scan(devs, mask, ids)
  {
    assert devs != [];
    assert (devs + more)[0] == devs[0];
    assert (devs + more)[1..] == devs[1..] + more;
    var (next, taken) := Examine(devs[0], mask, ids);
    if !(taken && FindAllRequestDevices(mask, next) == 1) {
      assert FindAllRequestDevices(mask, next) == 0;
      ScanStopsOnceAllFound(devs[1..], more, mask, next);
    }
  }

  // ---------------------------------------------------------------------------------
  // _efl_util_input_open_generate_device and _efl_util_input_close_generate_device on values

  /** Opening the requested slots for the ids in s, where `openable` is the set of ids the
      server's XOpenDevice accepts.  The keyboard is opened first; its failure skips the touch
      open.  A mask with neither bit set opens nothing and yields NO_SUCH_DEVICE. */
  function OpenDevices(s: GenInfo, mask: int, openable: set<int>): (r: (GenInfo, ErrorCode))
    ensures r.1 == None || r.1 == NoSuchDevice
    ensures r.1 == None <==>
      (RequestsKeyboard(mask) || RequestsTouch(mask)) &&
      (RequestsKeyboard(mask) ==> s.devidKey in openable) &&
      (RequestsTouch(mask) ==> s.devidTouch in openable)
    ensures r.0.devidKey == s.devidKey && r.0.devidTouch == s.devidTouch
    ensures r.0.keyDevice == if RequestsKeyboard(mask) && s.devidKey in openable then Some(Device(s.devidKey)) else s.keyDevice
    ensures r.0.touchDevice ==
      if RequestsTouch(mask) && s.devidTouch in openable && !(RequestsKeyboard(mask) && s.devidKey !in openable)
      then Some(Device(s.devidTouch)) else s.touchDevice
  {
    if RequestsKeyboard(mask) && s.devidKey !in openable then (s, NoSuchDevice)
    else
      var afterKey := if RequestsKeyboard(mask) then s.(keyDevice := Some(Device(s.devidKey))) else s;
      if RequestsTouch(mask) then
        if s.devidTouch !in openable then (afterKey, NoSuchDevice)
        else (afterKey.(touchDevice := Some(Device(s.devidTouch))), None)
      else (afterKey, if RequestsKeyboard(mask) then None else NoSuchDevice)
  }

  /** The devices a GenInfo holds open, in slot order (keyboard first). */
  function OpenedDevices(s: GenInfo): seq<Device>
  {
    (if s.keyDevice.Some? then [s.keyDevice.value] else []) + (if s.touchDevice.Some? then [s.touchDevice.value] else [])
  }

  /** Closing: each opened slot is closed (the second component lists the XCloseDevice calls
      in order), emptied and its id zeroed; an unopened slot and its id are left alone. */
  function CloseDevices(s: GenInfo): (r: (GenInfo, seq<Device>))
    ensures r.0.keyDevice == Nothing && r.0.touchDevice == Nothing
    ensures r.0.devidKey == if s.keyDevice.Some? then 0 else s.devidKey
    ensures r.0.devidTouch == if s.touchDevice.Some? then 0 else s.devidTouch
    ensures r.1 == OpenedDevices(s)
  {
    var k := if s.keyDevice.Some? then s.(keyDevice := Nothing, devidKey := 0) else s;
    var t := if s.touchDevice.Some? then k.(touchDevice := Nothing, devidTouch := 0) else k;
    (t, OpenedDevices(s))
  }

  /** Closing twice leaves the handle as closing once does, and the second close closes nothing. */
  lemma CloseIdempotent(s: GenInfo)
    ensures CloseDevices(CloseDevices(s).0).0 == CloseDevices(s).0
    ensures CloseDevices(CloseDevices(s).0).1 == []
  {
  }

  // ---------------------------------------------------------------------------------
  // The generator handle

  /** struct _efl_util_inputgen_h: the display and the two device slots. */
  class InputGenerator {
    var dpy: int
    var devidKey: int
    var devidTouch: int
    var keyDevice: Option<Device>
    var touchDevice: Option<Device>

    function Info(): GenInfo
      reads this
    {
      GenInfo(devidKey, devidTouch, keyDevice, touchDevice)
    }

    /** calloc followed by the explicit resets of _efl_util_input_initialize_input_generator. */
    constructor (display: int)
      ensures dpy == display
      ensures Info() == GenInfo(0, 0, Nothing, Nothing)
    {
      dpy := display;
      devidKey, devidTouch := 0, 0;
      keyDevice, touchDevice := Nothing, Nothing;
    }

    /** _efl_util_input_get_device_id: scan the server's device list and record the ids. */
    method GetDeviceId(devs: seq<DeviceRecord>, devType: int)
      modifies this`devidKey, this`devidTouch
      ensures Ids(devidKey, devidTouch) == DiscoveredIds(devs, devType, old(Ids(devidKey, devidTouch)))
    {
      if devType <= DEVTYPE_NONE || DEVTYPE_MAX <= devType {
        return;
      }
      var i := 0;
      while i < |devs|
        invariant 0 <= i <= |devs|
        invariant Scan(devs[i..], devType, Ids(devidKey, devidTouch)) == Scan(devs, devType, old(Ids(devidKey, devidTouch)))
      {
        var dev := devs[i];
        assert devs[i..][0] == dev && devs[i..][1..] == devs[i + 1..];
        match dev.use {
          case SlavePointer =>
            if devidTouch == 0 && RequestsTouch(devType) && HasPrefix(dev.name, TOUCH_DEVICE_NAME) {
              devidTouch := dev.id;
              if FindAllRequestDevices(devType, Ids(devidKey, devidTouch)) == 1 {
                return;
              }
            }
          case SlaveKeyboard =>
            if RequestsKeyboard(devType) && HasPrefix(dev.name, HWKEY_DEVICE_NAME) {
              devidKey := dev.id;
              if FindAllRequestDevices(devType, Ids(devidKey, devidTouch)) == 1 {
                return;
              }
            }
          case FloatingSlave =>
            if RequestsKeyboard(devType) && HasPrefix(dev.name, HWKEY_DEVICE_NAME) {
              devidKey := dev.id;
              if FindAllRequestDevices(devType, Ids(devidKey, devidTouch)) == 1 {
                return;
              }
            }
          case _ =>
        }
        i := i + 1;
      }
    }

    /** _efl_util_input_open_generate_device. */
    method OpenGenerateDevice(devType: int, openable: set<int>) returns (res: ErrorCode)
      modifies this`keyDevice, this`touchDevice
      ensures (Info(), res) == OpenDevices(old(Info()), devType, openable)
    {
      res := NoSuchDevice;
      if RequestsKeyboard(devType) {
        if devidKey !in openable {
          return NoSuchDevice;
        }
        keyDevice := Some(Device(devidKey));
        res := None;
      }
      if RequestsTouch(devType) {
        if devidTouch !in openable {
          return NoSuchDevice;
        }
        touchDevice := Some(Device(devidTouch));
        res := None;
      }
    }

    /** _efl_util_input_close_generate_device; `closed` lists the XCloseDevice calls. */
    method CloseGenerateDevice() returns (closed: seq<Device>)
      modifies this
      ensures dpy == old(dpy)
      ensures Info() == CloseDevices(old(Info())).0
      ensures closed == CloseDevices(old(Info())).1
    {
      closed := [];
      if keyDevice.Some? {
        closed := [keyDevice.value];
        keyDevice := Nothing;
        devidKey := 0;
      }
      if touchDevice.Some? {
        closed := closed + [touchDevice.value];
        touchDevice := Nothing;
        devidTouch := 0;
      }
    }
  }

  // ---------------------------------------------------------------------------------
  // efl_util_input_initialize_generator / efl_util_input_deinitialize_generator

  /** What the display server answers during initialization. */
  datatype InputServer = InputServer(
    ecoreInitOk: bool,          // ecore_x_init
    display: int,               // ecore_x_display_get, 0 for none
    xinputPresent: bool,        // XQueryExtension("XInputExtension")
    xi2VersionOk: bool,         // XIQueryVersion did not answer BadRequest
    devices: seq<DeviceRecord>, // XIQueryDevice(XIAllDevices)
    openable: set<int>)         // ids for which XOpenDevice succeeds

  predicate SystemReady(server: InputServer)
  {
    server.ecoreInitOk && server.display != 0 && server.xinputPresent && server.xi2VersionOk
  }

  /** The handle contents and result code a successful allocation and system bring-up
      lead to: discovery from zeroed ids, then opening. */
  function InitializeOutcome(devType: int, server: InputServer): (GenInfo, ErrorCode)
  {
    var ids := DiscoveredIds(server.devices, devType, Ids(0, 0));
    OpenDevices(GenInfo(ids.key, ids.touch, Nothing, Nothing), devType, server.openable)
  }

  /** efl_util_input_initialize_generator.  Returns the handle (null on failure), the value
      stored in the last-result slot, and the devices a failed open leaves open: the source
      frees the handle without closing a keyboard it has already opened. */
  method InitializeGenerator(devType: int, allocOk: bool, server: InputServer)
    returns (h: InputGenerator?, last: ErrorCode, leaked: seq<Device>)
    ensures h != null <==> last == None
    ensures !allocOk ==> last == OutOfMemory && leaked == []
    ensures allocOk && !SystemReady(server) ==> last == InvalidOperation && leaked == []
    ensures allocOk && SystemReady(server) ==>
      last == InitializeOutcome(devType, server).1 &&
      (h != null ==> fresh(h) && h.dpy == server.display && h.Info() == InitializeOutcome(devType, server).0 && leaked == []) &&
      (h == null ==> leaked == OpenedDevices(InitializeOutcome(devType, server).0))
  {
    leaked := [];
    if !allocOk {
      return null, OutOfMemory, [];
    }
    if !SystemReady(server) {
      return null, InvalidOperation, [];
    }
    var g := new InputGenerator(server.display);
    g.GetDeviceId(server.devices, devType);
    var res := g.OpenGenerateDevice(devType, server.openable);
    if res != None {
      return null, res, OpenedDevices(g.Info());
    }
    h, last := g, res;
  }

  /** Initialization succeeds exactly when allocation and bring-up succeed and every requested
      class has a discovered id the server lets us open; in particular a mask with neither
      class bit (NONE among them) always fails with NO_SUCH_DEVICE. */
  lemma InitializeSucceedsIff(devType: int, server: InputServer)
    ensures InitializeOutcome(devType, server).1 == None <==>
      (RequestsKeyboard(devType) || RequestsTouch(devType)) &&
      (RequestsKeyboard(devType) ==> DiscoveredIds(server.devices, devType, Ids(0, 0)).key in server.openable) &&
      (RequestsTouch(devType) ==> DiscoveredIds(server.devices, devType, Ids(0, 0)).touch in server.openable)
    ensures !RequestsKeyboard(devType) && !RequestsTouch(devType) ==> InitializeOutcome(devType, server).1 == NoSuchDevice
  {
  }

  /** A KEYBOARD-only request against a server without any keyboard candidate fails with
      NO_SUCH_DEVICE, provided the server refuses to open device id 0. */
  lemma {:induction false} KeyboardOnlyWithoutKeyboardFails(server: InputServer)
    requires forall i :: 0 <= i < |server.devices| ==> !IsKeyCandidate(server.devices[i])
    requires 0 !in server.openable
    ensures InitializeOutcome(DEVTYPE_KEYBOARD, server).1 == NoSuchDevice
  {
    assert RequestsKeyboard(DEVTYPE_KEYBOARD) && !RequestsTouch(DEVTYPE_KEYBOARD);
    KeyIsFirstCandidateWhenAlone(server.devices, DEVTYPE_KEYBOARD, Ids(0, 0));
    assert FirstKeyId(server.devices) == 0;
  }

  /** efl_util_input_deinitialize_generator; `closed` lists the devices closed. */
  method DeinitializeGenerator(h: InputGenerator?) returns (r: ErrorCode, closed: seq<Device>)
    modifies h
    ensures h == null ==> r == InvalidParameter && closed == []
    ensures h != null ==> r == None && h.Info() == CloseDevices(old(h.Info())).0 && closed == CloseDevices(old(h.Info())).1
  {
    if h == null {
      return InvalidParameter, [];
    }
    closed := h.CloseGenerateDevice();
    r := None;
  }

  // ---------------------------------------------------------------------------------
  // _efl_util_input_keyname_to_keycode

  predicate IsDigit(c: char) { '0' <= c <= '9' }

  /** The characters C's isspace accepts in the C locale. */
  predicate IsSpace(c: char) { c == ' ' || c == '\t' || c == '\n' || c == '\U{0B}' || c == '\U{0C}' || c == '\r' }

  function SkipSpace(s: string): (r: string)
    ensures |r| <= |s| && r == s[|s| - |r|..]
    ensures r != [] ==> !IsSpace(r[0])
  {
    if s != [] && IsSpace(s[0]) then SkipSpace(s[1..]) else s
  }

  /** The longest prefix of s made of decimal digits. */
  function LeadingDigits(s: string): (r: string)
    ensures |r| <= |s| && r == s[..|r|]
    ensures forall i :: 0 <= i < |r| ==> IsDigit(r[i])
    ensures |r| < |s| ==> !IsDigit(s[|r|])
  {
    if s == [] || !IsDigit(s[0]) then [] else [s[0]] + LeadingDigits(s[1..])
  }

  /** The value of a string of decimal digits. */
  function DigitsValue(ds: string): (r: int)
    requires forall i :: 0 <= i < |ds| ==> IsDigit(ds[i])
  {
    if ds == [] then 0 else DigitsValue(ds[..|ds| - 1]) * 10 + (ds[|ds| - 1] as int - '0' as int)
  }

  /** C's atoi, without its undefined behaviour on overflow (integers here are unbounded):
      optional white space, an optional sign, then as many digits as follow. */
  function Atoi(s: string): int
  {
    var t := SkipSpace(s);
    if t != [] && t[0] == '-' then -DigitsValue(LeadingDigits(t[1..]))
    else if t != [] && t[0] == '+' then DigitsValue(LeadingDigits(t[1..]))
    else DigitsValue(LeadingDigits(t))
  }

  /** The decimal rendering of n, the partner of Atoi. */
  function DecimalString(n: nat): (r: string)
    ensures r != [] && forall i :: 0 <= i < |r| ==> IsDigit(r[i])
  {
    var d := [((n % 10) + '0' as int) as char];
    if n < 10 then d else DecimalString(n / 10) + d
  }

  lemma {:induction false} LeadingDigitsOfDigits(s: string)
    requires forall i :: 0 <= i < |s| ==> IsDigit(s[i])
    ensures LeadingDigits(s) == s
  {
    if s != [] {
      LeadingDigitsOfDigits(s[1..]);
    }
  }

  lemma {:induction false} DecimalStringValue(n: nat)
    ensures DigitsValue(DecimalString(n)) == n
  {
    var d := [((n % 10) + '0' as int) as char];
    if n >= 10 {
      var r := DecimalString(n);
      assert r == DecimalString(n / 10) + d;
      assert r[..|r| - 1] == DecimalString(n / 10);
      DecimalStringValue(n / 10);
    }
  }

  /** atoi of a digit string is its value. */
  lemma AtoiOfDigits(s: string)
    requires s != [] && forall i :: 0 <= i < |s| ==> IsDigit(s[i])
    ensures Atoi(s) == DigitsValue(s)
  {
    LeadingDigitsOfDigits(s);
    assert IsDigit(s[0]);
    assert !IsSpace(s[0]);
    assert SkipSpace(s) == s;
    assert s[0] != '-' && s[0] != '+';
    assert Atoi(s) == DigitsValue(LeadingDigits(s));
  }

  /** atoi of a minus sign followed by a digit string is the negated value. */
  lemma AtoiOfNegatedDigits(s: string)
    requires s != [] && forall i :: 0 <= i < |s| ==> IsDigit(s[i])
    ensures Atoi("-" + s) == -DigitsValue(s)
  {
    LeadingDigitsOfDigits(s);
    var m := "-" + s;
    assert m[0] == '-';
    assert !IsSpace(m[0]);
    assert SkipSpace(m) == m;
    assert m[1..] == s;
    assert Atoi(m) == -DigitsValue(LeadingDigits(s));
  }

  /** atoi reads back the decimal rendering of any natural number, with or without a minus sign. */
  lemma AtoiRoundTrip(n: nat)
    ensures Atoi(DecimalString(n)) == n
    ensures Atoi("-" + DecimalString(n)) == -(n as int)
  {
    DecimalStringValue(n);
    AtoiOfDigits(DecimalString(n));
    AtoiOfNegatedDigits(DecimalString(n));
  }

  /** XStringToKeysym over a symbol table; NoSymbol (0) for a name it does not hold. */
  function StringToKeysym(name: string, keysyms: map<string, int>): int
  {
    if name in keysyms then keysyms[name] else 0
  }

  /** XKeysymToKeycode over the server's keyboard mapping; 0 for an unmapped keysym. */
  function KeysymToKeycode(keysym: int, keycodes: map<int, int>): int
  {
    if keysym in keycodes then keycodes[keysym] else 0
  }

  /** _efl_util_input_keyname_to_keycode. */
  function KeynameToKeycode(name: string, keysyms: map<string, int>, keycodes: map<int, int>): (r: int)
    ensures HasPrefix(name, KEYCODE_PREFIX) ==> r == Atoi(name[|KEYCODE_PREFIX|..])
    ensures !HasPrefix(name, KEYCODE_PREFIX) && StringToKeysym(name, keysyms) == 0 ==> r == 0
    ensures !HasPrefix(name, KEYCODE_PREFIX) && StringToKeysym(name, keysyms) != 0 ==>
      r == KeysymToKeycode(StringToKeysym(name, keysyms), keycodes)
  {
    if HasPrefix(name, KEYCODE_PREFIX) then Atoi(name[8..])
    else
      var keysym := StringToKeysym(name, keysyms);
      if keysym == 0 then 0 else KeysymToKeycode(keysym, keycodes)
  }

  /** "Keycode-N" resolves to N whatever the symbol tables say. */
  lemma KeycodeNameRoundTrip(n: nat, keysyms: map<string, int>, keycodes: map<int, int>)
    ensures KeynameToKeycode(KEYCODE_PREFIX + DecimalString(n), keysyms, keycodes) == n
  {
    var name := KEYCODE_PREFIX + DecimalString(n);
    assert name[..8] == KEYCODE_PREFIX;
    assert name[8..] == DecimalString(n);
    AtoiRoundTrip(n);
  }

  // ---------------------------------------------------------------------------------
  // efl_util_input_generate_key / efl_util_input_generate_touch

  /** An XTestFakeDeviceKeyEvent request. */
  datatype KeyEvent = KeyEvent(device: Option<Device>, keycode: int, press: bool)

  /** The result code, the event sent (if any), and whether the display was synced. */
  datatype KeyOutcome = KeyOutcome(code: ErrorCode, event: Option<KeyEvent>, synced: bool)

  /** efl_util_input_generate_key: `fakeResult` is what the server's fake-key request returns. */
  function GenerateKey(h: InputGenerator?, keyName: string, pressed: int,
                       keysyms: map<string, int>, keycodes: map<int, int>, fakeResult: int): (r: KeyOutcome)
    reads h
    ensures r.event.Some? <==> h != null && KeynameToKeycode(keyName, keysyms, keycodes) > 0
    ensures r.synced <==> r.event.Some?
    ensures r.event.Nothing? ==> r.code == InvalidParameter
    ensures r.event.Some? ==>
      r.event.value == KeyEvent(h.keyDevice, KeynameToKeycode(keyName, keysyms, keycodes), pressed == 1) &&
      (r.code == None <==> fakeResult == 1) &&
      (r.code != None ==> r.code == PermissionDenied)
  {
    if h == null then KeyOutcome(InvalidParameter, Nothing, false)
    else
      var keycode := KeynameToKeycode(keyName, keysyms, keycodes);
      if 0 >= keycode then KeyOutcome(InvalidParameter, Nothing, false)
      else
        var ev := KeyEvent(h.keyDevice, keycode, pressed == 1);
        KeyOutcome(if fakeResult == 1 then None else PermissionDenied, Some(ev), true)
  }

  /** The three XTest touch requests. */
  datatype TouchKind = TouchPress | TouchMove | TouchRelease

  /** A touch request with its two-element axis payload. */
  datatype TouchEvent = TouchEvent(kind: TouchKind, device: Option<Device>, touchId: int, axes: seq<int>)

  datatype TouchOutcome = TouchOutcome(code: ErrorCode, event: Option<TouchEvent>, synced: bool)

  predicate ValidTouchRequest(idx: int, touchType: int, x: int, y: int)
  {
    idx >= 0 && x >= 0 && y >= 0 && TOUCH_NONE < touchType < TOUCH_MAX
  }

  /** The touch request a touch type selects, if the dispatch switch names it. */
  function TouchKindOf(touchType: int): (r: Option<TouchKind>)
    ensures r == Some(TouchPress) <==> touchType == TOUCH_BEGIN
    ensures r == Some(TouchMove) <==> touchType == TOUCH_UPDATE
    ensures r == Some(TouchRelease) <==> touchType == TOUCH_END
  {
    if touchType == TOUCH_BEGIN then Some(TouchPress)
    else if touchType == TOUCH_UPDATE then Some(TouchMove)
    else if touchType == TOUCH_END then Some(TouchRelease)
    else Nothing
  }

  /** efl_util_input_generate_touch: `fakeResult` is what the server's touch request returns.
      A type inside (NONE, MAX) that the switch does not name sends nothing but still syncs
      and reports PERMISSION_DENIED. */
  function GenerateTouch(h: InputGenerator?, idx: int, touchType: int, x: int, y: int, fakeResult: int): (r: TouchOutcome)
    reads h
    ensures r.synced <==> h != null && ValidTouchRequest(idx, touchType, x, y)
    ensures !r.synced ==> r.code == InvalidParameter && r.event.Nothing?
    ensures r.event.Some? <==> r.synced && TouchKindOf(touchType).Some?
    ensures r.event.Some? ==>
      r.event.value == TouchEvent(TouchKindOf(touchType).value, h.touchDevice, idx, [x, y])
    ensures r.synced ==> (r.code == None <==> r.event.Some? && fakeResult == 1)
    ensures r.synced && r.code != None ==> r.code == PermissionDenied
  {
    if h == null then TouchOutcome(InvalidParameter, Nothing, false)
    else if idx < 0 || x < 0 || y < 0 then TouchOutcome(InvalidParameter, Nothing, false)
    else if touchType <= TOUCH_NONE || touchType >= TOUCH_MAX then TouchOutcome(InvalidParameter, Nothing, false)
    else
      match TouchKindOf(touchType)
      case Nothing => TouchOutcome(PermissionDenied, Nothing, true)
      case Some(kind) =>
        TouchOutcome(if fakeResult == 1 then None else PermissionDenied, Some(TouchEvent(kind, h.touchDevice, idx, [x, y])), true)
  }

  /** BEGIN and END on the same contact are both accepted by the parameter checks and reach
      the server as a press and a release at the same point. */
  lemma BeginThenEndAccepted(h: InputGenerator, idx: nat, x: nat, y: nat)
    ensures GenerateTouch(h, idx, TOUCH_BEGIN, x, y, 1).code == None
    ensures GenerateTouch(h, idx, TOUCH_END, x, y, 1).code == None
    ensures GenerateTouch(h, idx, TOUCH_BEGIN, x, y, 1).event.value.kind == TouchPress
    ensures GenerateTouch(h, idx, TOUCH_END, x, y, 1).event.value.kind == TouchRelease
  {
  }
}
