/** The screenshot capturer: a process-wide singleton handle that negotiates an Xv capture
    port, a pixmap with damage tracking and a DRM buffer manager, captures the root window
    into the pixmap and exports it as a surface.  Every server and library answer is a
    parameter (an oracle); the model keeps the control flow, the stored fields, the error
    flags the X error handler drives, and the order of releases. */
module Screenshot {
  import opened Common

  // ---------------------------------------------------------------------------------
  // FOURCC

  /** `(unsigned)x & 0xff` for a C char value x: its low byte in two's complement. */
  function LowByte(x: int): bv8
  {
    (x % 256) as bv8
  }

  /** FOURCC(a,b,c,d) on the masked bytes: a in bits 0-7, b in 8-15, c in 16-23, d in 24-31. */
  function Fourcc(a: bv8, b: bv8, c: bv8, d: bv8): (r: bv32)
    ensures (r & 0xff) as bv8 == a
    ensures ((r >> 8) & 0xff) as bv8 == b
    ensures ((r >> 16) & 0xff) as bv8 == c
    ensures (r >> 24) as bv8 == d
  {
    ((d as bv32) << 24) | ((c as bv32) << 16) | ((b as bv32) << 8) | (a as bv32)
  }

  /** The four bytes of a fourcc code, lowest first. */
  function FourccBytes(r: bv32): (bv8, bv8, bv8, bv8)
  {
    ((r & 0xff) as bv8, ((r >> 8) & 0xff) as bv8, ((r >> 16) & 0xff) as bv8, (r >> 24) as bv8)
  }

  /** Each byte given to FOURCC is recovered from the code. */
  lemma FourccRoundTrip(a: bv8, b: bv8, c: bv8, d: bv8)
    ensures FourccBytes(Fourcc(a, b, c, d)) == (a, b, c, d)
  {
  }

  /** Packing the bytes of any code gives that code back. */
  lemma FourccOfBytes(r: bv32)
    ensures Fourcc(FourccBytes(r).0, FourccBytes(r).1, FourccBytes(r).2, FourccBytes(r).3) == r
  {
  }

  const FOURCC_RGB32: bv32 := Fourcc(LowByte('R' as int), LowByte('G' as int), LowByte('B' as int), LowByte('4' as int))

  lemma Rgb32Value()
    ensures FOURCC_RGB32 == 0x3442_4752
  {
    assert LowByte('R' as int) == 0x52 && LowByte('G' as int) == 0x47;
    assert LowByte('B' as int) == 0x42 && LowByte('4' as int) == 0x34;
  }

  // ---------------------------------------------------------------------------------
  // X and Xv constants

  const BAD_ACCESS: int := 10       // X protocol error BadAccess
  const XDAMAGE_NOTIFY: int := 0    // XDamageNotify event offset
  const XV_INPUT_MASK: bv8 := 0x01  // XvInputMask
  const XV_STILL_MASK: bv8 := 0x08  // XvStillMask

  /** `(int)id` for an unsigned int id. */
  function CInt(id: bv32): int
  {
    if id < 0x8000_0000 then id as int else id as int - 0x1_0000_0000
  }

  // ---------------------------------------------------------------------------------
  // _efl_util_screenshot_get_port

  /** One XvAdaptorInfo, with the format ids XvListImageFormats reports for its base port. */
  datatype Adaptor = Adaptor(kind: bv8, baseId: nat, numPorts: nat, formats: seq<int>)

  /** What the Xv extension answers: whether the queries succeed, the adaptor list (Nothing
      for a null list) and the ports XvGrabPort succeeds on. */
  datatype XvServer = XvServer(extensionOk: bool, queryOk: bool, adaptors: Option<seq<Adaptor>>, grabbable: set<int>)

  /** An adaptor that has both the Input and Still bits and lists the format. */
  predicate Capable(a: Adaptor, id: bv32)
  {
    a.kind & XV_INPUT_MASK != 0 && a.kind & XV_STILL_MASK != 0 && CInt(id) in a.formats
  }

  predicate InPorts(q: int, a: Adaptor)
  {
    a.baseId <= q < a.baseId + a.numPorts
  }

  predicate HasGrabbablePort(a: Adaptor, grabbable: set<int>)
  {
    exists q :: InPorts(q, a) && q in grabbable
  }

  /** The first port in [lo, hi) that can be grabbed. */
  function FirstGrabbable(lo: int, hi: int, grabbable: set<int>): (r: Option<int>)
    decreases hi - lo
    ensures r.Nothing? <==> forall q :: lo <= q < hi ==> q !in grabbable
    ensures r.Some? ==> lo <= r.value < hi && r.value in grabbable && forall q :: lo <= q < r.value ==> q !in grabbable
  {
    if lo >= hi then Nothing
    else if lo in grabbable then Some(lo)
    else FirstGrabbable(lo + 1, hi, grabbable)
  }

  /** The adaptor loop: the first grabbable port of the first capable adaptor that has one. */
  function PortSearch(adaptors: seq<Adaptor>, id: bv32, grabbable: set<int>): int
    decreases |adaptors|
  {
    if adaptors == [] then -1
    else
      var a := adaptors[0];
      if !Capable(a, id) then PortSearch(adaptors[1..], id, grabbable)
      else match FirstGrabbable(a.baseId, a.baseId + a.numPorts, grabbable)
        case Some(p) => p
        case Nothing => PortSearch(adaptors[1..], id, grabbable)
  }

  function GetPortSpec(xv: XvServer, id: bv32): int
  {
    if !xv.extensionOk || !xv.queryOk || xv.adaptors.Nothing? then -1
    else PortSearch(xv.adaptors.value, id, xv.grabbable)
  }

  /** The port search returns -1 exactly when no capable adaptor has a grabbable port, and
      otherwise the lowest grabbable port of the first capable adaptor that has one. */
  lemma {:induction false} PortSearchChoosesFirst(adaptors: seq<Adaptor>, id: bv32, grabbable: set<int>)
    ensures PortSearch(adaptors, id, grabbable) == -1 <==>
      forall i :: 0 <= i < |adaptors| && Capable(adaptors[i], id) ==> !HasGrabbablePort(adaptors[i], grabbable)
    ensures PortSearch(adaptors, id, grabbable) != -1 ==>
      exists i :: 0 <= i < |adaptors| && Capable(adaptors[i], id) &&
        (var p := PortSearch(adaptors, id, grabbable);
         InPorts(p, adaptors[i]) && p in grabbable &&
         (forall q :: adaptors[i].baseId <= q < p ==> q !in grabbable) &&
         (forall j :: 0 <= j < i && Capable(adaptors[j], id) ==> !HasGrabbablePort(adaptors[j], grabbable)))
  {
    if adaptors != [] {
      var a := adaptors[0];
      var rest := adaptors[1..];
      PortSearchChoosesFirst(rest, id, grabbable);
      var first := FirstGrabbable(a.baseId, a.baseId + a.numPorts, grabbable);
      if Capable(a, id) && first.Some? {
        assert HasGrabbablePort(a, grabbable) by { assert InPorts(first.value, a); }
      } else {
        assert Capable(a, id) ==> !HasGrabbablePort(a, grabbable);
        var r := PortSearch(rest, id, grabbable);
        if r != -1 {
          var i :| 0 <= i < |rest| && Capable(rest[i], id) && InPorts(r, rest[i]) && r in grabbable &&
            (forall q :: rest[i].baseId <= q < r ==> q !in grabbable) &&
            (forall j :: 0 <= j < i && Capable(rest[j], id) ==> !HasGrabbablePort(rest[j], grabbable));
          assert adaptors[i + 1] == rest[i];
          forall j | 0 <= j < i + 1 && Capable(adaptors[j], id)
            ensures !HasGrabbablePort(adaptors[j], grabbable)
          {
            if j > 0 { assert adaptors[j] == rest[j - 1]; }
          }
        } else {
          forall i | 0 <= i < |adaptors| && Capable(adaptors[i], id)
            ensures !HasGrabbablePort(adaptors[i], grabbable)
          {
            if i > 0 { assert adaptors[i] == rest[i - 1]; }
          }
        }
      }
    }
  }

  /** _efl_util_screenshot_get_port: the nested adaptor, format and port loops. */
  method GetPort(id: bv32, xv: XvServer) returns (port: int)
    ensures port == GetPortSpec(xv, id)
  {
    if !xv.extensionOk || !xv.queryOk || xv.adaptors.Nothing? {
      return -1;
    }
    var ai := xv.adaptors.value;
    var i := 0;
    while i < |ai|
      invariant 0 <= i <= |ai|
      invariant PortSearch(ai[i..], id, xv.grabbable) == PortSearch(ai, id, xv.grabbable)
    {
      var a := ai[i];
      assert ai[i..][0] == a && ai[i..][1..] == ai[i + 1..];
      if a.kind & XV_INPUT_MASK == 0 || a.kind & XV_STILL_MASK == 0 {
        i := i + 1;
        continue;
      }
      var p := a.baseId;
      var supportFormat := false;
      var j := 0;
      while j < |a.formats|
        invariant 0 <= j <= |a.formats|
        invariant supportFormat <==> CInt(id) in a.formats[..j]
      {
        assert a.formats[..j + 1] == a.formats[..j] + [a.formats[j]];
        if a.formats[j] == CInt(id) {
          supportFormat := true;
        }
        j := j + 1;
      }
      assert a.formats[..j] == a.formats;
      if !supportFormat {
        i := i + 1;
        continue;
      }
      while p < a.baseId + a.numPorts
        invariant a.baseId <= p <= a.baseId + a.numPorts
        invariant FirstGrabbable(p, a.baseId + a.numPorts, xv.grabbable) == FirstGrabbable(a.baseId, a.baseId + a.numPorts, xv.grabbable)
      {
        if p in xv.grabbable {
          return p;
        }
        p := p + 1;
      }
      i := i + 1;
    }
    port := -1;
  }

  // ---------------------------------------------------------------------------------
  // The handle's fields, and deinitialize's release order

  /** The fields of struct _efl_util_screenshot_h that the code reads or writes; 0 is the
      null pointer / no resource, as calloc leaves it. */
  datatype ShotFields = ShotFields(
    width: int, height: int,
    dpy: int, internalDisplay: int, screen: int, root: int,
    pixmap: int, gc: int, port: int,
    damage: int, damageBase: int,
    drmFd: int, bufmgr: int)

  const CALLOC_FIELDS: ShotFields := ShotFields(0, 0, 0, 0, 0, 0, 0, 0, 0, 0, 0, 0, 0)

  /** The release calls efl_util_screenshot_deinitialize makes. */
  datatype Release =
    | DeinitBufmgr(bufmgr: int)
    | CloseFd(fd: int)
    | StopVideo(port: int, pixmap: int)
    | DestroyDamage(damage: int)
    | FreeGC(gc: int)
    | FreePixmap(pixmap: int)
    | UngrabPort(port: int)
    | CloseDisplay(dpy: int)

  /** The position of each release kind in the teardown sequence. */
  function Rank(x: Release): nat
  {
    match x
    case DeinitBufmgr(_) => 0
    case CloseFd(_) => 1
    case StopVideo(_, _) => 2
    case DestroyDamage(_) => 3
    case FreeGC(_) => 4
    case FreePixmap(_) => 5
    case UngrabPort(_) => 6
    case CloseDisplay(_) => 7
  }

  function Opt(c: bool, x: Release): seq<Release>
  {
    if c then [x] else []
  }

  /** Step k of the teardown: its guard and the release it makes. */
  function TeardownStep(f: ShotFields, k: nat): (bool, Release)
    requires k < 8
  {
    match k
    case 0 => (f.bufmgr != 0, DeinitBufmgr(f.bufmgr))
    case 1 => (f.drmFd >= 0, CloseFd(f.drmFd))
    case 2 => (f.port > 0 && f.pixmap > 0, StopVideo(f.port, f.pixmap))
    case 3 => (f.damage != 0, DestroyDamage(f.damage))
    case 4 => (f.gc != 0, FreeGC(f.gc))
    case 5 => (f.pixmap > 0, FreePixmap(f.pixmap))
    case 6 => (f.port > 0, UngrabPort(f.port))
    case _ => (f.internalDisplay == 1, CloseDisplay(f.dpy))
  }

  /** The releases of the first k teardown steps. */
  function TeardownPrefix(f: ShotFields, k: nat): seq<Release>
    requires k <= 8
  {
    if k == 0 then [] else TeardownPrefix(f, k - 1) + Opt(TeardownStep(f, k - 1).0, TeardownStep(f, k - 1).1)
  }

  function TeardownTrace(f: ShotFields): seq<Release>
  {
    TeardownPrefix(f, 8)
  }

  /** efl_util_screenshot_deinitialize on a handle with these fields: the result and the releases. */
  function Deinit(f: ShotFields): (ErrorCode, seq<Release>)
  {
    if f.dpy == 0 then (InvalidParameter, []) else (None, TeardownTrace(f))
  }

  predicate RankIncreasing(s: seq<Release>)
  {
    forall i, j :: 0 <= i < j < |s| ==> Rank(s[i]) < Rank(s[j])
  }

  predicate RanksBelow(s: seq<Release>, k: nat)
  {
    forall i :: 0 <= i < |s| ==> Rank(s[i]) < k
  }

  /** Whether teardown of a handle with fields f releases x: exactly the set resources,
      with the guards of the source (a descriptor counts as set when it is not negative). */
  predicate ReleasedBy(f: ShotFields, x: Release)
  {
    match x
    case DeinitBufmgr(b) => b == f.bufmgr && f.bufmgr != 0
    case CloseFd(d) => d == f.drmFd && f.drmFd >= 0
    case StopVideo(p, q) => p == f.port && q == f.pixmap && f.port > 0 && f.pixmap > 0
    case DestroyDamage(d) => d == f.damage && f.damage != 0
    case FreeGC(g) => g == f.gc && f.gc != 0
    case FreePixmap(q) => q == f.pixmap && f.pixmap > 0
    case UngrabPort(p) => p == f.port && f.port > 0
    case CloseDisplay(d) => d == f.dpy && f.internalDisplay == 1
  }

  /** Step k releases x exactly when x is a set resource of rank k. */
  lemma StepReleases(f: ShotFields, k: nat, x: Release)
    requires k < 8
    ensures Rank(TeardownStep(f, k).1) == k
    ensures (TeardownStep(f, k).0 && x == TeardownStep(f, k).1) <==> ReleasedBy(f, x) && Rank(x) == k
  {
  }

  lemma {:induction false} PrefixOrdered(f: ShotFields, k: nat)
    requires k <= 8
    ensures RankIncreasing(TeardownPrefix(f, k)) && RanksBelow(TeardownPrefix(f, k), k)
  {
    if k > 0 {
      PrefixOrdered(f, k - 1);
      StepReleases(f, k - 1, TeardownStep(f, k - 1).1);
    }
  }

  lemma {:induction false} PrefixMembers(f: ShotFields, k: nat, x: Release)
    requires k <= 8
    ensures x in TeardownPrefix(f, k) <==> ReleasedBy(f, x) && Rank(x) < k
  {
    if k > 0 {
      PrefixMembers(f, k - 1, x);
      StepReleases(f, k - 1, x);
    }
  }

  /** Deinitialize releases in the fixed order bufmgr, DRM descriptor, video stop, damage,
      GC, pixmap, port ungrab, display, so nothing is released twice; a handle without display
      releases nothing. */
  lemma DeinitReleasesInOrder(f: ShotFields)
    ensures f.dpy == 0 ==> Deinit(f) == (InvalidParameter, [])
    ensures f.dpy != 0 ==> Deinit(f).0 == None
    ensures RankIncreasing(Deinit(f).1)
    ensures forall i, j :: 0 <= i < j < |Deinit(f).1| ==> Deinit(f).1[i] != Deinit(f).1[j]
  {
    PrefixOrdered(f, 8);
  }

  /** Deinitialize releases exactly the resources that are set. */
  lemma DeinitReleasesOnlySetFields(f: ShotFields, x: Release)
    requires f.dpy != 0
    ensures x in Deinit(f).1 <==> ReleasedBy(f, x)
  {
    PrefixMembers(f, 8, x);
  }

  /** The display is closed only when the module opened it itself; the video is stopped only
      with both a port and a pixmap; the descriptor is closed whenever it is not negative. */
  lemma DeinitGuards(f: ShotFields)
    requires f.dpy != 0
    ensures CloseDisplay(f.dpy) in Deinit(f).1 <==> f.internalDisplay == 1
    ensures StopVideo(f.port, f.pixmap) in Deinit(f).1 <==> f.port > 0 && f.pixmap > 0
    ensures CloseFd(f.drmFd) in Deinit(f).1 <==> f.drmFd >= 0
  {
    DeinitReleasesOnlySetFields(f, CloseDisplay(f.dpy));
    DeinitReleasesOnlySetFields(f, StopVideo(f.port, f.pixmap));
    DeinitReleasesOnlySetFields(f, CloseFd(f.drmFd));
  }

  /** calloc leaves drm_fd at 0 and teardown's guard is `>= 0`, so tearing down a handle
      that got no further than its display closes descriptor 0, which it never opened. */
  lemma TeardownOfBareHandleClosesDescriptorZero(display: int)
    requires display != 0
    ensures Deinit(CALLOC_FIELDS.(dpy := display)) == (None, [CloseFd(0)])
  {
    var f := CALLOC_FIELDS.(dpy := display);
    assert TeardownPrefix(f, 1) == [];
    assert TeardownPrefix(f, 2) == [CloseFd(0)];
    assert TeardownPrefix(f, 3) == TeardownPrefix(f, 2);
    assert TeardownPrefix(f, 4) == TeardownPrefix(f, 3);
    assert TeardownPrefix(f, 5) == TeardownPrefix(f, 4);
    assert TeardownPrefix(f, 6) == TeardownPrefix(f, 5);
    assert TeardownPrefix(f, 7) == TeardownPrefix(f, 6);
    assert TeardownPrefix(f, 8) == TeardownPrefix(f, 7);
  }

  // ---------------------------------------------------------------------------------
  // The X error handler

  datatype ErrorFlags = ErrorFlags(caught: bool, permission: bool)

  /** _efl_util_screenshot_x_error_handle: only errors on the singleton's display count,
      and only BadAccess marks a permission failure. */
  function HandleXError(singletonDpy: Option<int>, dpy: int, errorCode: int, flags: ErrorFlags): (r: ErrorFlags)
    ensures singletonDpy != Some(dpy) ==> r == flags
    ensures singletonDpy == Some(dpy) ==> r.caught && (r.permission <==> flags.permission || errorCode == BAD_ACCESS)
  {
    if singletonDpy.Nothing? || dpy != singletonDpy.value then flags
    else ErrorFlags(true, flags.permission || errorCode == BAD_ACCESS)
  }

  // ---------------------------------------------------------------------------------
  // efl_util_screenshot_initialize: the acquisition sequence on values

  /** The server answers initialize consumes, in the order it asks. */
  datatype ScreenshotServer = ScreenshotServer(
    allocOk: bool,                // calloc
    ambientDisplay: int,          // ecore_x_display_get, 0 for none
    openedDisplay: int,           // XOpenDisplay(0), 0 on failure
    defaultScreen: int,
    rootWindow: int,
    xv: XvServer,
    attrError: Option<int>,       // error raised by XvSetPortAttribute, if any
    bestSize: (nat, nat),         // XvQueryBestSize
    pixmap: nat,                  // XCreatePixmap (an unsigned XID)
    gc: int,                      // XCreateGC
    damageBase: Option<int>,      // XDamageQueryExtension
    damage: int,                  // XDamageCreate
    drmFd: Option<int>,           // the DRI negotiation: the buffer-sharing descriptor, Nothing on failure
    bufmgr: int)                  // tbm_bufmgr_init

  predicate HasDisplay(env: ScreenshotServer)
  {
    env.ambientDisplay != 0 || env.openedDisplay != 0
  }

  /** Whether the acquisition gets as far as the best-size query. */
  predicate PortFound(env: ScreenshotServer)
  {
    HasDisplay(env) && GetPortSpec(env.xv, FOURCC_RGB32) > 0
  }

  predicate AcquisitionSucceeds(env: ScreenshotServer)
  {
    PortFound(env) && env.bestSize.0 > 0 && env.bestSize.1 > 0 &&
    env.pixmap != 0 && env.gc != 0 && env.damageBase.Some? && env.damage > 0 &&
    env.drmFd.Some? && env.drmFd.value >= 0 && env.bufmgr != 0
  }

  /** Display: the ambient display, else one opened for the module (marked internal). */
  function StepDisplay(f: ShotFields, env: ScreenshotServer): (r: (ShotFields, bool))
    ensures r.1 <==> HasDisplay(env)
    ensures r.1 ==> r.0.dpy != 0
    ensures r.0.drmFd == f.drmFd
    ensures r.0.internalDisplay == (if env.ambientDisplay == 0 && env.openedDisplay != 0 then 1 else f.internalDisplay)
  {
    if env.ambientDisplay != 0 then (f.(dpy := env.ambientDisplay), true)
    else if env.openedDisplay != 0 then (f.(dpy := env.openedDisplay, internalDisplay := 1), true)
    else (f.(dpy := env.openedDisplay), false)
  }

  /** Screen, root window, capture port (a port <= 0 fails) and the best capture size. */
  function StepPort(f: ShotFields, env: ScreenshotServer): (r: (ShotFields, bool))
    ensures r.1 <==> GetPortSpec(env.xv, FOURCC_RGB32) > 0 && env.bestSize.0 > 0 && env.bestSize.1 > 0
    ensures r.1 ==> r.0.width == env.bestSize.0 && r.0.height == env.bestSize.1 && r.0.port > 0
    ensures r.0.dpy == f.dpy && r.0.drmFd == f.drmFd && r.0.internalDisplay == f.internalDisplay
  {
    var g := f.(screen := env.defaultScreen, root := env.rootWindow, port := GetPortSpec(env.xv, FOURCC_RGB32));
    if g.port <= 0 || env.bestSize.0 == 0 || env.bestSize.1 == 0 then (g, false)
    else (g.(width := env.bestSize.0, height := env.bestSize.1), true)
  }

  /** Pixmap, GC, the damage extension and the damage object on the pixmap. */
  function StepDrawables(f: ShotFields, env: ScreenshotServer): (r: (ShotFields, bool))
    ensures r.1 <==> env.pixmap != 0 && env.gc != 0 && env.damageBase.Some? && env.damage > 0
    ensures r.1 ==> r.0.pixmap == env.pixmap && r.0.gc == env.gc && r.0.damage == env.damage
    ensures r.0.dpy == f.dpy && r.0.drmFd == f.drmFd && r.0.internalDisplay == f.internalDisplay
    ensures r.0.width == f.width && r.0.height == f.height && r.0.port == f.port
  {
    var g := f.(pixmap := env.pixmap);
    if g.pixmap == 0 then (g, false)
    else
      var h := g.(gc := env.gc);
      if h.gc == 0 || env.damageBase.Nothing? then (h, false)
      else
        var k := h.(damageBase := env.damageBase.value, damage := env.damage);
        (k, k.damage > 0)
  }

  /** The DRI negotiation's descriptor (kept only when it is not negative) and the buffer manager. */
  function StepBuffers(f: ShotFields, env: ScreenshotServer): (r: (ShotFields, bool))
    ensures r.1 <==> env.drmFd.Some? && env.drmFd.value >= 0 && env.bufmgr != 0
    ensures r.1 ==> r.0.drmFd == env.drmFd.value && r.0.bufmgr == env.bufmgr
    ensures !(env.drmFd.Some? && env.drmFd.value >= 0) ==> r.0.drmFd == f.drmFd
    ensures r.0.dpy == f.dpy && r.0.internalDisplay == f.internalDisplay
    ensures r.0.width == f.width && r.0.height == f.height && r.0.port == f.port
  {
    if env.drmFd.Nothing? || env.drmFd.value < 0 then (f, false)
    else
      var g := f.(drmFd := env.drmFd.value, bufmgr := env.bufmgr);
      (g, g.bufmgr != 0)
  }

  /** The fields of a freshly allocated handle after the acquisition steps, stopping at the
      first failing one, and whether all succeeded.  The requested `width` and `height` reach
      the server only through the best-size query, whose answer is `env.bestSize`. */
  function Acquire(width: int, height: int, env: ScreenshotServer): (r: (ShotFields, bool))
    ensures r.1 <==> AcquisitionSucceeds(env)
    ensures r.1 ==> r.0.width == env.bestSize.0 && r.0.height == env.bestSize.1 && r.0.dpy != 0 && r.0.port > 0
    ensures HasDisplay(env) ==> r.0.dpy != 0
    ensures r.0.internalDisplay == (if env.ambientDisplay == 0 && env.openedDisplay != 0 then 1 else 0)
    ensures !(env.drmFd.Some? && env.drmFd.value >= 0) ==> r.0.drmFd == 0
    ensures r.0.drmFd == 0 || (env.drmFd.Some? && env.drmFd.value >= 0 && r.0.drmFd == env.drmFd.value)
  {
    var (f1, ok1) := StepDisplay(CALLOC_FIELDS, env);
    if !ok1 then (f1, false)
    else
      var (f2, ok2) := StepPort(f1, env);
      if !ok2 then (f2, false)
      else
        var (f3, ok3) := StepDrawables(f2, env);
        if !ok3 then (f3, false)
        else StepBuffers(f3, env)
  }

  /** A failed fresh initialize whose DRI negotiation never produced a descriptor rolls back
      through deinitialize and closes descriptor 0, which it never opened. */
  lemma RollbackClosesDescriptorZero(width: int, height: int, env: ScreenshotServer)
    requires HasDisplay(env) && env.drmFd.Nothing?
    ensures !Acquire(width, height, env).1
    ensures CloseFd(0) in Deinit(Acquire(width, height, env).0).1
  {
    var f := Acquire(width, height, env).0;
    DeinitReleasesOnlySetFields(f, CloseFd(0));
  }

  /** Any failed fresh initialize on a display leaves drm_fd at calloc's 0 unless a
      non-negative descriptor was negotiated and stored, and in the first case its rollback
      closes descriptor 0: after an earlier stage fails, after a negative descriptor, or
      after a missing one. */
  lemma FailedAcquireRollbackDescriptor(width: int, height: int, env: ScreenshotServer)
    requires HasDisplay(env)
    ensures var r := Acquire(width, height, env);
            !r.1 ==> r.0.drmFd == 0 || (env.drmFd.Some? && env.drmFd.value >= 0 && r.0.drmFd == env.drmFd.value)
    ensures var r := Acquire(width, height, env);
            !r.1 && r.0.drmFd == 0 ==> CloseFd(0) in Deinit(r.0).1
  {
    var r := Acquire(width, height, env);
    if !r.1 && r.0.drmFd == 0 {
      DeinitReleasesOnlySetFields(r.0, CloseFd(0));
    }
  }

  // ---------------------------------------------------------------------------------
  // efl_util_screenshot_take_tbm_surface on values

  datatype XEvent = XEvent(evType: int, drawable: int)

  /** How the wait for the damage event ends: an event already queued, select failing,
      timing out, reporting data with an event pending, or reporting data with none. */
  datatype WaitOutcome = Queued(ev: XEvent) | SelectFailed | TimedOut | Arrived(ev: XEvent) | NothingPending

  /** The event the code inspects after the wait; the zero-initialised one when none arrived. */
  function ReceivedEvent(w: WaitOutcome): XEvent
  {
    match w
    case Queued(e) => e
    case Arrived(e) => e
    case _ => XEvent(0, 0)
  }

  /** The exported buffer of the pixmap: its pitch and size. */
  datatype ExportedBuffer = ExportedBuffer(stride: int, width: int, height: int)

  datatype CaptureServer = CaptureServer(
    putStillError: Option<int>,      // error raised by XvPutStill, if any
    wait: WaitOutcome,
    exported: Option<ExportedBuffer>, // DRI buffer export of the pixmap
    importOk: bool,                   // tbm_bo_import
    surfaceOk: bool)                  // tbm_surface_internal_create_with_bos

  datatype PixelFormat = XRGB8888

  datatype Plane = Plane(size: int, stride: int, offset: int)

  /** tbm_surface_info_s as the capture fills it. */
  datatype SurfaceInfo = SurfaceInfo(width: int, height: int, format: PixelFormat, bpp: int,
                                     size: int, numPlanes: int, planes: seq<Plane>)

  /** The descriptor wrapped around an exported buffer: packed XRGB8888 at 32 bits per pixel,
      one plane at offset 0, size = stride x height. */
  function SurfaceDescriptor(b: ExportedBuffer): (r: SurfaceInfo)
    ensures r.width == b.width && r.height == b.height
    ensures r.format == XRGB8888 && r.bpp == 32
    ensures r.numPlanes == 1 == |r.planes|
    ensures r.size == b.stride * b.height
    ensures r.planes[0] == Plane(r.size, b.stride, 0)
  {
    var size := b.stride * b.height;
    SurfaceInfo(b.width, b.height, XRGB8888, 32, size, 1, [Plane(size, b.stride, 0)])
  }

  /** The server requests of a capture. */
  datatype Request = PutStill(port: int, pixmap: int, gc: int, width: int, height: int) | ExportBuffer(pixmap: int) | DamageSubtract(damage: int)

  datatype Capture = Capture(surface: Option<SurfaceInfo>, requests: seq<Request>, flags: ErrorFlags, last: ErrorCode)

  /** The single failure exit: a recorded BadAccess becomes PERMISSION_DENIED and is cleared;
      anything else is an execution failure. */
  function CaptureFailed(requests: seq<Request>, flags: ErrorFlags): Capture
  {
    if flags.permission then Capture(Nothing, requests, flags.(permission := false), PermissionDenied)
    else Capture(Nothing, requests, flags, ScreenshotExecutionFail)
  }

  predicate IsDamageOfPixmap(ev: XEvent, f: ShotFields)
  {
    ev.evType == f.damageBase + XDAMAGE_NOTIFY && ev.drawable == f.pixmap
  }

  /** A capture on the live singleton with fields f, starting from the error flags `flags`. */
  function CaptureSpec(f: ShotFields, flags: ErrorFlags, env: CaptureServer): (r: Capture)
    ensures r.surface.Some? <==>
      env.putStillError.Nothing? && IsDamageOfPixmap(ReceivedEvent(env.wait), f) &&
      env.exported.Some? && env.importOk && env.surfaceOk
    ensures r.surface.Some? ==> r.surface.value == SurfaceDescriptor(env.exported.value) && r.last == None && r.flags == flags.(caught := false)
    ensures r.surface.Nothing? ==>
      (r.last == PermissionDenied <==> flags.permission || env.putStillError == Some(BAD_ACCESS)) &&
      (r.last != PermissionDenied ==> r.last == ScreenshotExecutionFail) &&
      r.flags == ErrorFlags(false, false)
    ensures |r.requests| >= 1 && r.requests[0] == PutStill(f.port, f.pixmap, f.gc, f.width, f.height)
  {
    var put := PutStill(f.port, f.pixmap, f.gc, f.width, f.height);
    var cleared := flags.(caught := false);
    var afterPut := if env.putStillError.Some? then HandleXError(Some(f.dpy), f.dpy, env.putStillError.value, cleared) else cleared;
    if afterPut.caught then CaptureFailed([put], afterPut.(caught := false))
    else
      var ev := ReceivedEvent(env.wait);
      if ev.evType == f.damageBase + XDAMAGE_NOTIFY then
        if ev.drawable == f.pixmap then
          if env.exported.Nothing? || !env.importOk || !env.surfaceOk then CaptureFailed([put, ExportBuffer(f.pixmap)], afterPut)
          else Capture(Some(SurfaceDescriptor(env.exported.value)), [put, ExportBuffer(f.pixmap), DamageSubtract(f.damage)], afterPut, None)
        else CaptureFailed([put, DamageSubtract(f.damage)], afterPut)
      else CaptureFailed([put], afterPut)
  }

  /** A BadAccess recorded by an earlier call (the reconfigure path's attribute set) and not yet
      reported makes a later capture that fails for any reason report PERMISSION_DENIED. */
  lemma StalePermissionFlagReported(f: ShotFields, env: CaptureServer)
    requires env.wait == TimedOut && env.putStillError.Nothing?
    requires f.damageBase + XDAMAGE_NOTIFY != 0
    ensures CaptureSpec(f, ErrorFlags(false, true), env).last == PermissionDenied
    ensures CaptureSpec(f, ErrorFlags(false, false), env).last == ScreenshotExecutionFail
  {
  }

  // ---------------------------------------------------------------------------------
  // The handle and the module state

  /** struct _efl_util_screenshot_h. */
  class ScreenshotHandle {
    var width: int
    var height: int
    var dpy: int
    var internalDisplay: int
    var screen: int
    var root: int
    var pixmap: int
    var gc: int
    var port: int
    var damage: int
    var damageBase: int
    var drmFd: int
    var bufmgr: int

    function Fields(): ShotFields
      reads this
    {
      ShotFields(width, height, dpy, internalDisplay, screen, root, pixmap, gc, port, damage, damageBase, drmFd, bufmgr)
    }

    /** calloc(1, sizeof(struct _efl_util_screenshot_h)). */
    constructor ()
      ensures Fields() == CALLOC_FIELDS
    {
      width, height, dpy, internalDisplay, screen, root := 0, 0, 0, 0, 0, 0;
      pixmap, gc, port, damage, damageBase, drmFd, bufmgr := 0, 0, 0, 0, 0, 0, 0;
    }
  }

  /** The module's globals: g_screenshot, the two error flags, and the last-result slot. */
  class ScreenshotModule {
    var screenshot: ScreenshotHandle?
    var errorCaught: bool
    var errorPermission: bool
    var lastResult: ErrorCode

    constructor ()
      ensures screenshot == null && !errorCaught && !errorPermission && lastResult == None
    {
      screenshot := null;
      errorCaught, errorPermission := false, false;
      lastResult := None;
    }

    function Flags(): ErrorFlags
      reads this
    {
      ErrorFlags(errorCaught, errorPermission)
    }

    function SingletonDpy(): Option<int>
      reads this, screenshot
    {
      if screenshot == null then Nothing else Some(screenshot.dpy)
    }

    /** The X error handler, invoked for an error on display dpy. */
    method XErrorHandler(dpy: int, errorCode: int)
      modifies this`errorCaught, this`errorPermission
      ensures Flags() == HandleXError(old(SingletonDpy()), dpy, errorCode, old(Flags()))
    {
      if screenshot == null || dpy != screenshot.dpy {
        return;
      }
      errorCaught := true;
      if errorCode == BAD_ACCESS {
        errorPermission := true;
      }
    }

    /** _efl_util_screenshot_get_best_size: set the capture attribute under the error handler
        (an error there is swallowed, though a BadAccess leaves the permission flag set),
        then query the best size; a zero dimension is a failure. */
    method GetBestSize(dpy: int, attrError: Option<int>, best: (nat, nat)) returns (ok: bool, bestWidth: nat, bestHeight: nat)
      modifies this`errorCaught, this`errorPermission
      ensures bestWidth == best.0 && bestHeight == best.1
      ensures ok <==> bestWidth > 0 && bestHeight > 0
      ensures !errorCaught
      ensures errorPermission ==
        if attrError.Some? then HandleXError(old(SingletonDpy()), dpy, attrError.value, old(Flags())).permission
        else old(errorPermission)
    {
      errorCaught := false;
      if attrError.Some? {
        XErrorHandler(dpy, attrError.value);
      }
      errorCaught := false;
      bestWidth, bestHeight := best.0, best.1;
      ok := !(bestWidth <= 0 || bestHeight <= 0);
    }

    /** efl_util_screenshot_deinitialize. */
    method Deinitialize(shot: ScreenshotHandle?) returns (r: ErrorCode, released: seq<Release>)
      modifies this`screenshot
      ensures shot == null ==> r == InvalidParameter && released == [] && screenshot == old(screenshot)
      ensures shot != null ==> (r, released) == Deinit(shot.Fields())
      ensures shot != null ==> screenshot == if r == None then null else old(screenshot)
    {
      if shot == null || shot.dpy == 0 {
        return InvalidParameter, [];
      }
      ghost var f := shot.Fields();
      released := [];
      if shot.bufmgr != 0 { released := released + [DeinitBufmgr(shot.bufmgr)]; }
      assert released == TeardownPrefix(f, 1);
      if shot.drmFd >= 0 { released := released + [CloseFd(shot.drmFd)]; }
      assert released == TeardownPrefix(f, 2);
      if shot.port > 0 && shot.pixmap > 0 { released := released + [StopVideo(shot.port, shot.pixmap)]; }
      assert released == TeardownPrefix(f, 3);
      if shot.damage != 0 { released := released + [DestroyDamage(shot.damage)]; }
      assert released == TeardownPrefix(f, 4);
      if shot.gc != 0 { released := released + [FreeGC(shot.gc)]; }
      assert released == TeardownPrefix(f, 5);
      if shot.pixmap > 0 { released := released + [FreePixmap(shot.pixmap)]; }
      assert released == TeardownPrefix(f, 6);
      if shot.port > 0 { released := released + [UngrabPort(shot.port)]; }
      assert released == TeardownPrefix(f, 7);
      if shot.internalDisplay == 1 { released := released + [CloseDisplay(shot.dpy)]; }
      assert released == TeardownPrefix(f, 8);
      screenshot := null;
      r := None;
    }

    method OpenDisplay(shot: ScreenshotHandle, env: ScreenshotServer) returns (ok: bool)
      modifies shot
      ensures (shot.Fields(), ok) == StepDisplay(old(shot.Fields()), env)
    {
      shot.dpy := env.ambientDisplay;
      if shot.dpy == 0 {
        shot.dpy := env.openedDisplay;
        if shot.dpy == 0 {
          return false;
        }
        shot.internalDisplay := 1;
      }
      ok := true;
    }

    method SetupPort(shot: ScreenshotHandle, env: ScreenshotServer) returns (ok: bool)
      requires screenshot == null
      modifies shot, this`errorCaught, this`errorPermission
      ensures (shot.Fields(), ok) == StepPort(old(shot.Fields()), env)
      ensures errorCaught == (if shot.port > 0 then false else old(errorCaught))
      ensures errorPermission == old(errorPermission)
    {
      shot.screen := env.defaultScreen;
      shot.root := env.rootWindow;
      shot.port := GetPort(FOURCC_RGB32, env.xv);
      if shot.port <= 0 {
        return false;
      }
      var bestOk, bestWidth, bestHeight := GetBestSize(shot.dpy, env.attrError, env.bestSize);
      if !bestOk {
        return false;
      }
      shot.width := bestWidth;
      shot.height := bestHeight;
      ok := true;
    }

    method CreateDrawables(shot: ScreenshotHandle, env: ScreenshotServer) returns (ok: bool)
      modifies shot
      ensures (shot.Fields(), ok) == StepDrawables(old(shot.Fields()), env)
    {
      shot.pixmap := env.pixmap;
      if shot.pixmap == 0 {
        return false;
      }
      shot.gc := env.gc;
      if shot.gc == 0 {
        return false;
      }
      if env.damageBase.Nothing? {
        return false;
      }
      shot.damageBase := env.damageBase.value;
      shot.damage := env.damage;
      if shot.damage <= 0 {
        return false;
      }
      ok := true;
    }

    method SetupBuffers(shot: ScreenshotHandle, env: ScreenshotServer) returns (ok: bool)
      modifies shot
      ensures (shot.Fields(), ok) == StepBuffers(old(shot.Fields()), env)
    {
      if env.drmFd.Nothing? || env.drmFd.value < 0 {
        return false;
      }
      shot.drmFd := env.drmFd.value;
      shot.bufmgr := env.bufmgr;
      if shot.bufmgr == 0 {
        return false;
      }
      ok := true;
    }

    /** The acquisition steps of a fresh initialize into a calloc'ed handle; stops at the first
        failing step (the `goto fail` of the source), leaving the rollback to the caller. */
    method Acquisition(shot: ScreenshotHandle, width: int, height: int, env: ScreenshotServer) returns (ok: bool)
      requires screenshot == null && shot.Fields() == CALLOC_FIELDS
      modifies shot, this`errorCaught, this`errorPermission
      ensures (shot.Fields(), ok) == Acquire(width, height, env)
      ensures errorCaught == (if PortFound(env) then false else old(errorCaught))
      ensures errorPermission == old(errorPermission)
    {
      ok := OpenDisplay(shot, env);
      if !ok {
        return;
      }
      ok := SetupPort(shot, env);
      if !ok {
        return;
      }
      ok := CreateDrawables(shot, env);
      if !ok {
        return;
      }
      ok := SetupBuffers(shot, env);
    }

    /** efl_util_screenshot_initialize.  `released` lists what a rollback releases. */
    method Initialize(width: int, height: int, env: ScreenshotServer) returns (h: ScreenshotHandle?, released: seq<Release>)
      modifies this, screenshot
      ensures (width < 1 || height < 1) ==>
        h == null && released == [] && lastResult == InvalidParameter &&
        screenshot == old(screenshot) && Flags() == old(Flags()) &&
        (screenshot != null ==> screenshot.Fields() == old(screenshot.Fields()))
      // a live singleton: idempotent for equal dimensions, a partial reconfigure otherwise
      ensures width >= 1 && height >= 1 && old(screenshot) != null ==>
        screenshot == old(screenshot) && released == [] &&
        if old(screenshot.width) == width && old(screenshot.height) == height then
          h == screenshot && screenshot.Fields() == old(screenshot.Fields()) &&
          lastResult == old(lastResult) && Flags() == old(Flags())
        else
          !errorCaught &&
          errorPermission == (if env.attrError.Some? then HandleXError(old(SingletonDpy()), old(screenshot.dpy), env.attrError.value, old(Flags())).permission
                              else old(errorPermission)) &&
          if env.bestSize.0 > 0 && env.bestSize.1 > 0 then
            h == screenshot && lastResult == old(lastResult) &&
            screenshot.Fields() == old(screenshot.Fields()).(width := width, height := height)
          else
            h == null && lastResult == ScreenshotInitFail && screenshot.Fields() == old(screenshot.Fields())
      // no singleton: a fresh acquisition, rolled back through deinitialize on failure
      ensures width >= 1 && height >= 1 && old(screenshot) == null ==>
        errorPermission == old(errorPermission) &&
        errorCaught == (if env.allocOk && PortFound(env) then false else old(errorCaught)) &&
        (!env.allocOk ==> h == null && screenshot == null && released == [] && lastResult == OutOfMemory) &&
        (env.allocOk && AcquisitionSucceeds(env) ==>
          h != null && fresh(h) && screenshot == h && h.Fields() == Acquire(width, height, env).0 &&
          lastResult == None && released == []) &&
        (env.allocOk && !AcquisitionSucceeds(env) ==>
          h == null && screenshot == null && lastResult == ScreenshotInitFail &&
          released == Deinit(Acquire(width, height, env).0).1)
    {
      released := [];
      if width < 1 || height < 1 {
        lastResult := InvalidParameter;
        return null, [];
      }
      if screenshot != null {
        if screenshot.width != width || screenshot.height != height {
          var ok, bestWidth, bestHeight := GetBestSize(screenshot.dpy, env.attrError, env.bestSize);
          if !ok {
            lastResult := ScreenshotInitFail;
            return null, [];
          }
          screenshot.width := width;
          screenshot.height := height;
        }
        return screenshot, [];
      }
      if !env.allocOk {
        lastResult := OutOfMemory;
        return null, [];
      }
      var shot := new ScreenshotHandle();
      var ok := Acquisition(shot, width, height, env);
      if !ok {
        var _, rel := Deinitialize(shot);
        lastResult := ScreenshotInitFail;
        return null, rel;
      }
      screenshot := shot;
      lastResult := None;
      h := screenshot;
    }

    /** efl_util_screenshot_take_tbm_surface.  Passing null while no singleton exists
        dereferences null in the source, so that call is excluded. */
    method TakeSurface(shot: ScreenshotHandle?, env: CaptureServer) returns (surface: Option<SurfaceInfo>, requests: seq<Request>)
      requires shot != null || screenshot != null
      modifies this`errorCaught, this`errorPermission, this`lastResult
      ensures shot != old(screenshot) ==>
        surface.Nothing? && requests == [] && lastResult == InvalidParameter && Flags() == old(Flags())
      ensures shot == old(screenshot) ==>
        surface == CaptureSpec(shot.Fields(), old(Flags()), env).surface &&
        requests == CaptureSpec(shot.Fields(), old(Flags()), env).requests &&
        Flags() == CaptureSpec(shot.Fields(), old(Flags()), env).flags &&
        lastResult == CaptureSpec(shot.Fields(), old(Flags()), env).last
    {
      if shot != screenshot {
        lastResult := InvalidParameter;
        return Nothing, [];
      }
      requests := [PutStill(shot.port, shot.pixmap, shot.gc, shot.width, shot.height)];
      errorCaught := false;
      if env.putStillError.Some? {
        XErrorHandler(shot.dpy, env.putStillError.value);
      }
      if errorCaught {
        errorCaught := false;
        surface := Nothing;
      } else {
        errorCaught := false;
        var ev := ReceivedEvent(env.wait);
        if ev.evType == shot.damageBase + XDAMAGE_NOTIFY {
          if ev.drawable == shot.pixmap {
            requests := requests + [ExportBuffer(shot.pixmap)];
            if env.exported.Some? && env.importOk && env.surfaceOk {
              requests := requests + [DamageSubtract(shot.damage)];
              lastResult := None;
              return Some(SurfaceDescriptor(env.exported.value)), requests;
            }
          } else {
            requests := requests + [DamageSubtract(shot.damage)];
          }
        }
        surface := Nothing;
      }
      if errorPermission {
        errorPermission := false;
        lastResult := PermissionDenied;
      } else {
        lastResult := ScreenshotExecutionFail;
      }
    }
  }
}
