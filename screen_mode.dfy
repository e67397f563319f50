/** Window screen mode: ALWAYS_ON or DEFAULT, kept in the window's "wm.policy.win.lcd.lock"
    aux hint ("1" or "0").  The ecore_evas aux-hint list is modelled as a store of
    (id, name, value) records with an id counter.  The permission-error callbacks of this
    module are a CallbackRegistry, whose access-result atom is the one named
    "_E_SCREEN_MODE_ACCESS_RESULT". */
module ScreenMode {
  import opened Common

  /** efl_util_screen_mode_e; OtherMode is any value that is none of the named ones. */
  datatype ScreenMode = ModeDefault | ModeAlwaysOn | OtherMode(raw: int)

  const LCD_LOCK_HINT: string := "wm.policy.win.lcd.lock"

  /** One aux hint of an ecore_evas; a Nothing value is a NULL value string. */
  datatype AuxHint = AuxHint(id: int, name: string, value: Option<string>)

  datatype HintStore = HintStore(hints: seq<AuxHint>, nextId: int)

  /** Ids are distinct and below the counter that the next added hint takes. */
  predicate ValidStore(s: HintStore)
  {
    0 <= s.nextId &&
    (forall i :: 0 <= i < |s.hints| ==> 0 <= s.hints[i].id < s.nextId) &&
    (forall i, j :: 0 <= i < j < |s.hints| ==> s.hints[i].id != s.hints[j].id)
  }

  /** What a lookup compares a hint by: its name or its id. */
  datatype HintKey = ByName(name: string) | ById(id: int)

  predicate Matches(h: AuxHint, key: HintKey)
  {
    match key
    case ByName(name) => h.name == name
    case ById(id) => h.id == id
  }

  /** The position of the first hint that matches the key (the list walk shared by
      ecore_evas_aux_hint_id_get, _val_get and _val_set). */
  function FindHint(hints: seq<AuxHint>, key: HintKey): (r: Option<nat>)
    ensures r.Nothing? <==> forall i :: 0 <= i < |hints| ==> !Matches(hints[i], key)
    ensures r.Some? ==> r.value < |hints| && Matches(hints[r.value], key) &&
                        forall i :: 0 <= i < r.value ==> !Matches(hints[i], key)
  {
    if hints == [] then Nothing
    else if Matches(hints[0], key) then Some(0)
    else match FindHint(hints[1..], key)
      case Nothing => Nothing
      case Some(i) => Some(i + 1)
  }

  /** ecore_evas_aux_hint_id_get: the id of the named hint, -1 when there is none. */
  function HintIdGet(s: HintStore, name: string): int
  {
    match FindHint(s.hints, ByName(name))
    case Nothing => -1
    case Some(i) => s.hints[i].id
  }

  /** ecore_evas_aux_hint_val_get: the value of the hint with this id, NULL when there is none. */
  function HintValGet(s: HintStore, id: int): Option<string>
  {
    match FindHint(s.hints, ById(id))
    case Nothing => Nothing
    case Some(i) => s.hints[i].value
  }

  /** ecore_evas_aux_hint_add: a new hint with the next id, appended. */
  function HintAdded(s: HintStore, name: string, value: string): (r: HintStore)
    requires ValidStore(s)
    ensures ValidStore(r)
    ensures r.hints == s.hints + [AuxHint(s.nextId, name, Some(value))]
  {
    var r := HintStore(s.hints + [AuxHint(s.nextId, name, Some(value))], s.nextId + 1);
    assert forall i :: 0 <= i < |s.hints| ==> r.hints[i] == s.hints[i];
    r
  }

  /** ecore_evas_aux_hint_val_set: the value of the hint with this id replaced. */
  function HintValSet(s: HintStore, id: int, value: string): (r: HintStore)
    requires ValidStore(s)
    ensures ValidStore(r) && |r.hints| == |s.hints| && r.nextId == s.nextId
    ensures forall i :: 0 <= i < |s.hints| ==> r.hints[i].id == s.hints[i].id && r.hints[i].name == s.hints[i].name
    ensures forall i :: 0 <= i < |s.hints| && s.hints[i].id != id ==> r.hints[i] == s.hints[i]
    ensures HintValGet(r, id) == if FindHint(s.hints, ById(id)).Some? then Some(value) else Nothing
  {
    match FindHint(s.hints, ById(id))
    case Nothing => s
    case Some(i) =>
      var r := s.(hints := s.hints[i := s.hints[i].(value := Some(value))]);
      assert forall k :: 0 <= k < |s.hints| ==> r.hints[k].id == s.hints[k].id;
      assert FindHint(r.hints, ById(id)) == Some(i);
      r
  }

  /** The value written for a mode: "1" for ALWAYS_ON, "0" for DEFAULT. */
  function ModeValue(mode: ScreenMode): (r: Option<string>)
    ensures r.Some? <==> !mode.OtherMode?
    ensures r.Some? ==> (HasPrefix(r.value, "1") <==> mode == ModeAlwaysOn)
  {
    match mode
    case ModeAlwaysOn => Some("1")
    case ModeDefault =>
      assert "0"[..1][0] != "1"[0];
      Some("0")
    case OtherMode(_) => Nothing
  }

  /** efl_util_set_window_screen_mode on the store of the window's ecore_evas
      (`evasFound` is whether the window has an evas; `store` is Nothing without an ecore_evas). */
  function SetScreenMode(window: int, evasFound: bool, store: Option<HintStore>, mode: ScreenMode): (r: (Option<HintStore>, ErrorCode))
    requires store.Some? ==> ValidStore(store.value)
    ensures r.0.Some? <==> store.Some?
    ensures r.0.Some? ==> ValidStore(r.0.value)
    ensures r.1 == None <==> window != 0 && evasFound && store.Some? && !mode.OtherMode?
    ensures r.1 != None ==> r.1 == InvalidParameter && r.0 == store
    ensures r.1 == None ==>
      var s, t, id := store.value, r.0.value, HintIdGet(store.value, LCD_LOCK_HINT);
      |t.hints| == |s.hints| + (if id == -1 then 1 else 0) &&
      (forall i :: 0 <= i < |s.hints| && s.hints[i].name != LCD_LOCK_HINT ==> t.hints[i] == s.hints[i]) &&
      (forall i :: |s.hints| <= i < |t.hints| ==> t.hints[i].name == LCD_LOCK_HINT) &&
      HintIdGet(t, LCD_LOCK_HINT) == (if id == -1 then s.nextId else id) &&
      HintValGet(t, HintIdGet(t, LCD_LOCK_HINT)) == ModeValue(mode)
  {
    if window == 0 || !evasFound || store.Nothing? then (store, InvalidParameter)
    else
      var s := store.value;
      var id := HintIdGet(s, LCD_LOCK_HINT);
      match ModeValue(mode)
      case Nothing => (store, InvalidParameter)
      case Some(v) =>
        if id == -1 then
          AddedHintFound(s, LCD_LOCK_HINT, v);
          (Some(HintAdded(s, LCD_LOCK_HINT, v)), None)
        else
          var j := FindHint(s.hints, ByName(LCD_LOCK_HINT)).value;
          assert s.hints[j].id == id;
          assert forall i :: 0 <= i < |s.hints| && s.hints[i].name != LCD_LOCK_HINT ==> s.hints[i].id != id;
          UpdatedHintFound(s, LCD_LOCK_HINT, v);
          (Some(HintValSet(s, id, v)), None)
  }

  /** efl_util_get_window_screen_mode: the named hint's value decides, "1" as a prefix giving
      ALWAYS_ON and any other value DEFAULT (`modeOut` is whether the out-pointer is non-null). */
  function GetScreenMode(window: int, modeOut: bool, evasFound: bool, store: Option<HintStore>): (r: (ErrorCode, Option<ScreenMode>))
    ensures r.1.Some? <==> r.0 == None
    ensures r.0 == None <==>
      window != 0 && modeOut && evasFound && store.Some? &&
      HintIdGet(store.value, LCD_LOCK_HINT) != -1 &&
      HintValGet(store.value, HintIdGet(store.value, LCD_LOCK_HINT)).Some?
    ensures r.0 != None ==> r.0 == InvalidParameter
    ensures r.1.Some? ==>
      (r.1.value == ModeAlwaysOn <==> HasPrefix(HintValGet(store.value, HintIdGet(store.value, LCD_LOCK_HINT)).value, "1")) &&
      !r.1.value.OtherMode?
  {
    if window == 0 || !modeOut || !evasFound || store.Nothing? then (InvalidParameter, Nothing)
    else
      var id := HintIdGet(store.value, LCD_LOCK_HINT);
      if id == -1 then (InvalidParameter, Nothing)
      else match HintValGet(store.value, id)
        case Nothing => (InvalidParameter, Nothing)
        case Some(v) => (None, Some(if HasPrefix(v, "1") then ModeAlwaysOn else ModeDefault))
  }

  /** The number of hints with this name. */
  function CountNamed(hints: seq<AuxHint>, name: string): nat
  {
    if hints == [] then 0 else (if hints[0].name == name then 1 else 0) + CountNamed(hints[1..], name)
  }

  lemma {:induction false} CountNamedZero(hints: seq<AuxHint>, name: string)
    ensures CountNamed(hints, name) == 0 <==> FindHint(hints, ByName(name)).Nothing?
  {
    if hints != [] {
      CountNamedZero(hints[1..], name);
    }
  }

  lemma {:induction false} CountNamedAppend(hints: seq<AuxHint>, h: AuxHint, name: string)
    ensures CountNamed(hints + [h], name) == CountNamed(hints, name) + (if h.name == name then 1 else 0)
  {
    if hints != [] {
      assert (hints + [h])[1..] == hints[1..] + [h];
      CountNamedAppend(hints[1..], h, name);
    }
  }

  lemma {:induction false} CountNamedSameNames(a: seq<AuxHint>, b: seq<AuxHint>, name: string)
    requires |a| == |b| && forall i :: 0 <= i < |a| ==> a[i].name == b[i].name
    ensures CountNamed(a, name) == CountNamed(b, name)
  {
    if a != [] {
      CountNamedSameNames(a[1..], b[1..], name);
    }
  }

  /** A hint id the name lookup returns is the id of a hint that the id lookup finds. */
  lemma IdOfNamedIsFound(s: HintStore, name: string)
    requires ValidStore(s) && FindHint(s.hints, ByName(name)).Some?
    ensures FindHint(s.hints, ById(HintIdGet(s, name))) == FindHint(s.hints, ByName(name))
  {
    var i := FindHint(s.hints, ByName(name)).value;
    var j := FindHint(s.hints, ById(s.hints[i].id)).value;
    assert s.hints[j].id == s.hints[i].id;
  }

  /** Adding the first hint with a name makes the name lookup find it, and its value. */
  lemma AddedHintFound(s: HintStore, name: string, v: string)
    requires ValidStore(s) && FindHint(s.hints, ByName(name)).Nothing?
    ensures HintIdGet(HintAdded(s, name, v), name) == s.nextId
    ensures HintValGet(HintAdded(s, name, v), s.nextId) == Some(v)
  {
    var r := HintAdded(s, name, v);
    assert forall k :: 0 <= k < |s.hints| ==> r.hints[k] == s.hints[k];
    assert r.hints[|s.hints|] == AuxHint(s.nextId, name, Some(v));
    assert FindHint(r.hints, ByName(name)) == Some(|s.hints|);
    assert FindHint(r.hints, ById(s.nextId)) == Some(|s.hints|);
  }

  /** Setting the value of the named hint keeps its id and makes the value the new one. */
  lemma UpdatedHintFound(s: HintStore, name: string, v: string)
    requires ValidStore(s) && FindHint(s.hints, ByName(name)).Some?
    ensures HintIdGet(HintValSet(s, HintIdGet(s, name), v), name) == HintIdGet(s, name)
    ensures HintValGet(HintValSet(s, HintIdGet(s, name), v), HintIdGet(s, name)) == Some(v)
  {
    IdOfNamedIsFound(s, name);
    var i := FindHint(s.hints, ByName(name)).value;
    var r := HintValSet(s, HintIdGet(s, name), v);
    assert FindHint(r.hints, ByName(name)) == Some(i);
  }

  /** Round trip: after a successful set of a named mode, get yields that mode (a corollary of
      SetScreenMode's contract together with GetScreenMode's). */
  lemma SetThenGet(window: int, s: HintStore, mode: ScreenMode)
    requires ValidStore(s) && window != 0 && !mode.OtherMode?
    ensures SetScreenMode(window, true, Some(s), mode).1 == None
    ensures GetScreenMode(window, true, true, SetScreenMode(window, true, Some(s), mode).0) == (None, Some(mode))
  {
  }

  /** Repeated sets never create a second lock hint: the first set adds it when absent, and
      every later set updates it in place. */
  lemma SetKeepsOneLockHint(window: int, s: HintStore, mode: ScreenMode)
    requires ValidStore(s) && window != 0 && !mode.OtherMode?
    ensures var r := SetScreenMode(window, true, Some(s), mode).0.value;
            CountNamed(r.hints, LCD_LOCK_HINT) == (if CountNamed(s.hints, LCD_LOCK_HINT) == 0 then 1 else CountNamed(s.hints, LCD_LOCK_HINT))
  {
    var v := ModeValue(mode).value;
    var r := SetScreenMode(window, true, Some(s), mode).0.value;
    CountNamedZero(s.hints, LCD_LOCK_HINT);
    if FindHint(s.hints, ByName(LCD_LOCK_HINT)).Nothing? {
      CountNamedAppend(s.hints, AuxHint(s.nextId, LCD_LOCK_HINT, Some(v)), LCD_LOCK_HINT);
    } else {
      var i := FindHint(s.hints, ByName(LCD_LOCK_HINT)).value;
      assert s.hints[i].id >= 0;
      CountNamedSameNames(r.hints, s.hints, LCD_LOCK_HINT);
    }
  }

  /** The aux hints of one ecore_evas, changed in place. */
  class EcoreEvas {
    var hints: seq<AuxHint>
    var nextId: int

    function Store(): HintStore
      reads this
    {
      HintStore(hints, nextId)
    }

    predicate Valid()
      reads this
    {
      ValidStore(Store())
    }

    constructor ()
      ensures Valid() && hints == []
    {
      hints, nextId := [], 0;
    }

    method AuxHintAdd(name: string, value: string) returns (id: int)
      requires Valid()
      modifies this
      ensures Valid() && Store() == HintAdded(old(Store()), name, value) && id == old(nextId)
    {
      hints := hints + [AuxHint(nextId, name, Some(value))];
      id := nextId;
      nextId := nextId + 1;
    }

    method AuxHintValSet(id: int, value: string)
      requires Valid()
      modifies this`hints
      ensures Valid() && Store() == HintValSet(old(Store()), id, value)
    {
      var found := FindHint(hints, ById(id));
      if found.Some? {
        hints := hints[found.value := hints[found.value].(value := Some(value))];
      }
    }
  }

  /** efl_util_set_window_screen_mode with the window's ecore_evas `ee` (null when there is none). */
  method SetWindowScreenMode(window: int, evasFound: bool, ee: EcoreEvas?, mode: ScreenMode) returns (r: ErrorCode)
    requires ee != null ==> ee.Valid()
    modifies ee
    ensures ee == null ==> r == InvalidParameter
    ensures ee != null ==> ee.Valid() && (Some(ee.Store()), r) == SetScreenMode(window, evasFound, Some(old(ee.Store())), mode)
  {
    if window == 0 {
      return InvalidParameter;
    }
    if !evasFound {
      return InvalidParameter;
    }
    if ee == null {
      return InvalidParameter;
    }
    var id := HintIdGet(ee.Store(), LCD_LOCK_HINT);
    if mode == ModeAlwaysOn {
      if id == -1 {
        var _ := ee.AuxHintAdd(LCD_LOCK_HINT, "1");
      } else {
        ee.AuxHintValSet(id, "1");
      }
    } else if mode == ModeDefault {
      if id == -1 {
        var _ := ee.AuxHintAdd(LCD_LOCK_HINT, "0");
      } else {
        ee.AuxHintValSet(id, "0");
      }
    } else {
      return InvalidParameter;
    }
    r := None;
  }
}
