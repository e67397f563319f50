/** The permission-error callback registry that the notification-level and the screen-mode
    modules each keep: a list of (window, callback, user data) entries, a module counter of
    successful registrations, the access-result atom and the shared client-message handler.
    The two modules hold separate, identical copies; each is one CallbackRegistry here. */
module Registry {
  import opened Common

  /** One registered entry.  Window and callback are pointers, 0 being NULL. */
  datatype Entry = Entry(window: int, callback: int, userData: int)

  /** Entries of distinct windows. */
  predicate Unique(entries: seq<Entry>)
  {
    forall i, j :: 0 <= i < j < |entries| ==> entries[i].window != entries[j].window
  }

  function LastEntry(entries: seq<Entry>): Entry
    requires entries != []
  {
    entries[|entries| - 1]
  }

  /** _info_find: the position of the first entry registered for window w. */
  function Find(entries: seq<Entry>, w: int): (r: Option<nat>)
    ensures r.Nothing? <==> forall i :: 0 <= i < |entries| ==> entries[i].window != w
    ensures r.Some? ==> r.value < |entries| && entries[r.value].window == w &&
                        forall i :: 0 <= i < r.value ==> entries[i].window != w
  {
    if entries == [] then Nothing
    else if entries[0].window == w then Some(0)
    else match Find(entries[1..], w)
      case Nothing => Nothing
      case Some(i) => Some(i + 1)
  }

  /** The entries that are not w's, in their order. */
  function Others(entries: seq<Entry>, w: int): seq<Entry>
  {
    if entries == [] then []
    else (if entries[0].window == w then [] else [entries[0]]) + Others(entries[1..], w)
  }

  /** `eina_list_remove` of the entry `_info_find` returned (no change when there is none). */
  function RemoveFound(entries: seq<Entry>, w: int): seq<Entry>
  {
    match Find(entries, w)
    case Nothing => entries
    case Some(i) => entries[..i] + entries[i + 1..]
  }

  /** Others keeps exactly the entries of other windows. */
  lemma {:induction false} OthersMembers(entries: seq<Entry>, w: int, e: Entry)
    ensures e in Others(entries, w) <==> e in entries && e.window != w
  {
    if entries != [] {
      OthersMembers(entries[1..], w, e);
      assert entries == [entries[0]] + entries[1..];
    }
  }

  lemma {:induction false} OthersOfUnmatched(entries: seq<Entry>, w: int)
    requires forall i :: 0 <= i < |entries| ==> entries[i].window != w
    ensures Others(entries, w) == entries
  {
    if entries != [] {
      OthersOfUnmatched(entries[1..], w);
    }
  }

  lemma {:induction false} OthersUnique(entries: seq<Entry>, w: int)
    requires Unique(entries)
    ensures Unique(Others(entries, w))
  {
    if entries != [] {
      var rest := entries[1..];
      OthersUnique(rest, w);
      var tail := Others(rest, w);
      if entries[0].window != w {
        forall e | e in tail
          ensures e.window != entries[0].window
        {
          OthersMembers(rest, w, e);
          var k :| 0 <= k < |rest| && rest[k] == e;
          assert entries[k + 1] == e;
        }
        assert Others(entries, w) == [entries[0]] + tail;
      }
    }
  }

  /** The tail of a list with one entry per window has one entry per window, none of them
      the head's window. */
  lemma UniqueTail(entries: seq<Entry>)
    requires entries != [] && Unique(entries)
    ensures Unique(entries[1..])
    ensures forall i :: 0 <= i < |entries| - 1 ==> entries[1..][i].window != entries[0].window
  {
    var rest := entries[1..];
    forall i, j | 0 <= i < j < |rest| ensures rest[i].window != rest[j].window {
      assert rest[i] == entries[i + 1] && rest[j] == entries[j + 1];
    }
    forall i | 0 <= i < |rest| ensures rest[i].window != entries[0].window {
      assert rest[i] == entries[i + 1];
    }
  }

  lemma RemoveAfterHead(entries: seq<Entry>, i: nat)
    requires i + 1 < |entries|
    ensures entries[..i + 1] + entries[i + 2..] == [entries[0]] + (entries[1..][..i] + entries[1..][i + 1..])
  {
    assert entries[..i + 1] == [entries[0]] + entries[1..][..i];
    assert entries[i + 2..] == entries[1..][i + 1..];
  }

  /** With one entry per window, removing the found entry removes exactly w's entry and keeps
      the others in order. */
  lemma {:induction false} RemoveFoundIsOthers(entries: seq<Entry>, w: int)
    requires Unique(entries)
    ensures RemoveFound(entries, w) == Others(entries, w)
  {
    if entries != [] {
      var rest := entries[1..];
      UniqueTail(entries);
      if entries[0].window == w {
        OthersOfUnmatched(rest, w);
        assert entries[..0] + entries[1..] == rest;
      } else {
        RemoveFoundIsOthers(rest, w);
        assert Others(entries, w) == [entries[0]] + Others(rest, w);
        match Find(rest, w)
        case Nothing =>
          assert entries == [entries[0]] + rest;
        case Some(i) =>
          RemoveAfterHead(entries, i);
      }
    }
  }

  /** _info_add on the list: the old entry of w is removed first, and only then is the new
      entry allocated, so a failed allocation still drops the old registration. */
  function AddEntry(entries: seq<Entry>, w: int, callback: int, userData: int, allocOk: bool): (r: (seq<Entry>, bool))
    requires Unique(entries)
    ensures r.1 == allocOk
    ensures Unique(r.0)
    ensures Others(r.0, w) == Others(entries, w)
    ensures allocOk ==> r.0 == Others(entries, w) + [Entry(w, callback, userData)]
    ensures allocOk ==> LastEntry(r.0) == Entry(w, callback, userData) && Find(r.0, w) == Some(|r.0| - 1)
    ensures !allocOk ==> r.0 == Others(entries, w)
  {
    RemoveFoundIsOthers(entries, w);
    OthersUnique(entries, w);
    var rest := RemoveFound(entries, w);
    var e := Entry(w, callback, userData);
    OthersOfUnmatched(rest, w);
    if !allocOk then (rest, false)
    else
      var r := rest + [e];
      assert forall i :: 0 <= i < |rest| ==> r[i] == rest[i];
      OthersAppendOwn(rest, e);
      (r, true)
  }

  lemma OthersAppendOwn(rest: seq<Entry>, e: Entry)
    requires forall i :: 0 <= i < |rest| ==> rest[i].window != e.window
    ensures Others(rest + [e], e.window) == rest
  {
    var r := rest + [e];
    assert forall i :: 0 <= i < |r| - 1 ==> r[i].window != e.window;
    OthersPrefix(r, e.window);
    OthersOfUnmatched(rest, e.window);
  }

  /** Others of a list whose only w entry is its last. */
  lemma {:induction false} OthersPrefix(r: seq<Entry>, w: int)
    requires r != [] && LastEntry(r).window == w
    requires forall i :: 0 <= i < |r| - 1 ==> r[i].window != w
    ensures Others(r, w) == Others(r[..|r| - 1], w)
  {
    if |r| == 1 {
      assert Others(r[1..], w) == [];
    } else {
      var rest := r[1..];
      assert rest[..|rest| - 1] == r[..|r| - 1][1..];
      OthersPrefix(rest, w);
    }
  }

  /** _info_del on the list: false with no change when w has no entry, otherwise exactly
      w's entry is removed. */
  function DeleteEntry(entries: seq<Entry>, w: int): (r: (seq<Entry>, bool))
    requires Unique(entries)
    ensures r.1 <==> exists i :: 0 <= i < |entries| && entries[i].window == w
    ensures !r.1 ==> r.0 == entries
    ensures r.1 ==> r.0 == Others(entries, w) && |r.0| == |entries| - 1
    ensures Unique(r.0)
  {
    RemoveFoundIsOthers(entries, w);
    OthersUnique(entries, w);
    match Find(entries, w)
    case Nothing => (entries, false)
    case Some(i) => (entries[..i] + entries[i + 1..], true)
  }

  // ---------------------------------------------------------------------------------
  // set/unset_..._error_cb on values

  /** The module globals: the list, whether the ecore event handler is installed, the
      handler count and the access-result atom (0 until first interned). */
  datatype RegistryState = RegistryState(entries: seq<Entry>, handlerInstalled: bool, count: int, atom: int)

  const INITIAL: RegistryState := RegistryState([], false, 0, 0)

  /** What every reachable state satisfies: one entry per window, at least as many counted
      registrations as entries, and the handler installed only while the count is positive. */
  predicate Consistent(s: RegistryState)
  {
    Unique(s.entries) && |s.entries| <= s.count && (s.handlerInstalled ==> s.count > 0)
  }

  /** efl_util_set_..._error_cb; `internedAtom` is what ecore_x_atom_get returns for the
      module's access-result atom name, and `handlerOk` is whether ecore_event_handler_add
      returns a handler (the count goes up either way). */
  function AfterSet(s: RegistryState, window: int, callback: int, userData: int, allocOk: bool, internedAtom: int, handlerOk: bool): (r: (RegistryState, ErrorCode))
    requires Consistent(s)
    ensures Consistent(r.0)
    ensures window == 0 ==> r == (s, InvalidParameter)
    ensures window != 0 && !allocOk ==>
      r.1 == OutOfMemory && r.0 == s.(entries := Others(s.entries, window))
    ensures window != 0 && allocOk ==>
      r.1 == None && r.0.count == s.count + 1 &&
      r.0.handlerInstalled == (s.handlerInstalled || handlerOk) &&
      r.0.entries == Others(s.entries, window) + [Entry(window, callback, userData)] &&
      r.0.atom == (if s.atom == 0 then internedAtom else s.atom)
  {
    if window == 0 then (s, InvalidParameter)
    else
      var (entries, ok) := AddEntry(s.entries, window, callback, userData, allocOk);
      if !ok then (s.(entries := entries), OutOfMemory)
      else
        var atom := if s.atom == 0 then internedAtom else s.atom;
        (RegistryState(entries, s.handlerInstalled || handlerOk, s.count + 1, atom), None)
  }

  /** efl_util_unset_..._error_cb. */
  function AfterUnset(s: RegistryState, window: int): (r: (RegistryState, ErrorCode))
    requires Consistent(s)
    ensures Consistent(r.0)
    ensures r.1 == None <==> window != 0 && exists i :: 0 <= i < |s.entries| && s.entries[i].window == window
    ensures r.1 != None ==> r.1 == InvalidParameter && r.0 == s
    ensures r.1 == None ==>
      r.0.entries == Others(s.entries, window) && r.0.count == s.count - 1 && r.0.atom == s.atom &&
      (r.0.handlerInstalled <==> s.handlerInstalled && s.count - 1 != 0)
  {
    if window == 0 then (s, InvalidParameter)
    else
      var (entries, ok) := DeleteEntry(s.entries, window);
      if !ok then (s, InvalidParameter)
      else
        var count := s.count - 1;
        (s.(entries := entries, count := count, handlerInstalled := s.handlerInstalled && count != 0), None)
  }

  /** Registering the same window twice counts twice but lists it once, so a single unset
      leaves the handler installed with an empty list, and a second unset is refused. */
  lemma ReRegistrationKeepsHandler(w: int, cb1: int, cb2: int, d: int, atom: int)
    requires w != 0
    ensures var s1 := AfterSet(INITIAL, w, cb1, d, true, atom, true).0;
            var s2 := AfterSet(s1, w, cb2, d, true, atom, true).0;
            var (s3, r3) := AfterUnset(s2, w);
            r3 == None && s3.entries == [] && s3.count == 1 && s3.handlerInstalled &&
            AfterUnset(s3, w).1 == InvalidParameter
  {
    var s1 := AfterSet(INITIAL, w, cb1, d, true, atom, true).0;
    assert s1.entries == [Entry(w, cb1, d)];
    var s2 := AfterSet(s1, w, cb2, d, true, atom, true).0;
    assert s2.entries == [Entry(w, cb2, d)];
    var s3 := AfterUnset(s2, w).0;
    assert s2.entries[0].window == w;
    assert s3.entries == [];
  }

  /** A handler installation that fails is not undone and not retried by itself: the
      registration counts without a handler, and only a later successful set installs one. */
  lemma FailedHandlerAddRetriedBySet(w1: int, w2: int, cb: int, d: int, atom: int)
    requires w1 != 0 && w2 != 0
    ensures var (s1, r1) := AfterSet(INITIAL, w1, cb, d, true, atom, false);
            r1 == None && s1.count == 1 && !s1.handlerInstalled &&
            AfterSet(s1, w2, cb, d, true, atom, true).0.handlerInstalled
  {
  }

  /** When every installation succeeds, the handler is installed exactly while the count is
      positive, and setting and unsetting keep it so. */
  predicate HandlerTracksCount(s: RegistryState)
  {
    s.handlerInstalled <==> s.count > 0
  }

  lemma HandlerTracksCountPreserved(s: RegistryState, window: int, callback: int, userData: int, allocOk: bool, internedAtom: int)
    requires Consistent(s) && HandlerTracksCount(s)
    ensures HandlerTracksCount(AfterSet(s, window, callback, userData, allocOk, internedAtom, true).0)
    ensures HandlerTracksCount(AfterUnset(s, window).0)
  {
  }

  // ---------------------------------------------------------------------------------
  // _efl_util_client_message

  /** An X client message: its type, window, and data.l[1] (a C long). */
  datatype ClientMessage = ClientMessage(messageType: int, win: int, access: int)

  /** A call of a registered callback: (window, error, user data). */
  datatype Call = Call(callback: int, window: int, error: ErrorCode, userData: int)

  /** What the handler does: an optional callback call, and whether it passes the event on. */
  datatype Dispatched = Dispatched(call: Option<Call>, passOn: bool)

  /** `int access = ev->data.l[1]`: the long truncated to a 32-bit int. */
  function LongToInt(l: int): int
  {
    var m := l % 0x1_0000_0000;
    if m >= 0x8000_0000 then m - 0x1_0000_0000 else m
  }

  lemma AccessDeniedIff(l: int)
    ensures LongToInt(l) == 0 <==> l % 0x1_0000_0000 == 0
  {
  }

  predicate MatchesXwin(e: Entry, xwin: int, xwinOf: int -> int)
  {
    e.window != 0 && xwinOf(e.window) == xwin
  }

  /** _find_by_xwin: the first entry with a non-null window whose X window is xwin
      (`xwinOf` is elm_win_xwindow_get). */
  function FindByXwin(entries: seq<Entry>, xwin: int, xwinOf: int -> int): (r: Option<nat>)
    ensures r.Nothing? <==> forall i :: 0 <= i < |entries| ==> !MatchesXwin(entries[i], xwin, xwinOf)
    ensures r.Some? ==> r.value < |entries| && MatchesXwin(entries[r.value], xwin, xwinOf) &&
                        forall i :: 0 <= i < r.value ==> !MatchesXwin(entries[i], xwin, xwinOf)
  {
    if entries == [] then Nothing
    else if MatchesXwin(entries[0], xwin, xwinOf) then Some(0)
    else match FindByXwin(entries[1..], xwin, xwinOf)
      case Nothing => Nothing
      case Some(i) => Some(i + 1)
  }

  /** The client-message handler: the callback of the first entry matching the message's
      window fires with PERMISSION_DENIED exactly for an access-result message whose access
      value is 0 and an entry with a callback; the event is always passed on. */
  function Dispatch(entries: seq<Entry>, atom: int, ev: Option<ClientMessage>, xwinOf: int -> int): (r: Dispatched)
    ensures r.passOn
    ensures r.call.Some? <==>
      ev.Some? && ev.value.messageType == atom && FindByXwin(entries, ev.value.win, xwinOf).Some? &&
      LongToInt(ev.value.access) == 0 && entries[FindByXwin(entries, ev.value.win, xwinOf).value].callback != 0
    ensures r.call.Some? ==>
      var e := entries[FindByXwin(entries, ev.value.win, xwinOf).value];
      r.call.value == Call(e.callback, e.window, PermissionDenied, e.userData)
  {
    if ev.Nothing? || ev.value.messageType != atom then Dispatched(Nothing, true)
    else match FindByXwin(entries, ev.value.win, xwinOf)
      case Nothing => Dispatched(Nothing, true)
      case Some(i) =>
        var e := entries[i];
        if LongToInt(ev.value.access) == 0 && e.callback != 0 then
          Dispatched(Some(Call(e.callback, e.window, PermissionDenied, e.userData)), true)
        else Dispatched(Nothing, true)
  }

  // ---------------------------------------------------------------------------------
  // The module state, changed in place

  class CallbackRegistry {
    var entries: seq<Entry>
    var handlerInstalled: bool
    var count: int
    var atom: int

    function State(): RegistryState
      reads this
    {
      RegistryState(entries, handlerInstalled, count, atom)
    }

    predicate Valid()
      reads this
    {
      Consistent(State())
    }

    constructor ()
      ensures State() == INITIAL && Valid()
    {
      entries, handlerInstalled, count, atom := [], false, 0, 0;
    }

    /** _info_find: EINA_LIST_FOREACH comparing the window pointer. */
    method InfoFind(w: int) returns (r: Option<nat>)
      ensures r == Find(entries, w)
    {
      var i := 0;
      while i < |entries|
        invariant 0 <= i <= |entries|
        invariant forall k :: 0 <= k < i ==> entries[k].window != w
      {
        if entries[i].window == w {
          return Some(i);
        }
        i := i + 1;
      }
      return Nothing;
    }

    /** _find_by_xwin: EINA_LIST_FOREACH skipping null windows. */
    method InfoFindByXwin(xwin: int, xwinOf: int -> int) returns (r: Option<nat>)
      ensures r == FindByXwin(entries, xwin, xwinOf)
    {
      var i := 0;
      while i < |entries|
        invariant 0 <= i <= |entries|
        invariant forall k :: 0 <= k < i ==> !MatchesXwin(entries[k], xwin, xwinOf)
      {
        if entries[i].window != 0 {
          var tempXwin := xwinOf(entries[i].window);
          if xwin == tempXwin {
            return Some(i);
          }
        }
        i := i + 1;
      }
      return Nothing;
    }

    /** _info_add. */
    method InfoAdd(w: int, callback: int, userData: int, allocOk: bool) returns (ok: bool)
      requires Unique(entries)
      modifies this`entries
      ensures (entries, ok) == AddEntry(old(entries), w, callback, userData, allocOk)
    {
      var found := InfoFind(w);
      if found.Some? {
        entries := entries[..found.value] + entries[found.value + 1..];
      }
      if !allocOk {
        return false;
      }
      entries := entries + [Entry(w, callback, userData)];
      ok := true;
    }

    /** _info_del. */
    method InfoDel(w: int) returns (ok: bool)
      requires Unique(entries)
      modifies this`entries
      ensures (entries, ok) == DeleteEntry(old(entries), w)
    {
      var found := InfoFind(w);
      if found.Nothing? {
        return false;
      }
      entries := entries[..found.value] + entries[found.value + 1..];
      ok := true;
    }

    /** efl_util_set_..._error_cb. */
    method SetErrorCb(window: int, callback: int, userData: int, allocOk: bool, internedAtom: int, handlerOk: bool) returns (r: ErrorCode)
      requires Valid()
      modifies this
      ensures Valid()
      ensures (State(), r) == AfterSet(old(State()), window, callback, userData, allocOk, internedAtom, handlerOk)
    {
      if window == 0 {
        return InvalidParameter;
      }
      var ok := InfoAdd(window, callback, userData, allocOk);
      if !ok {
        return OutOfMemory;
      }
      if atom == 0 {
        atom := internedAtom;
      }
      if !handlerInstalled {
        handlerInstalled := handlerOk;
      }
      count := count + 1;
      r := None;
    }

    /** efl_util_unset_..._error_cb. */
    method UnsetErrorCb(window: int) returns (r: ErrorCode)
      requires Valid()
      modifies this
      ensures Valid()
      ensures (State(), r) == AfterUnset(old(State()), window)
    {
      if window == 0 {
        return InvalidParameter;
      }
      var ok := InfoDel(window);
      if !ok {
        return InvalidParameter;
      }
      count := count - 1;
      if count == 0 {
        if handlerInstalled {
          handlerInstalled := false;
        }
      }
      r := None;
    }

    /** _efl_util_client_message. */
    method ClientMessageHandler(ev: Option<ClientMessage>, xwinOf: int -> int) returns (r: Dispatched)
      ensures r == Dispatch(entries, atom, ev, xwinOf)
    {
      if ev.Nothing? {
        return Dispatched(Nothing, true);
      }
      if ev.value.messageType == atom {
        var found := InfoFindByXwin(ev.value.win, xwinOf);
        if found.Some? {
          var info := entries[found.value];
          var access := LongToInt(ev.value.access);
          if access == 0 {
            if info.callback != 0 {
              return Dispatched(Some(Call(info.callback, info.window, PermissionDenied, info.userData)), true);
            }
          }
        }
      }
      r := Dispatched(Nothing, true);
    }
  }
}
