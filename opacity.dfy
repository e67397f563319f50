/** Window opacity hint: flag 0 asks the window manager for OPAQUE_STATE_OFF, flag 1 for
    OPAQUE_STATE_ON, through utilx on the window's X window. */
module Opacity {
  import opened Common

  /** Utilx_Opaque_State. */
  datatype OpaqueState = OpaqueOff | OpaqueOn

  /** The utilx state a flag asks for; any flag other than 0 and 1 asks for none. */
  function RequestedState(flag: int): (r: Option<OpaqueState>)
    ensures r.Some? <==> flag == 0 || flag == 1
    ensures r == Some(OpaqueOn) <==> flag == 1
    ensures r == Some(OpaqueOff) <==> flag == 0
  {
    if flag == 0 then Some(OpaqueOff)
    else if flag == 1 then Some(OpaqueOn)
    else Nothing
  }

  /** The flag that asks for a state. */
  function StateFlag(state: OpaqueState): (r: int)
    ensures r == 0 || r == 1
  {
    match state
    case OpaqueOff => 0
    case OpaqueOn => 1
  }

  /** The flags 0 and 1 and the two states correspond one to one. */
  lemma FlagStateRoundTrip(flag: int, state: OpaqueState)
    ensures RequestedState(StateFlag(state)) == Some(state)
    ensures flag == 0 || flag == 1 ==> StateFlag(RequestedState(flag).value) == flag
  {
  }

  /** efl_util_set_window_opaque_state - the result and the state requested from utilx, where
      `utilxResult` is what utilx_set_window_opaque_state returns (zero on failure). */
  function SetWindowOpaqueState(window: int, flag: int, utilxResult: int): (r: (ErrorCode, Option<OpaqueState>))
    ensures r.1 == (if window == 0 then Nothing else RequestedState(flag))
    ensures r.0 == None <==> window != 0 && (flag == 0 || flag == 1) && utilxResult != 0
    ensures r.0 != None ==> r.0 == InvalidParameter
  {
    if window == 0 then (InvalidParameter, Nothing)
    else match RequestedState(flag)
      case Nothing => (InvalidParameter, Nothing)
      case Some(state) => (if utilxResult == 0 then InvalidParameter else None, Some(state))
  }
}
