/** Notification window levels: the public level enum set on, and read back from, a
    notification-type window through the utilx notification level and priority properties.
    The permission-error callbacks of this module are a CallbackRegistry, whose access-result
    atom is the one named "_E_NOTIFICATION_LEVEL_ACCESS_RESULT". */
module Notification {
  import opened Common

  /** efl_util_notification_level_e; OtherLevel is any value that is none of the named ones. */
  datatype NotificationLevel =
    | Level1 | Level2 | Level3
    | LevelNone | LevelDefault | LevelMedium | LevelHigh | LevelTop
    | OtherLevel(raw: int)

  /** Utilx_Notification_Level. */
  datatype UtilxLevel = UtilxLow | UtilxNormal | UtilxHigh | OtherUtilxLevel(raw: int)

  /** Utilx_Notification_Priority. */
  datatype UtilxPriority =
    | PriorityNone | PriorityDefault | PriorityMedium | PriorityHigh | PriorityTop
    | PriorityUnknown
    | OtherPriority(raw: int)

  /** The one property write a successful set makes. */
  datatype LevelWrite = WriteLevel(level: UtilxLevel) | WritePriority(priority: UtilxPriority)

  /** The answer of ecore_x_netwm_window_type_get: Nothing when the query fails, otherwise
      whether the type is ECORE_X_WINDOW_TYPE_NOTIFICATION. */
  type WindowTypeAnswer = Option<bool>

  predicate NamedLevel(level: NotificationLevel)
  {
    !level.OtherLevel?
  }

  predicate IsNotificationWindow(windowType: WindowTypeAnswer)
  {
    windowType == Some(true)
  }

  /** The level table: levels 1-3 become utilx levels, the others their same-named priority. */
  function LevelTable(level: NotificationLevel): (r: Option<LevelWrite>)
    ensures r.Nothing? <==> level.OtherLevel?
  {
    match level
    case Level1 => Some(WriteLevel(UtilxLow))
    case Level2 => Some(WriteLevel(UtilxNormal))
    case Level3 => Some(WriteLevel(UtilxHigh))
    case LevelDefault => Some(WritePriority(PriorityDefault))
    case LevelMedium => Some(WritePriority(PriorityMedium))
    case LevelHigh => Some(WritePriority(PriorityHigh))
    case LevelTop => Some(WritePriority(PriorityTop))
    case LevelNone => Some(WritePriority(PriorityNone))
    case OtherLevel(_) => Nothing
  }

  /** efl_util_set_notification_window_level: the result and the write it makes.  The window
      type is checked before the level is looked at. */
  function SetNotificationLevel(window: int, windowType: WindowTypeAnswer, level: NotificationLevel): (r: (ErrorCode, Option<LevelWrite>))
    ensures window == 0 ==> r == (InvalidParameter, Nothing)
    ensures window != 0 && !IsNotificationWindow(windowType) ==> r == (NotSupportedWindowType, Nothing)
    ensures r.1.Some? <==> r.0 == None
    ensures r.0 == None <==> window != 0 && IsNotificationWindow(windowType) && NamedLevel(level)
    ensures window != 0 && IsNotificationWindow(windowType) && level.OtherLevel? ==> r.0 == InvalidParameter
    ensures r.1.Some? ==> r.1 == LevelTable(level)
  {
    if window == 0 then (InvalidParameter, Nothing)
    else if windowType.Nothing? || !windowType.value then (NotSupportedWindowType, Nothing)
    else match LevelTable(level)
      case Nothing => (InvalidParameter, Nothing)
      case Some(w) => (None, Some(w))
  }

  /** efl_util_get_notification_window_level: a known priority maps back to its level; an
      UNKNOWN priority falls back to the utilx level.  `utilxLevel` is only consulted then. */
  function GetNotificationLevel(window: int, windowType: WindowTypeAnswer, priority: UtilxPriority, utilxLevel: UtilxLevel): (r: (ErrorCode, Option<NotificationLevel>))
    ensures window == 0 ==> r == (InvalidParameter, Nothing)
    ensures window != 0 && !IsNotificationWindow(windowType) ==> r == (NotSupportedWindowType, Nothing)
    ensures r.1.Some? <==> r.0 == None
    ensures r.1.Some? ==> NamedLevel(r.1.value)
    ensures !priority.PriorityUnknown? && r.1.Some? ==> LevelTable(r.1.value) == Some(WritePriority(priority))
    ensures priority.PriorityUnknown? && r.1.Some? ==> LevelTable(r.1.value) == Some(WriteLevel(utilxLevel))
    ensures window != 0 && IsNotificationWindow(windowType) && priority.OtherPriority? ==> r.0 == InvalidParameter
    ensures window != 0 && IsNotificationWindow(windowType) && priority.PriorityUnknown? && utilxLevel.OtherUtilxLevel? ==> r.0 == InvalidParameter
  {
    if window == 0 then (InvalidParameter, Nothing)
    else if windowType.Nothing? || !windowType.value then (NotSupportedWindowType, Nothing)
    else match priority
      case PriorityDefault => (None, Some(LevelDefault))
      case PriorityMedium => (None, Some(LevelMedium))
      case PriorityHigh => (None, Some(LevelHigh))
      case PriorityTop => (None, Some(LevelTop))
      case PriorityNone => (None, Some(LevelNone))
      case PriorityUnknown =>
        (match utilxLevel
         case UtilxLow => (None, Some(Level1))
         case UtilxNormal => (None, Some(Level2))
         case UtilxHigh => (None, Some(Level3))
         case OtherUtilxLevel(_) => (InvalidParameter, Nothing))
      case OtherPriority(_) => (InvalidParameter, Nothing)
  }

  /** What the window reports back after a write: a written priority is read as that
      priority; after a level write the priority reads UNKNOWN and the level is the written one. */
  function Readback(w: LevelWrite, priorBefore: UtilxLevel): (UtilxPriority, UtilxLevel)
  {
    match w
    case WritePriority(p) => (p, priorBefore)
    case WriteLevel(l) => (PriorityUnknown, l)
  }

  /** Round trip: get after a successful set on the same window yields the level set, when
      the window reports back what was written. */
  lemma SetThenGet(window: int, level: NotificationLevel, utilxLevel: UtilxLevel)
    requires window != 0 && NamedLevel(level)
    ensures SetNotificationLevel(window, Some(true), level).0 == None
    ensures var w := SetNotificationLevel(window, Some(true), level).1.value;
            var (p, l) := Readback(w, utilxLevel);
            GetNotificationLevel(window, Some(true), p, l) == (None, Some(level))
  {
  }

  /** Distinct named levels make distinct writes, so the set table can be inverted. */
  lemma LevelTableInjective(a: NotificationLevel, b: NotificationLevel)
    requires NamedLevel(a) && NamedLevel(b) && a != b
    ensures LevelTable(a) != LevelTable(b)
  {
  }
}
