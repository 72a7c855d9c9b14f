/**
 * The routine engine's data model: routines, their completion logs and the
 * closed enumerations they use, plus the application constants the core reads.
 */
module Types {
  import opened Text

  datatype TimeSlot = Morning | Afternoon | Evening | Night

  datatype Category = Exercise | Sleep | Meditation | Diet | Water | Skincare | Journal | Custom

  datatype FrequencyType = Daily | SpecificDays | WeeklyCount | MonthlyCount

  /**
   * A user-defined recurring task. `repeatType` and `repeatIntervalDays` are not
   * declared by the routine type but are read by the widget's repeat label, so
   * they are carried as optional, untyped (string / number) fields.
   */
  datatype Routine = Routine(
    id: string,
    title: string,
    description: Option<string>,
    icon: string,
    color: string,
    category: Category,
    timeSlot: TimeSlot,
    scheduledTime: Option<string>,
    frequencyType: FrequencyType,
    frequencyValue: string,
    durationMinutes: Option<int>,
    reminderEnabled: bool,
    reminderMinutesBefore: int,
    sortOrder: int,
    isActive: bool,
    isFromTemplate: bool,
    templateId: Option<string>,
    repeatType: Option<string>,
    repeatIntervalDays: Option<int>)

  /** One completion record; `dateKey` is the local day it is attributed to. */
  datatype RoutineLog = RoutineLog(
    id: string,
    routineId: string,
    completedAt: int,
    dateKey: string,
    moodScore: Option<int>,
    note: Option<string>)

  /** JavaScript truthiness of `routine.scheduledTime`: present and not the empty string. */
  predicate HasScheduledTime(r: Routine) {
    r.scheduledTime.Some? && r.scheduledTime.value != ""
  }

  // ---------------------------------------------------------------------------
  // Application constants
  // ---------------------------------------------------------------------------

  const AI_COACH_FREE_LIMIT: int := 3
  const STREAK_RESTORE_PREMIUM_LIMIT: int := 2
  const BLOOM_MAX_HEALTH: int := 100
  const BLOOM_GROWTH_PER_ROUTINE: int := 5
  const BLOOM_WATER_PER_ROUTINE: int := 2

  /** A wall-clock window `start`..`end` (inclusive, minutes of the day); night wraps past midnight. */
  datatype SlotWindow = SlotWindow(startHour: int, startMinute: int, endHour: int, endMinute: int)

  /** The TIME_SLOTS table. */
  function TimeSlotWindow(slot: TimeSlot): SlotWindow {
    match slot
    case Morning => SlotWindow(5, 0, 11, 59)
    case Afternoon => SlotWindow(12, 0, 16, 59)
    case Evening => SlotWindow(17, 0, 20, 59)
    case Night => SlotWindow(21, 0, 4, 59)
  }

  /** Whether a time of day lies in a window, wrapping past midnight when the window does. */
  predicate InWindow(w: SlotWindow, hour: int, minute: int) {
    var t, s, e := hour * 60 + minute, w.startHour * 60 + w.startMinute, w.endHour * 60 + w.endMinute;
    if s <= e then s <= t <= e else s <= t || t <= e
  }
}
