/** Storage key names, reminder delays and kiosk keywords shared by the components. */
module AppConstants {

  const NotificationPermissionKey: string := "notificationPermissionRequested"
  const LastAppOpenKey: string := "lastAppOpenTimestamp"
  const InactivityNotificationIdKey: string := "inactivityNotificationId"
  const SimulatorEnabledKey: string := "@connection_simulator_enabled"
  const SimulatedStateKey: string := "@connection_simulated_state"
  const MediaProgressPrefix: string := "@media_progress_"
  const CourseProgressPrefix: string := "course_progress_"
  const LessonReminderPrefix: string := "lesson_reminder_"

  /** 48 hours, in seconds. */
  const InactivityReminderSeconds: int := 48 * 60 * 60
  /** 24 hours, in seconds. */
  const LessonContinuationReminderSeconds: int := 24 * 60 * 60

  const KioskSsidKeywords: seq<string> := ["ecole", "school", "kiosk"]
}
