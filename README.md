# Offline-learning app core, modelled in Dafny

This project models the non-UI core of a React Native learning app for
students who download courses and books at a school kiosk and study offline.
It covers five units of the app:

- **Course completion tracker** (`course_completion_tracker.dfy`): one
  progress record per course. Completed lesson ids are appended without
  duplicates. The first call that finds the course complete sends one
  completion notification and sets `notificationSent`.
- **Media progress storage** (`progress_storage.dfy`): the playback or reading
  position of each lesson, stored under `@media_progress_<lessonId>`. It can be
  listed and cleared in bulk.
- **Notification service** (`notification_service.dfy`, on top of the
  platform model in `notifications.dfy`): the first-launch permission prompt,
  one 48-hour inactivity reminder, one 24-hour continuation reminder per
  lesson, and the immediate course-completion notice. Each reminder's platform
  handle is kept in a store key (its *slot*), so the reminder can be cancelled
  before a new one is scheduled.
- **Connection simulator** (`connection_simulator.dfy`): the kiosk
  connectivity gate. The app is online when a real Wi-Fi probe sees an SSID
  containing "ecole", "school" or "kiosk" in any letter case. A persisted
  developer switch can replace that verdict with a simulated state.
- **Storage usage estimator** (`storage_utils.dfy`): it parses lesson sizes
  such as "25 MB" or "1.5 GB" and sums courses plus 5 MB per book. It relates
  the total to a fixed 32 GB device, giving the unit shown (Ko, Mo or Go), a
  usage percentage capped at 100, and free space that is never negative.

Supporting modules: `key_value.dfy` models the device key-value store.
`types.dfy` holds the app's records, `app_constants.dfy` its keys and
intervals, `decimal.dfy` decimal digit strings, `js_math.dfy` `Math.round`,
and `wrappers.dfy` Option and Result.

The store is a class whose `entries` map is updated in place. Its `healthy`
flag stands for a store whose calls all reject with an I/O error. Every
operation models its error path against such a store. The notification
platform is a class too. It holds the permission status, the pending reminders
by handle, the notifications already shown, and a counter that issues fresh
handles. The simulator's three flags are fields of a class, as the React
state they model. The estimator and the decisions of the tracker are pure
functions. Each stateful operation is a method proved against those
functions.

Main properties proved:

- over any run of `markLessonCompleted` calls, the completion notification is
  sent at most once, and never again once the record is flagged;
- marking distinct lessons against a fixed lesson count sends it exactly once
  when the run crosses the count, and never otherwise;
- completed lessons are only appended and never duplicated;
- the completion percentage is within 0.5 of the exact share (an exact real;
  see "Left out" for the double rounding it does not capture), and lies in
  [0, 100] when no more lessons than the total are completed; the app itself
  can show more than 100%: marking "l1" and then "l2" against a count of 1
  gives 200;
- while the store accepts writes, every pending reminder is the one its slot
  names, so at most one reminder of each kind is pending;
- a handle the platform issues is always fresh, which follows from the decimal
  round trip `DigitsValue(NatToString(n)) == n`;
- saving progress reaches only its own lesson, and the last write wins;
- listing all progress fails exactly when some prefixed value is malformed;
  otherwise it yields every stored record, one per key;
- the kiosk verdict holds iff the probe is Wi-Fi, connected, and its SSID
  contains a keyword; letter case does not matter;
- a persisted simulator flag reads back as written;
- a written size parses back to its value, GB times 1024, whatever the unit's
  case;
- sizes add up over concatenated lesson and course lists;
- `formatSize` chooses its unit exactly by the thresholds 1 MB and 1024 MB and
  rounds to the nearest unit.

Two behaviours of the app are worth stating plainly:

- the simulator flags start `false` (`useState(false)`,
  ConnectionSimulatorContext.tsx:19-21);
- `getAllProgress` returns an empty list when any prefixed entry fails to
  parse (progressStorage.ts:62-67): the exception aborts the whole read, so
  bad entries are not skipped.

## Model

| member | source | states |
|---|---|---|
| KeyValue.AsText | utils/progressStorage.ts:34 | a stored record reads as a non-empty, non-numeric string, so it is truthy and never a handle |
| KeyValue.HasPrefix | utils/progressStorage.ts:60 | a string that starts with the prefix is the prefix followed by the rest of the string |
| KeyValue.HasPrefixOfConcat | utils/progressStorage.ts:60 | a key built as prefix plus id starts with the prefix |
| KeyValue.PrefixedKeyInjective | utils/progressStorage.ts:19 | keys built on one prefix are equal only for equal ids |
| KeyValue.Store.GetItem | utils/progressStorage.ts:33 | a healthy store answers the value under the key or null; a rejecting one fails |
| KeyValue.Store.SetItem | utils/progressStorage.ts:20 | a healthy store maps the key to the value and changes nothing else; a rejecting one changes nothing and fails |
| KeyValue.Store.RemoveItem | utils/progressStorage.ts:47 | a healthy store drops the key and changes nothing else; a rejecting one fails |
| KeyValue.Store.GetAllKeys | utils/progressStorage.ts:59 | every stored key, exactly once each |
| KeyValue.Store.MultiGet | utils/progressStorage.ts:61 | the value (or null) under each requested key, in request order |
| KeyValue.Store.MultiRemove | utils/progressStorage.ts:78 | drops exactly the listed keys |
| ProgressStorage.Decode | utils/progressStorage.ts:34 | a value decodes to a record iff it is a media record; only the empty string (falsy) gives null; anything else is a parse failure |
| ProgressStorage.ProgressAt | utils/progressStorage.ts:30-34 | the lesson's record iff its key holds a value that decodes to a record, and that record is the stored one |
| ProgressStorage.OtherLessonUnaffected | utils/progressStorage.ts:17-25 | writing one key leaves every other lesson's progress as it was |
| ProgressStorage.SaveReachesOnlyItsLesson | utils/progressStorage.ts:17-25 | saving a lesson's progress changes no other lesson's progress |
| ProgressStorage.LastWriteWins | utils/progressStorage.ts:17-25 | two saves for one lesson leave the second record |
| ProgressStorage.FilterPrefixed | utils/progressStorage.ts:60 | keeps exactly the keys starting with the prefix, and stays duplicate-free |
| ProgressStorage.LookupAll | utils/progressStorage.ts:61 | one answer per key, position by position |
| ProgressStorage.DecodeAll | utils/progressStorage.ts:62-64 | fails iff some value is malformed; otherwise holds exactly the records read, one per record value |
| ProgressStorage.RecordsAmongSplit | utils/progressStorage.ts:60-64 | the keys holding a record among a list are those of its tail plus its head when the head holds one |
| ProgressStorage.CountRecordsOfKeys | utils/progressStorage.ts:60-64 | over distinct keys, the records read equal the keys holding a record |
| ProgressStorage.DecodeFailsIffMalformed | utils/progressStorage.ts:57-68 | decoding the prefixed values fails exactly when some prefixed value is malformed |
| ProgressStorage.DecodedAreStoredRecords | utils/progressStorage.ts:57-68 | a successful decode yields exactly the stored lesson records |
| ProgressStorage.DecodedIsStored | utils/progressStorage.ts:57-68 | every decoded record is some lesson's stored record |
| ProgressStorage.StoredIsDecoded | utils/progressStorage.ts:57-68 | every lesson's stored record is among the decoded ones |
| ProgressStorage.DecodedCountsRecordKeys | utils/progressStorage.ts:57-68 | a successful decode yields one record per key holding one |
| ProgressStorage.SaveProgress | utils/progressStorage.ts:17-25 | stores the record under its lesson's key; fails iff the store rejects, then nothing changes |
| ProgressStorage.GetProgress | utils/progressStorage.ts:30-39 | the lesson's record; null when absent, empty, unparseable or the store rejects |
| ProgressStorage.DeleteProgress | utils/progressStorage.ts:44-52 | removes the lesson's key only; fails iff the store rejects |
| ProgressStorage.GetAllProgress | utils/progressStorage.ts:57-69 | empty on rejection or any malformed entry; otherwise exactly the stored records, one per prefixed key |
| ProgressStorage.ClearAllProgress | utils/progressStorage.ts:74-83 | removes every prefixed key and no other key; fails iff the store rejects |
| Notifications.Platform.GetPermissions | utils/notificationService.ts:104 | reads the current permission status without prompting |
| Notifications.Platform.RequestPermissions | utils/notificationService.ts:30 | the answer becomes the permission; one more prompt |
| Notifications.Platform.Schedule | utils/notificationService.ts:113-125 | a fresh handle, not pending before, now pending with the reminder and delay |
| Notifications.Platform.Present | utils/notificationService.ts:163-171 | appends the notice to the shown notifications |
| Notifications.Platform.Cancel | utils/notificationService.ts:144 | removes the handle from the pending reminders; an unknown handle is ignored |
| NotificationService.SlotHandle | utils/notificationService.ts:141-143 | a slot names a handle iff its key holds a truthy string, and that string is the handle |
| NotificationService.SlotOfInjective | utils/notificationService.ts:212 | different reminders are tracked under different keys: each lesson has its own key, and none is the inactivity key of line 128 |
| NotificationService.AtMostOnePerReminder | utils/notificationService.ts:109-110 | while reminders are tracked, no two pending notifications remind of the same thing |
| NotificationService.FlagsAreNotSlots | utils/notificationService.ts:6-8 | the first-launch flag and the timestamp key are never reminder slots |
| NotificationService.TrackedAfterFlagWrite | utils/notificationService.ts:68 | writing the flag or timestamp keeps every pending reminder named by its slot |
| NotificationService.TrackedAfterCancel | utils/notificationService.ts:143-146 | cancelling a slot's handle and emptying the slot keeps reminders tracked |
| NotificationService.TrackedAfterSchedule | utils/notificationService.ts:110-128 | storing a fresh handle in a cancelled slot keeps reminders tracked |
| NotificationService.RequestNotificationPermissions | utils/notificationService.ts:24-54 | prompts only when not already granted; answers true iff the final status is granted |
| NotificationService.CancelSlot | utils/notificationService.ts:141-146 | cancels the handle a slot names and empties the slot, and keeps the platform's handles valid; nothing happens without a handle or with a rejecting store |
| NotificationService.CancelInactivityReminder | utils/notificationService.ts:139-151 | cancels the handle the slot names and empties the slot; nothing happens without a handle or with a rejecting store |
| NotificationService.ReplaceSlotReminder | utils/notificationService.ts:109-128 | cancels the slot's reminder, schedules a fresh one and stores its handle; with a rejecting store the new reminder is pending but untracked |
| NotificationService.ScheduleInactivityReminder | utils/notificationService.ts:101-134 | without permission nothing changes; with it, exactly one fresh 48-hour reminder replaces the slot's old one |
| NotificationService.CheckAndRequestNotificationPermissionsOnFirstLaunch | utils/notificationService.ts:59-79 | acts only while the flag is unset; prompts, sets the flag, and schedules the inactivity reminder iff granted; every other key and every pending reminder but the slot's old one are kept |
| NotificationService.UpdateLastAppOpenTimestamp | utils/notificationService.ts:85-96 | records the time, then the slot holds a fresh reminder when permitted and is empty otherwise; every other key and every pending reminder but the slot's old one are kept |
| NotificationService.InitializeNotificationService | utils/notificationService.ts:241-251 | afterwards the flag and timestamp are stored, and with permission the slot names a pending 48-hour reminder; every key other than the flag, the timestamp and the slot keeps its value, and every reminder pending before, except the one the slot named, is still pending unchanged |
| NotificationService.SendCourseCompletionNotification | utils/notificationService.ts:156-177 | shows one completion notice iff permission is granted |
| NotificationService.ScheduleLessonContinuationReminder | utils/notificationService.ts:182-218 | replaces this lesson's 24-hour reminder; no other lesson's slot changes |
| NotificationService.CancelLessonContinuationReminder | utils/notificationService.ts:223-235 | cancels and clears this lesson's reminder only; no-op without a handle |
| JsMath.Round | utils/courseCompletionTracker.ts:127 | the integer nearest to x, halves rounded up |
| CourseCompletionTracker.CourseAt | utils/courseCompletionTracker.ts:12-18 | the course's record iff its key holds a course record, and that record is the stored one |
| CourseCompletionTracker.Loaded | utils/courseCompletionTracker.ts:61-73 | the stored record when there is one; otherwise a fresh record for the caller's course, name and lesson count, with no lesson done and no notice sent |
| CourseCompletionTracker.MarkLesson | utils/courseCompletionTracker.ts:61-95 | a repeated lesson writes nothing; a new one is appended, the record is otherwise kept, completion is measured against the caller's count, and the notice goes out iff complete and not yet flagged |
| CourseCompletionTracker.CompletionPercentage | utils/courseCompletionTracker.ts:121-132 | 0 without a record or lessons; otherwise within 0.5 of the completed share taken as an exact real, in [0, 100] when no more lessons than the total are completed |
| CourseCompletionTracker.ShareInRange | utils/courseCompletionTracker.ts:127 | the rounded share of at most all lessons is between 0 and 100 |
| CourseCompletionTracker.NotifiesAtMostOnce | utils/courseCompletionTracker.ts:83-87 | any run of calls notifies at most once, and never once flagged; the flag stays up |
| CourseCompletionTracker.ReplayOnlyAppends | utils/courseCompletionTracker.ts:76-77 | a run of calls only appends lessons and never creates a duplicate |
| CourseCompletionTracker.NotifiesWhenCrossing | utils/courseCompletionTracker.ts:76-87 | distinct new lessons against a fixed count notify exactly once if the run reaches the count, else never |
| CourseCompletionTracker.NotifiesExactlyOnce | utils/courseCompletionTracker.ts:54-100 | starting with no record, marking at least `n` distinct lessons against `n` notifies exactly once |
| CourseCompletionTracker.GetCourseProgress | utils/courseCompletionTracker.ts:12-23 | the stored course record; null when absent, unparseable or the store rejects |
| CourseCompletionTracker.InitializeCourseProgress | utils/courseCompletionTracker.ts:28-49 | writes a fresh zero-progress record only when none can be read; never overwrites one |
| CourseCompletionTracker.MarkLessonCompleted | utils/courseCompletionTracker.ts:54-100 | performs the decision of `MarkLesson`: saves its record, shows its notice when permitted, answers completion; answers false when the store rejects |
| CourseCompletionTracker.IsLessonCompleted | utils/courseCompletionTracker.ts:105-116 | true iff a readable record lists the lesson |
| CourseCompletionTracker.GetCourseCompletionPercentage | utils/courseCompletionTracker.ts:121-132 | the completion percentage of the record read; 0 when none |
| CourseCompletionTracker.OverCountedPercentage | utils/courseCompletionTracker.ts:121-132 | the percentage is not capped at 100: lessons "l1" and "l2" marked against a count of 1 read back as 200 |
| CourseCompletionTracker.ResetCourseProgress | utils/courseCompletionTracker.ts:137-143 | deletes this course's record; every other course's record is unchanged |
| CourseCompletionTracker.TwoLessonWalkthrough | utils/courseCompletionTracker.ts:54-132 | a two-lesson course: "l1" gives false and 50%, "l1" again gives false and changes nothing, "l2" gives true, 100% and one notice |
| ConnectionSimulatorContext.LowerChar | contexts/ConnectionSimulatorContext.tsx:56 | upper-case ASCII letters and the Kelvin sign map to lower-case ASCII; other characters are kept |
| ConnectionSimulatorContext.Lower | contexts/ConnectionSimulatorContext.tsx:56 | `toLowerCase`: same length, each character lower-cased on its own |
| ConnectionSimulatorContext.Includes | contexts/ConnectionSimulatorContext.tsx:56-58 | true iff the keyword occurs somewhere in the text |
| ConnectionSimulatorContext.IsKioskSsid | contexts/ConnectionSimulatorContext.tsx:55-59 | true iff the lower-cased SSID contains "ecole", "school" or "kiosk"; never for an empty SSID |
| ConnectionSimulatorContext.LowerIdempotent | contexts/ConnectionSimulatorContext.tsx:56 | lower-casing twice is lower-casing once |
| ConnectionSimulatorContext.KioskSsidIgnoresCase | contexts/ConnectionSimulatorContext.tsx:55-59 | an SSID and its lower-cased text get the same verdict |
| ConnectionSimulatorContext.ProbeVerdict | contexts/ConnectionSimulatorContext.tsx:50-67 | online iff the probe succeeded, is Wi-Fi, is connected and reports a kiosk SSID |
| ConnectionSimulatorContext.LoadedFlag | contexts/ConnectionSimulatorContext.tsx:32-38 | a stored value replaces the flag and is true iff it is exactly "true"; no value keeps the flag |
| ConnectionSimulatorContext.FlagText | contexts/ConnectionSimulatorContext.tsx:88 | `toString` of a flag is "true" exactly for true |
| ConnectionSimulatorContext.FlagRoundTrip | contexts/ConnectionSimulatorContext.tsx:88 | a flag persisted as text loads back as itself |
| ConnectionSimulatorContext.ConnectionSimulator.constructor | contexts/ConnectionSimulatorContext.tsx:19-21 | all three flags start false |
| ConnectionSimulatorContext.ConnectionSimulator.IsConnectedToKiosk | contexts/ConnectionSimulatorContext.tsx:105 | the simulated state while simulating, the real state otherwise |
| ConnectionSimulatorContext.ConnectionSimulator.LoadSimulatorSettings | contexts/ConnectionSimulatorContext.tsx:24-45 | each stored flag replaces the current one; a rejecting store changes nothing |
| ConnectionSimulatorContext.ConnectionSimulator.CheckRealKioskConnection | contexts/ConnectionSimulatorContext.tsx:48-69 | the real state becomes the probe's verdict; while simulating, the effective state does not change |
| ConnectionSimulatorContext.ConnectionSimulator.ToggleSimulator | contexts/ConnectionSimulatorContext.tsx:84-92 | flips the switch and persists it so that it loads back as the new value; a rejected write is ignored |
| ConnectionSimulatorContext.ConnectionSimulator.SetSimulatedConnectionState | contexts/ConnectionSimulatorContext.tsx:95-102 | sets the simulated state and persists it so that it loads back as set |
| StorageUtils.IsSpace | utils/storageUtils.ts:19 | the characters `\s` matches; none is a digit, the decimal point or a unit letter |
| StorageUtils.RunLength | utils/storageUtils.ts:19 | the greedy run of digits or spaces from a position stays inside the string |
| StorageUtils.RunLengthMaximal | utils/storageUtils.ts:19 | the run is all of the class and the next character is not |
| StorageUtils.MatchAt | utils/storageUtils.ts:19 | a match found at a position starts there, its number spans lie inside the string, and a fraction, when present, follows a decimal point |
| StorageUtils.MatchAtDigits | utils/storageUtils.ts:19 | a match captures a non-empty run of digits and a run of fraction digits |
| StorageUtils.NumberValue | utils/storageUtils.ts:25 | `parseFloat` of the captured digits: at least the integer part and below it plus one, exactly it without a fraction |
| StorageUtils.FractionBelowOne | utils/storageUtils.ts:25 | fraction digits divided by their scale fall in [0, 1) |
| StorageUtils.InMB | utils/storageUtils.ts:26-31 | a size in MB or GB, converted to megabytes, is never negative for a non-negative value |
| StorageUtils.ParseSizeToMB | utils/storageUtils.ts:17-36 | never negative; 0 when no position starts a match |
| StorageUtils.ParseTakesLeftmost | utils/storageUtils.ts:19-31 | the size parsed is the value the leftmost match reads, GB times 1024 |
| StorageUtils.RenderedMatch | utils/storageUtils.ts:19 | a written size matches at its start, taking the whole digits, the fraction and the unit (GB in any case) |
| StorageUtils.ParseMatchAtStart | utils/storageUtils.ts:19-31 | a string that starts with a match parses to that match's value |
| StorageUtils.ParseRenderedSize | utils/storageUtils.ts:17-36 | a written size (digits, optional fraction, spaces, MB or GB in any case) parses back to its value, GB times 1024 |
| StorageUtils.NoDigitNoSize | utils/storageUtils.ts:20-23 | a string without a digit weighs 0 |
| StorageUtils.ParseGarbageExample | utils/storageUtils.ts:20-23 | "garbage" weighs 0 |
| StorageUtils.LessonsSizeMB | utils/storageUtils.ts:41-45 | the summed lesson sizes are never negative |
| StorageUtils.LessonsSizeAppend | utils/storageUtils.ts:41-45 | the size of two lesson lists together is the sum of their sizes |
| StorageUtils.CalculateCourseSizeMB | utils/storageUtils.ts:41-45 | a course weighs at least 0, and exactly 0 without lessons |
| StorageUtils.CalculateTotalCoursesSizeMB | utils/storageUtils.ts:50-54 | the summed course sizes are never negative |
| StorageUtils.CoursesSizeAppend | utils/storageUtils.ts:50-54 | the size of two course lists together is the sum of their sizes |
| StorageUtils.CalculateTotalBooksSizeMB | utils/storageUtils.ts:59-63 | every book counts 5 MB |
| StorageUtils.CalculateTotalDownloadedSizeMB | utils/storageUtils.ts:68-75 | courses plus books; never below the books' share or 0 |
| StorageUtils.FormatSize | utils/storageUtils.ts:80-88 | Ko iff below 1 MB, Mo iff from 1 MB to below 1024 MB, Go from 1024 MB on; the number shown is the nearest integer in Ko or Mo, the exact quotient in Go |
| StorageUtils.CalculateStorageUsagePercentage | utils/storageUtils.ts:93-96 | the share of 32768 MB times 100, capped at 100; never negative for a non-negative size |
| StorageUtils.FreeSpaceMB | utils/storageUtils.ts:112-113 | 32768 MB minus the used size, never below 0 |
| StorageUtils.GetStorageStatus | utils/storageUtils.ts:110-126 | used size, its format, 32 GB shown as "32 Go", capped usage in [0, 100], and the format of the free space |
| StorageUtils.FullDeviceStatus | utils/storageUtils.ts:93-126 | a device filled to 32 GB or more shows 0 Ko free and 100% usage |

## Left out

- The screens, components, hooks, navigation, the logger, the build scripts, and the rest of the app outside the five units. They are not part of this model.
- JSON serialisation. Records are stored as the records themselves. A non-empty string under a record key stands for text that `JSON.parse` rejects. Text that parses to some other JSON value (`"null"`, `"5"`, an object of another shape) is not distinguished from rejected text, and neither is a record of the other kind (a course record under a media key, or the reverse). The lines below say where the app then behaves differently from the model.
- ProgressStorage.GetProgress: for such a value the app returns what `JSON.parse` gives (progressStorage.ts:34); the model answers null.
- ProgressStorage.GetAllProgress: for such a value the app keeps what `JSON.parse` gives, or drops it when it is null (progressStorage.ts:63-64); the model returns an empty list.
- CourseCompletionTracker.GetCourseProgress: for such a value the app returns what `JSON.parse` gives (courseCompletionTracker.ts:16); the model answers null.
- CourseCompletionTracker.InitializeCourseProgress: for such a value, when truthy, the app keeps it (courseCompletionTracker.ts:35); the model overwrites it with a fresh record.
- CourseCompletionTracker.MarkLessonCompleted: for such a value, when truthy, the app goes on with it and answers false once a missing `completedLessons` field throws (courseCompletionTracker.ts:76, 96-98); the model starts from a fresh record.
- CourseCompletionTracker.CompletionPercentage: the share is an exact real, not an IEEE double. Where the double product `(completed / total) * 100` (courseCompletionTracker.ts:127) lies just below a half, `Math.round` gives one less than the model. For 23 of 40 lessons the double is 57.49999999999999, so the app shows 57 and the model 58; 29 of 200 (14 against 15) and 57 of 200 (28 against 29) behave the same way.
- StorageUtils.MatchAt: the regular expression is read greedily at each start. That backtracking finds no other match from the same start is argued from `IsSpace`'s contract (spaces are not digits, points or unit letters) and from `RunLengthMaximal`; a general regular-expression semantics is not modelled, so the argument is not a proof.
- Clock readings (`new Date()`) and the user's answer to the permission prompt are parameters (`now`, `answer`). Timestamps are opaque strings.
- Concurrency and asynchrony. Each `await` is a sequential step. `Promise.all` in the simulator's loader is two reads; if either fails, nothing is set. The network subscription (ConnectionSimulatorContext.tsx:71-81), React re-rendering and the context hook (ConnectionSimulatorContext.tsx:122-128) are not modelled.
- Failures of the notification platform and of the network probe call are not modelled, apart from the probe's error path. Store failures are all-or-nothing: a store either answers every call or rejects every call. A store that answers a read and then rejects a write is not modelled.
- Notification titles, bodies, sound, priority and the `lessonName` text are left out. The Android channel setup (notificationService.ts:40-47) and the display handler (notificationService.ts:11-19) are left out too. Only the kind of each reminder, its delay and its handle are kept.
- `getAllScheduledNotifications` and the test functions (notificationService.ts:253-363) are debug helpers; they are left out.
- Handles are the decimal renderings of a counter. Real handles are opaque strings; only their freshness matters here.
- StorageUtils.ParseSizeToMB: sizes are exact reals, not IEEE doubles. `parseFloat` of very long digit runs and its rounding are not modelled.
- StorageUtils.FormatSize: the two-decimal text that `toFixed(2)` prints for gigabytes, and the text around the numbers, are not modelled. The value before formatting is stated instead.
- White space is the set of characters JavaScript's `\s` matches. The case-insensitive unit match covers ASCII letters only, since no other character folds to M, G or B.
- ConnectionSimulatorContext.LowerChar: `toLowerCase` is modelled for ASCII letters and the Kelvin sign, the one other character that lower-cases to an ASCII letter. Other characters are kept as they are. The verdict is the same: the Turkish dotted capital I lower-cases to "i" plus a combining dot, and no keyword contains an "i" followed by that dot.
- `markLessonCompleted` can send the notice and then fail to save, so that the next call sends it again. The re-send after a stored record was read and the write then failed is not modelled: that needs a store that answers the read and rejects the write, and the store here accepts or rejects every call. A rejecting store does show the re-send for courses of at most one lesson: each call starts from a fresh record, shows the notice, has its save rejected and answers false.
