/**
 * Notification scheduling on top of the platform: permission gating, the
 * first-launch prompt, one inactivity reminder slot and one continuation
 * reminder slot per lesson. A slot is a store key holding the platform handle
 * of the reminder it tracks, so that the reminder can be cancelled before a
 * new one is scheduled. Every failure is swallowed: an operation that meets a
 * rejecting store stops where the rejection happens.
 */
module NotificationService {
  import opened Wrappers
  import opened KeyValue
  import opened Notifications
  import opened Decimal
  import AppConstants

  const PermissionKey := AppConstants.NotificationPermissionKey
  const LastAppOpenKey := AppConstants.LastAppOpenKey
  const InactivityKey := AppConstants.InactivityNotificationIdKey

  function LessonReminderKey(lessonId: string): string {
    AppConstants.LessonReminderPrefix + lessonId
  }

  /** The store key that tracks a reminder of this kind. */
  function SlotOf(r: Reminder): string {
    match r
    case Inactivity => InactivityKey
    case LessonContinuation(lessonId) => LessonReminderKey(lessonId)
  }

  /** The key holds a truthy string (present and not ""). */
  predicate Truthy(entries: map<string, Value>, key: string) {
    key in entries && AsText(entries[key]) != ""
  }

  /** The handle a slot names, as `if (notificationId)` reads it. */
  function SlotHandle(entries: map<string, Value>, key: string): (r: Option<string>)
    ensures r.Some? <==> Truthy(entries, key)
    ensures r.Some? ==> r.value != "" && (entries[key].Text? ==> entries[key] == Text(r.value))
  {
    if Truthy(entries, key) then Some(AsText(entries[key])) else None
  }

  /** Pending notifications once the slot's handle has been cancelled. */
  function WithoutSlot(pending: map<string, Pending>, entries: map<string, Value>, key: string): map<string, Pending> {
    match SlotHandle(entries, key)
    case None => pending
    case Some(h) => pending - {h}
  }

  /** The store once the slot has been emptied (a falsy value is left alone). */
  function ClearSlot(entries: map<string, Value>, key: string): map<string, Value> {
    if Truthy(entries, key) then entries - {key} else entries
  }

  /**
   * Every pending reminder is the one its slot names. Then cancel-before-
   * schedule keeps at most one pending reminder per slot.
   */
  ghost predicate RemindersTracked(entries: map<string, Value>, pending: map<string, Pending>) {
    forall h :: h in pending ==> SlotHandle(entries, SlotOf(pending[h].reminder)) == Some(h)
  }

  /** `key` holds in `entries'` what it held in `entries`. */
  predicate KeptKey(entries: map<string, Value>, entries': map<string, Value>, key: string) {
    Get(entries', key) == Get(entries, key)
  }

  /** Every key outside `touched` holds what it held before. */
  ghost predicate KeepsOtherKeys(entries: map<string, Value>, entries': map<string, Value>, touched: set<string>) {
    forall k {:trigger KeptKey(entries, entries', k)} :: k !in touched ==> KeptKey(entries, entries', k)
  }

  /** If `h` was pending in `pending`, it is still pending in `pending'`, unchanged. */
  predicate KeptReminder(pending: map<string, Pending>, pending': map<string, Pending>, h: string) {
    h in pending ==> h in pending' && pending'[h] == pending[h]
  }

  /** Every pending reminder except the one `slot` named is still pending, unchanged. */
  ghost predicate KeepsOtherReminders(pending: map<string, Pending>, pending': map<string, Pending>, slot: Option<string>) {
    forall h {:trigger KeptReminder(pending, pending', h)} :: slot != Some(h) ==> KeptReminder(pending, pending', h)
  }

  /**
   * Two steps that each keep the reminders their slot did not name keep the
   * first slot's others, when the second slot names the first one's handle
   * or a handle that was not pending at the start.
   */
  lemma KeepsOtherRemindersCompose(p0: map<string, Pending>, p1: map<string, Pending>, p2: map<string, Pending>,
                                   s0: Option<string>, s1: Option<string>)
    requires KeepsOtherReminders(p0, p1, s0) && KeepsOtherReminders(p1, p2, s1)
    requires s1 == s0 || (s1.Some? && s1.value !in p0)
    ensures KeepsOtherReminders(p0, p2, s0)
  {
    forall h | s0 != Some(h)
      ensures KeptReminder(p0, p2, h)
    {
      assert KeptReminder(p0, p1, h);
      if h in p0 {
        assert KeptReminder(p1, p2, h);
      }
    }
  }

  /** Writing a touched key keeps every other key. */
  lemma WriteKeepsOtherKeys(entries: map<string, Value>, key: string, v: Value, touched: set<string>)
    requires key in touched
    ensures KeepsOtherKeys(entries, entries[key := v], touched)
  {
  }

  /** Emptying a touched slot keeps every other key. */
  lemma ClearKeepsOtherKeys(entries: map<string, Value>, key: string, touched: set<string>)
    requires key in touched
    ensures KeepsOtherKeys(entries, ClearSlot(entries, key), touched)
  {
  }

  /** Two steps that touch only `touched` and `touched'` touch only a set holding both. */
  lemma KeepsOtherKeysTrans(e0: map<string, Value>, e1: map<string, Value>, e2: map<string, Value>,
                            touched: set<string>, touched': set<string>, both: set<string>)
    requires KeepsOtherKeys(e0, e1, touched) && KeepsOtherKeys(e1, e2, touched')
    requires touched <= both && touched' <= both
    ensures KeepsOtherKeys(e0, e2, both)
  {
    forall k | k !in both
      ensures KeptKey(e0, e2, k)
    {
      assert KeptKey(e0, e1, k) && KeptKey(e1, e2, k);
    }
  }

  /** Cancelling a slot's handle keeps every other pending reminder. */
  lemma CancelKeepsOtherReminders(pending: map<string, Pending>, entries: map<string, Value>, key: string)
    ensures KeepsOtherReminders(pending, WithoutSlot(pending, entries, key), SlotHandle(entries, key))
  {
  }

  /** Cancelling a slot's handle and adding a fresh one keeps every other pending reminder. */
  lemma ReplaceKeepsOtherReminders(pending: map<string, Pending>, entries: map<string, Value>, key: string, h: string, v: Pending)
    requires h !in WithoutSlot(pending, entries, key)
    ensures KeepsOtherReminders(pending, WithoutSlot(pending, entries, key)[h := v], SlotHandle(entries, key))
  {
  }

  /**
   * Setting the first-launch flag and then naming a fresh reminder `h` in the
   * inactivity slot keeps every other key and every other pending reminder.
   */
  lemma FirstLaunchKeepsOthers(entries: map<string, Value>, pending: map<string, Pending>, h: string, v: Pending)
    requires h != "" && h !in pending
    ensures var asked := entries[PermissionKey := Text("true")];
      && KeepsOtherKeys(entries, asked[InactivityKey := Text(h)], {PermissionKey, InactivityKey})
      && KeepsOtherReminders(pending, WithoutSlot(pending, asked, InactivityKey)[h := v], SlotHandle(entries, InactivityKey))
      && SlotHandle(asked[InactivityKey := Text(h)], InactivityKey) == Some(h)
  {
    var asked := entries[PermissionKey := Text("true")];
    FlagsAreNotSlots(Inactivity);
    assert SlotHandle(asked, InactivityKey) == SlotHandle(entries, InactivityKey);
    ReplaceKeepsOtherReminders(pending, entries, InactivityKey, h, v);
  }

  lemma InactivitySlotIsNoLessonSlot(lessonId: string)
    ensures InactivityKey != LessonReminderKey(lessonId)
  {
    assert InactivityKey[0] == 'i';
    assert LessonReminderKey(lessonId)[0] == 'l';
  }

  /** Different reminders use different slots. */
  lemma SlotOfInjective(a: Reminder, b: Reminder)
    requires SlotOf(a) == SlotOf(b)
    ensures a == b
  {
    if a.LessonContinuation? && b.LessonContinuation? {
      PrefixedKeyInjective(AppConstants.LessonReminderPrefix, a.lessonId, b.lessonId);
    } else if a.LessonContinuation? {
      InactivitySlotIsNoLessonSlot(a.lessonId);
    } else if b.LessonContinuation? {
      InactivitySlotIsNoLessonSlot(b.lessonId);
    }
  }

  /** While reminders are tracked, no two pending notifications remind of the same thing. */
  lemma AtMostOnePerReminder(entries: map<string, Value>, pending: map<string, Pending>, h1: string, h2: string)
    requires RemindersTracked(entries, pending)
    requires h1 in pending && h2 in pending && pending[h1].reminder == pending[h2].reminder
    ensures h1 == h2
  {
    assert SlotHandle(entries, SlotOf(pending[h1].reminder)) == Some(h1);
  }

  /** The first-launch flag and the timestamp live outside every slot. */
  lemma FlagsAreNotSlots(r: Reminder)
    ensures SlotOf(r) != PermissionKey && SlotOf(r) != LastAppOpenKey
  {
    if r.LessonContinuation? {
      assert SlotOf(r)[1] == 'e' != LastAppOpenKey[1];
      assert SlotOf(r)[0] == 'l' != PermissionKey[0];
    }
  }

  /** Writing outside every slot keeps the reminders tracked. */
  lemma TrackedAfterFlagWrite(entries: map<string, Value>, pending: map<string, Pending>, key: string, v: Value)
    requires key == PermissionKey || key == LastAppOpenKey
    requires RemindersTracked(entries, pending)
    ensures RemindersTracked(entries[key := v], pending)
  {
    forall h | h in pending
      ensures SlotHandle(entries[key := v], SlotOf(pending[h].reminder)) == Some(h)
    {
      FlagsAreNotSlots(pending[h].reminder);
    }
  }

  /** Cancelling a slot's handle and emptying the slot keeps the reminders tracked. */
  lemma TrackedAfterCancel(entries: map<string, Value>, pending: map<string, Pending>, key: string)
    requires RemindersTracked(entries, pending)
    ensures RemindersTracked(ClearSlot(entries, key), WithoutSlot(pending, entries, key))
  {
    var pending' := WithoutSlot(pending, entries, key);
    forall h | h in pending'
      ensures SlotHandle(ClearSlot(entries, key), SlotOf(pending'[h].reminder)) == Some(h)
    {
      assert SlotHandle(entries, SlotOf(pending[h].reminder)) == Some(h);
    }
  }

  /** Emptying a slot and then writing it is the same as writing it. */
  lemma ClearThenWrite(entries: map<string, Value>, key: string, v: Value)
    ensures ClearSlot(entries, key)[key := v] == entries[key := v]
  {
    var cleared := ClearSlot(entries, key)[key := v];
    assert forall k :: k in cleared <==> k in entries[key := v];
    assert forall k | k in cleared :: cleared[k] == entries[key := v][k];
  }

  /** Storing a fresh handle in a slot whose old handle was cancelled keeps the reminders tracked. */
  lemma TrackedAfterSchedule(entries: map<string, Value>, pending: map<string, Pending>, r: Reminder, seconds: int, h: string)
    requires RemindersTracked(entries, pending)
    requires h != "" && h !in pending
    ensures RemindersTracked(entries[SlotOf(r) := Text(h)], WithoutSlot(pending, entries, SlotOf(r))[h := Pending(r, seconds)])
  {
    var key := SlotOf(r);
    var entries' := entries[key := Text(h)];
    var pending' := WithoutSlot(pending, entries, key)[h := Pending(r, seconds)];
    forall x | x in pending'
      ensures SlotHandle(entries', SlotOf(pending'[x].reminder)) == Some(x)
    {
      if x != h {
        assert SlotHandle(entries, SlotOf(pending[x].reminder)) == Some(x);
      }
    }
  }

  /** `requestNotificationPermissions`: prompts only when not yet granted; true iff granted in the end. */
  method RequestNotificationPermissions(platform: Platform, answer: PermissionStatus) returns (granted: bool)
    modifies platform`permission, platform`permissionRequests
    ensures platform.permission == if old(platform.permission) == Granted then Granted else answer
    ensures platform.permissionRequests == old(platform.permissionRequests) + if old(platform.permission) == Granted then 0 else 1
    ensures granted <==> platform.permission == Granted
  {
    var existingStatus := platform.GetPermissions();
    var finalStatus := existingStatus;
    if existingStatus != Granted {
      finalStatus := platform.RequestPermissions(answer);
    }
    granted := finalStatus == Granted;
  }

  /** Cancels the handle a slot names and empties the slot; shared by both cancel operations. */
  method CancelSlot(store: Store, platform: Platform, key: string)
    modifies store`entries, platform`pending
    ensures old(platform.Valid()) ==> platform.Valid()
    ensures store.entries == if store.healthy then ClearSlot(old(store.entries), key) else old(store.entries)
    ensures platform.pending == if store.healthy then WithoutSlot(old(platform.pending), old(store.entries), key) else old(platform.pending)
  {
    var stored := store.GetItem(key);
    if stored.Failure? || stored.value.None? {
      return;
    }
    var handle := AsText(stored.value.value);
    if handle != "" {
      platform.Cancel(handle);
      var _ := store.RemoveItem(key);
    }
  }

  /** `cancelInactivityReminder`: without a stored handle nothing happens. */
  method CancelInactivityReminder(store: Store, platform: Platform)
    modifies store`entries, platform`pending
    ensures old(platform.Valid()) ==> platform.Valid()
    ensures store.entries == if store.healthy then ClearSlot(old(store.entries), InactivityKey) else old(store.entries)
    ensures platform.pending == if store.healthy then WithoutSlot(old(platform.pending), old(store.entries), InactivityKey) else old(platform.pending)
    ensures old(SlotHandle(store.entries, InactivityKey)).None? ==>
      store.entries == old(store.entries) && platform.pending == old(platform.pending)
    ensures store.healthy && old(RemindersTracked(store.entries, platform.pending)) ==>
      RemindersTracked(store.entries, platform.pending)
  {
    ghost var entries, pending := store.entries, platform.pending;
    CancelSlot(store, platform, InactivityKey);
    if store.healthy && RemindersTracked(entries, pending) {
      TrackedAfterCancel(entries, pending, InactivityKey);
    }
  }

  /**
   * Cancel-then-schedule on one slot: the slot's previous reminder is
   * cancelled, a fresh handle is scheduled and stored in the slot. When the
   * store rejects, the reminder is scheduled but its handle is not kept.
   */
  method ReplaceSlotReminder(store: Store, platform: Platform, r: Reminder, seconds: int)
    requires platform.Valid()
    modifies store`entries, platform`pending, platform`nextHandle
    ensures platform.Valid()
    ensures var h := NatToString(old(platform.nextHandle));
      && platform.nextHandle == old(platform.nextHandle) + 1
      && h !in old(platform.pending)
      && store.entries == (if store.healthy then old(store.entries)[SlotOf(r) := Text(h)] else old(store.entries))
      && platform.pending ==
        (if store.healthy then WithoutSlot(old(platform.pending), old(store.entries), SlotOf(r)) else old(platform.pending))[h := Pending(r, seconds)]
    ensures store.healthy && old(RemindersTracked(store.entries, platform.pending)) ==>
      RemindersTracked(store.entries, platform.pending)
  {
    ghost var entries, pending := store.entries, platform.pending;
    var key := SlotOf(r);
    CancelSlot(store, platform, key);
    var handle := platform.Schedule(r, seconds);
    assert handle !in pending by {
      DigitsValueOfNatToString(old(platform.nextHandle));
    }
    var _ := store.SetItem(key, Text(handle));
    if store.healthy {
      ClearThenWrite(entries, key, Text(handle));
      if RemindersTracked(entries, pending) {
        TrackedAfterSchedule(entries, pending, r, seconds, handle);
      }
    }
  }

  /**
   * `scheduleInactivityReminder`: without permission nothing happens; with it,
   * the slot's previous reminder is cancelled and the slot names a fresh
   * 48-hour reminder. When the store rejects, the reminder is scheduled but
   * its handle is not kept.
   */
  method ScheduleInactivityReminder(store: Store, platform: Platform)
    requires platform.Valid()
    modifies store`entries, platform`pending, platform`nextHandle
    ensures platform.Valid()
    ensures platform.permission != Granted ==>
      store.entries == old(store.entries) && platform.pending == old(platform.pending) && platform.nextHandle == old(platform.nextHandle)
    ensures platform.permission == Granted ==>
      var h := NatToString(old(platform.nextHandle));
      && platform.nextHandle == old(platform.nextHandle) + 1
      && h !in old(platform.pending)
      && (store.healthy ==>
            && store.entries == old(store.entries)[InactivityKey := Text(h)]
            && platform.pending == WithoutSlot(old(platform.pending), old(store.entries), InactivityKey)[h := Pending(Inactivity, AppConstants.InactivityReminderSeconds)])
      && (!store.healthy ==>
            && store.entries == old(store.entries)
            && platform.pending == old(platform.pending)[h := Pending(Inactivity, AppConstants.InactivityReminderSeconds)])
    ensures store.healthy && old(RemindersTracked(store.entries, platform.pending)) ==>
      RemindersTracked(store.entries, platform.pending)
  {
    var status := platform.GetPermissions();
    if status != Granted {
      return;
    }
    ReplaceSlotReminder(store, platform, Inactivity, AppConstants.InactivityReminderSeconds);
  }

  /**
   * `checkAndRequestNotificationPermissionsOnFirstLaunch`: acts only while the
   * flag is unset: prompts, sets the flag to "true", and schedules the
   * inactivity reminder if permission is granted. The flag it leaves makes a
   * second call do nothing.
   */
  method CheckAndRequestNotificationPermissionsOnFirstLaunch(store: Store, platform: Platform, answer: PermissionStatus)
    requires platform.Valid()
    modifies store`entries, platform`permission, platform`permissionRequests, platform`pending, platform`nextHandle
    ensures platform.Valid()
    ensures !store.healthy || old(Truthy(store.entries, PermissionKey)) ==>
      && store.entries == old(store.entries)
      && platform.permission == old(platform.permission)
      && platform.permissionRequests == old(platform.permissionRequests)
      && platform.pending == old(platform.pending)
      && platform.nextHandle == old(platform.nextHandle)
    ensures store.healthy && !old(Truthy(store.entries, PermissionKey)) ==>
      var asked := old(store.entries)[PermissionKey := Text("true")];
      var h := NatToString(old(platform.nextHandle));
      && platform.permission == (if old(platform.permission) == Granted then Granted else answer)
      && platform.permissionRequests == old(platform.permissionRequests) + (if old(platform.permission) == Granted then 0 else 1)
      && (platform.permission == Granted ==>
            && store.entries == asked[InactivityKey := Text(h)]
            && platform.pending == WithoutSlot(old(platform.pending), old(store.entries), InactivityKey)[h := Pending(Inactivity, AppConstants.InactivityReminderSeconds)]
            && platform.nextHandle == old(platform.nextHandle) + 1
            && h !in old(platform.pending))
      && (platform.permission != Granted ==>
            && store.entries == asked
            && platform.pending == old(platform.pending)
            && platform.nextHandle == old(platform.nextHandle))
    ensures store.healthy ==> Truthy(store.entries, PermissionKey)
    ensures store.healthy && old(RemindersTracked(store.entries, platform.pending)) ==>
      RemindersTracked(store.entries, platform.pending)
    ensures KeepsOtherKeys(old(store.entries), store.entries, {PermissionKey, InactivityKey})
    ensures KeepsOtherReminders(old(platform.pending), platform.pending, old(SlotHandle(store.entries, InactivityKey)))
    ensures SlotHandle(store.entries, InactivityKey) == old(SlotHandle(store.entries, InactivityKey))
      || SlotHandle(store.entries, InactivityKey).value !in old(platform.pending)
  {
    ghost var entries, pending := store.entries, platform.pending;
    var hasRequested := store.GetItem(PermissionKey);
    if hasRequested.Failure? {
      return;
    }
    if hasRequested.value.None? || AsText(hasRequested.value.value) == "" {
      var granted := RequestNotificationPermissions(platform, answer);
      var marked := store.SetItem(PermissionKey, Text("true"));
      if marked.Fail? {
        return;
      }
      if store.healthy && RemindersTracked(entries, pending) {
        TrackedAfterFlagWrite(entries, pending, PermissionKey, Text("true"));
      }
      FlagsAreNotSlots(Inactivity);
      ghost var asked, handle := store.entries, platform.nextHandle;
      assert SlotHandle(asked, InactivityKey) == SlotHandle(entries, InactivityKey);
      if granted {
        ScheduleInactivityReminder(store, platform);
        FirstLaunchKeepsOthers(entries, pending, NatToString(handle), Pending(Inactivity, AppConstants.InactivityReminderSeconds));
      } else {
        WriteKeepsOtherKeys(entries, PermissionKey, Text("true"), {PermissionKey, InactivityKey});
      }
    }
  }

  /**
   * `updateLastAppOpenTimestamp`: records `now`, then replaces the inactivity
   * reminder (cancel, and reschedule when permission is granted).
   */
  method UpdateLastAppOpenTimestamp(store: Store, platform: Platform, now: string)
    requires platform.Valid()
    modifies store`entries, platform`pending, platform`nextHandle
    ensures platform.Valid()
    ensures !store.healthy ==>
      store.entries == old(store.entries) && platform.pending == old(platform.pending) && platform.nextHandle == old(platform.nextHandle)
    ensures store.healthy ==>
      var stamped := old(store.entries)[LastAppOpenKey := Text(now)];
      var cancelled := WithoutSlot(old(platform.pending), old(store.entries), InactivityKey);
      var h := NatToString(old(platform.nextHandle));
      && (platform.permission == Granted ==>
            && store.entries == stamped[InactivityKey := Text(h)]
            && platform.pending == cancelled[h := Pending(Inactivity, AppConstants.InactivityReminderSeconds)]
            && platform.nextHandle == old(platform.nextHandle) + 1)
      && (platform.permission != Granted ==>
            && store.entries == ClearSlot(stamped, InactivityKey)
            && platform.pending == cancelled
            && platform.nextHandle == old(platform.nextHandle))
    ensures store.healthy && old(RemindersTracked(store.entries, platform.pending)) ==>
      RemindersTracked(store.entries, platform.pending)
    ensures KeepsOtherKeys(old(store.entries), store.entries, {LastAppOpenKey, InactivityKey})
    ensures KeepsOtherReminders(old(platform.pending), platform.pending, old(SlotHandle(store.entries, InactivityKey)))
  {
    ghost var entries, pending := store.entries, platform.pending;
    var written := store.SetItem(LastAppOpenKey, Text(now));
    if written.Fail? {
      return;
    }
    if RemindersTracked(entries, pending) {
      TrackedAfterFlagWrite(entries, pending, LastAppOpenKey, Text(now));
    }
    FlagsAreNotSlots(Inactivity);
    ghost var stamped := store.entries;
    assert SlotHandle(stamped, InactivityKey) == SlotHandle(entries, InactivityKey);
    assert WithoutSlot(pending, stamped, InactivityKey) == WithoutSlot(pending, entries, InactivityKey);
    CancelInactivityReminder(store, platform);
    ghost var cleared, handle := store.entries, platform.nextHandle;
    assert cleared == ClearSlot(stamped, InactivityKey);
    ScheduleInactivityReminder(store, platform);
    var touched := {LastAppOpenKey, InactivityKey};
    WriteKeepsOtherKeys(entries, LastAppOpenKey, Text(now), touched);
    if platform.permission == Granted {
      var h := NatToString(handle);
      ClearThenWrite(stamped, InactivityKey, Text(h));
      WriteKeepsOtherKeys(stamped, InactivityKey, Text(h), touched);
      ReplaceKeepsOtherReminders(pending, entries, InactivityKey, h, Pending(Inactivity, AppConstants.InactivityReminderSeconds));
    } else {
      ClearKeepsOtherKeys(stamped, InactivityKey, touched);
      CancelKeepsOtherReminders(pending, entries, InactivityKey);
    }
    KeepsOtherKeysTrans(entries, stamped, store.entries, touched, touched, touched);
  }

  /**
   * `initializeNotificationService`: the first-launch prompt, then the
   * timestamp and inactivity reminder. Afterwards the flag is set, `now` is
   * recorded, and with permission exactly one inactivity reminder is pending,
   * the one its slot names; without permission the slot is empty.
   */
  method InitializeNotificationService(store: Store, platform: Platform, answer: PermissionStatus, now: string)
    requires platform.Valid()
    modifies store`entries, platform`permission, platform`permissionRequests, platform`pending, platform`nextHandle
    ensures platform.Valid()
    ensures !store.healthy ==>
      && store.entries == old(store.entries)
      && platform.permission == old(platform.permission)
      && platform.pending == old(platform.pending)
      && platform.nextHandle == old(platform.nextHandle)
    ensures store.healthy ==> Truthy(store.entries, PermissionKey)
    ensures store.healthy ==> LastAppOpenKey in store.entries && store.entries[LastAppOpenKey] == Text(now)
    ensures store.healthy && platform.permission == Granted ==>
      && platform.nextHandle > old(platform.nextHandle)
      && var h := NatToString(platform.nextHandle - 1);
      && SlotHandle(store.entries, InactivityKey) == Some(h)
      && h in platform.pending && platform.pending[h] == Pending(Inactivity, AppConstants.InactivityReminderSeconds)
    ensures store.healthy && platform.permission != Granted ==> SlotHandle(store.entries, InactivityKey).None?
    ensures store.healthy && old(RemindersTracked(store.entries, platform.pending)) ==>
      RemindersTracked(store.entries, platform.pending)
    ensures KeepsOtherKeys(old(store.entries), store.entries, {PermissionKey, LastAppOpenKey, InactivityKey})
    ensures KeepsOtherReminders(old(platform.pending), platform.pending, old(SlotHandle(store.entries, InactivityKey)))
  {
    ghost var entries, pending := store.entries, platform.pending;
    CheckAndRequestNotificationPermissionsOnFirstLaunch(store, platform, answer);
    ghost var asked, handle, checked := store.entries, platform.nextHandle, platform.pending;
    UpdateLastAppOpenTimestamp(store, platform, now);
    KeepsOtherRemindersCompose(pending, checked, platform.pending,
                               SlotHandle(entries, InactivityKey), SlotHandle(asked, InactivityKey));
    KeepsOtherKeysTrans(entries, asked, store.entries, {PermissionKey, InactivityKey}, {LastAppOpenKey, InactivityKey},
                        {PermissionKey, LastAppOpenKey, InactivityKey});
    if store.healthy {
      FlagsAreNotSlots(Inactivity);
      assert LastAppOpenKey != PermissionKey;
      var stamped := asked[LastAppOpenKey := Text(now)];
      assert Truthy(stamped, PermissionKey);
      assert stamped[LastAppOpenKey] == Text(now);
      if platform.permission == Granted {
        var h := NatToString(handle);
        assert store.entries == stamped[InactivityKey := Text(h)];
        assert platform.nextHandle - 1 == handle;
        assert store.entries[InactivityKey] == Text(h);
      } else {
        assert store.entries == ClearSlot(stamped, InactivityKey);
        assert !Truthy(store.entries, InactivityKey);
      }
    }
  }

  /** `sendCourseCompletionNotification`: shown immediately when permitted, otherwise nothing. */
  method SendCourseCompletionNotification(platform: Platform, courseName: string)
    modifies platform`delivered
    ensures platform.delivered == old(platform.delivered) +
      if platform.permission == Granted then [CourseCompletion(courseName)] else []
  {
    var status := platform.GetPermissions();
    if status != Granted {
      return;
    }
    platform.Present(CourseCompletion(courseName));
  }

  /**
   * `scheduleLessonContinuationReminder`: without permission nothing happens;
   * with it, this lesson's previous reminder is cancelled and its slot names a
   * fresh 24-hour reminder. Other lessons' slots are not touched.
   */
  method ScheduleLessonContinuationReminder(store: Store, platform: Platform, lessonId: string, lessonName: string)
    requires platform.Valid()
    modifies store`entries, platform`pending, platform`nextHandle
    ensures platform.Valid()
    ensures platform.permission != Granted ==>
      store.entries == old(store.entries) && platform.pending == old(platform.pending) && platform.nextHandle == old(platform.nextHandle)
    ensures platform.permission == Granted ==>
      var key := LessonReminderKey(lessonId);
      var h := NatToString(old(platform.nextHandle));
      var reminder := Pending(LessonContinuation(lessonId), AppConstants.LessonContinuationReminderSeconds);
      && platform.nextHandle == old(platform.nextHandle) + 1
      && h !in old(platform.pending)
      && (store.healthy ==>
            && store.entries == old(store.entries)[key := Text(h)]
            && platform.pending == WithoutSlot(old(platform.pending), old(store.entries), key)[h := reminder])
      && (!store.healthy ==>
            && store.entries == old(store.entries)
            && platform.pending == old(platform.pending)[h := reminder])
    ensures forall other :: other != lessonId ==>
      SlotHandle(store.entries, LessonReminderKey(other)) == old(SlotHandle(store.entries, LessonReminderKey(other)))
    ensures store.healthy && old(RemindersTracked(store.entries, platform.pending)) ==>
      RemindersTracked(store.entries, platform.pending)
  {
    ghost var entries := store.entries;
    var status := platform.GetPermissions();
    if status != Granted {
      return;
    }
    ReplaceSlotReminder(store, platform, LessonContinuation(lessonId), AppConstants.LessonContinuationReminderSeconds);
    forall other | other != lessonId
      ensures SlotHandle(store.entries, LessonReminderKey(other)) == SlotHandle(entries, LessonReminderKey(other))
    {
      if LessonReminderKey(other) == LessonReminderKey(lessonId) {
        PrefixedKeyInjective(AppConstants.LessonReminderPrefix, other, lessonId);
      }
    }
  }

  /** `cancelLessonContinuationReminder`: without a stored handle nothing happens. */
  method CancelLessonContinuationReminder(store: Store, platform: Platform, lessonId: string)
    modifies store`entries, platform`pending
    ensures old(platform.Valid()) ==> platform.Valid()
    ensures store.entries == if store.healthy then ClearSlot(old(store.entries), LessonReminderKey(lessonId)) else old(store.entries)
    ensures platform.pending ==
      if store.healthy then WithoutSlot(old(platform.pending), old(store.entries), LessonReminderKey(lessonId)) else old(platform.pending)
    ensures old(SlotHandle(store.entries, LessonReminderKey(lessonId))).None? ==>
      store.entries == old(store.entries) && platform.pending == old(platform.pending)
    ensures store.healthy && old(RemindersTracked(store.entries, platform.pending)) ==>
      RemindersTracked(store.entries, platform.pending)
  {
    ghost var entries, pending := store.entries, platform.pending;
    CancelSlot(store, platform, LessonReminderKey(lessonId));
    if store.healthy && RemindersTracked(entries, pending) {
      TrackedAfterCancel(entries, pending, LessonReminderKey(lessonId));
    }
  }
}
