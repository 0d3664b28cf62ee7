/**
 * The local-notification platform, reduced to the state the app relies on:
 * the permission status, the delayed notifications still pending (by handle),
 * the notifications delivered immediately, and a supply of fresh handles.
 */
module Notifications {
  import opened Decimal

  datatype PermissionStatus = Granted | Denied | Undetermined

  /** What a pending notification reminds of. */
  datatype Reminder = Inactivity | LessonContinuation(lessonId: string)

  /** A one-shot notification due `seconds` after it was scheduled. */
  datatype Pending = Pending(reminder: Reminder, seconds: int)

  /** A notification shown immediately (`trigger: null`). */
  datatype Delivery = CourseCompletion(courseName: string)

  class Platform {
    var permission: PermissionStatus
    /** How many times the permission prompt was requested. */
    var permissionRequests: nat
    var pending: map<string, Pending>
    var delivered: seq<Delivery>
    /** Handles are the decimal renderings of 0, 1, 2, ... in the order issued. */
    var nextHandle: nat

    /** Every pending handle was issued already, so the next one is fresh. */
    ghost predicate Valid()
      reads this
    {
      forall h :: h in pending ==> IsDigits(h) && DigitsValue(h) < nextHandle
    }

    constructor (permission: PermissionStatus)
      ensures Valid()
      ensures this.permission == permission && permissionRequests == 0
      ensures pending == map[] && delivered == [] && nextHandle == 0
    {
      this.permission := permission;
      permissionRequests := 0;
      pending := map[];
      delivered := [];
      nextHandle := 0;
    }

    /** `getPermissionsAsync`. */
    method GetPermissions() returns (status: PermissionStatus)
      ensures status == permission
    {
      status := permission;
    }

    /** `requestPermissionsAsync`: the user's (or the system's) `answer` becomes the status. */
    method RequestPermissions(answer: PermissionStatus) returns (status: PermissionStatus)
      modifies this`permission, this`permissionRequests
      ensures permission == answer && status == answer
      ensures permissionRequests == old(permissionRequests) + 1
    {
      permission := answer;
      permissionRequests := permissionRequests + 1;
      status := answer;
    }

    /** `scheduleNotificationAsync` with a time-interval trigger: returns a fresh handle. */
    method Schedule(reminder: Reminder, seconds: int) returns (handle: string)
      requires Valid()
      modifies this`pending, this`nextHandle
      ensures Valid()
      ensures handle == NatToString(old(nextHandle)) && handle !in old(pending)
      ensures pending == old(pending)[handle := Pending(reminder, seconds)]
      ensures nextHandle == old(nextHandle) + 1
    {
      handle := NatToString(nextHandle);
      DigitsValueOfNatToString(nextHandle);
      pending := pending[handle := Pending(reminder, seconds)];
      nextHandle := nextHandle + 1;
    }

    /** `scheduleNotificationAsync` with `trigger: null`: shown now, no handle kept. */
    method Present(d: Delivery)
      modifies this`delivered
      ensures delivered == old(delivered) + [d]
    {
      delivered := delivered + [d];
    }

    /** `cancelScheduledNotificationAsync`: an unknown handle is ignored. */
    method Cancel(handle: string)
      modifies this`pending
      ensures pending == old(pending) - {handle}
    {
      pending := pending - {handle};
    }
  }
}
