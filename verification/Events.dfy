/** Event codes and the event record shared by every component. */
module Events {

  const ABILITY_FOREGROUND := 2
  const ABILITY_BACKGROUND := 3
  const ABILITY_STOP := 4
  const LONG_TIME_TASK_STARTED := 5
  const LONG_TIME_TASK_ENDED := 6
  const SYSTEM_INTERACTIVE := 7
  const USER_INTERACTIVE := 8
  const END_OF_THE_DAY := 9
  const SHUTDOWN := 10
  const STARTUP := 11
  const FLUSH := 12
  const SCREEN_INTERACTIVE := 13
  const SCREEN_NON_INTERACTIVE := 14
  const KEYGUARD_SHOWN := 17
  const KEYGUARD_HIDDEN := 18
  const NOTIFICATION_SEEN := 19

  /** A bundle is identified by its name together with the uid it runs under. */
  datatype Key = Key(bundleName: string, uid: int)

  /** `detail` stands for the members that never reach the event table (ability, module and form names). */
  datatype Event = Event(bundleName: string, taskName: string, abilityId: string,
                         timeStamp: int, eventId: int, uid: int, detail: string)
  {
    function KeyOf(): Key {
      Key(bundleName, uid)
    }
  }

  const DEVICE_EVENT_PACKAGE_NAME := "openharmony"
  const DEFAULT_UID_ID := -1
  const ONE_SECOND_MILLISECONDS := 1000

  /** The event that a service notes when it starts, dated a second back. */
  function StartupEvent(timeStamp: int): Event {
    Event(DEVICE_EVENT_PACKAGE_NAME, "", "", timeStamp - ONE_SECOND_MILLISECONDS, STARTUP, DEFAULT_UID_ID, "")
  }

  predicate IsBundleEvent(eventId: int) {
    eventId in {ABILITY_BACKGROUND, ABILITY_FOREGROUND, ABILITY_STOP,
                LONG_TIME_TASK_STARTED, LONG_TIME_TASK_ENDED, END_OF_THE_DAY}
  }

  predicate OrderedByTime(events: seq<Event>) {
    forall i, j :: 0 <= i < j < |events| ==> events[i].timeStamp <= events[j].timeStamp
  }
}
