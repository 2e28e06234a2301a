/** The start page: a check-in asks the backend to reset the missions and,
    only when that succeeds, forgets the locked mission and opens the
    selector for a new choice. */
module InitialPage {
  import opened Wrappers
  import opened Storage

  /** What `resetMission` resolved to: a response with its HTTP status and
      `data.success`, or a rejection. */
  datatype ResetOutcome = ResetResponse(status: int, success: bool) | ResetFailed

  /** `response.status === 200 && response.data.success`. */
  predicate ResetSucceeded(outcome: ResetOutcome) {
    outcome.ResetResponse? && outcome.status == 200 && outcome.success
  }

  class StartPage {
    var resetting: bool
    var showMissionSelector: bool
    var backImage: bool
    const store: LocalStorage

    constructor (store: LocalStorage)
      ensures this.store == store && !resetting && !showMissionSelector && !backImage
    {
      this.store := store;
      resetting, showMissionSelector, backImage := false, false, false;
    }

    /** All four buttons carry `disabled={resetting}`. */
    predicate ButtonsDisabled()
      reads this
    {
      resetting
    }

    /** `handleCheckIn`, with the backend's answer as a parameter; returns
        whether the error alert was shown. */
    method HandleCheckIn(outcome: ResetOutcome) returns (alerted: bool)
      modifies this, store`activeMissionId, store`missionLocked
      ensures old(resetting) ==>
        && resetting && showMissionSelector == old(showMissionSelector) && backImage == old(backImage)
        && store.activeMissionId == old(store.activeMissionId) && store.missionLocked == old(store.missionLocked)
        && !alerted
      ensures !old(resetting) ==> !ButtonsDisabled() && alerted == !ResetSucceeded(outcome)
      ensures !old(resetting) && ResetSucceeded(outcome) ==>
        && store.activeMissionId == None && store.missionLocked == None
        && showMissionSelector && !backImage
      ensures !old(resetting) && !ResetSucceeded(outcome) ==>
        && store.activeMissionId == old(store.activeMissionId) && store.missionLocked == old(store.missionLocked)
        && showMissionSelector == old(showMissionSelector) && backImage == old(backImage)
      ensures store.completedTasks == old(store.completedTasks) && store.lastCheckinDate == old(store.lastCheckinDate)
      ensures store.achievements == old(store.achievements)
    {
      if resetting {
        return false;
      }
      resetting := true;
      if ResetSucceeded(outcome) {
        store.activeMissionId := None;
        store.missionLocked := None;
        backImage := false;
        showMissionSelector := true;
        alerted := false;
      } else {
        alerted := true;
      }
      resetting := false;
    }
  }
}
