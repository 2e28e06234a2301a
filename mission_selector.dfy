/** The mission selector dialog: which choices are open, and what choosing
    one does — refuse, hand the id to the parent (swap mode), or select it in
    the backend and open the mission page. Both selector files carry this
    logic unchanged; they differ only in how class names are written. */
module MissionSelector {
  import opened Wrappers
  import opened Domain
  import opened Navigation

  const SelectErrorAlert := "ミッション選択中にエラーが発生しました"

  /** What `selectMission` resolved to: a response (whose `data.success` may
      be false) or a rejection. */
  datatype SelectOutcome = SelectResponse(success: bool) | SelectFailed

  /** How `handleSelectMission` treats a choice. */
  datatype Handling =
    | Busy          // a selection is already in flight
    | LockedOut     // the choice is disabled
    | Delegate      // swap mode: the id goes to the parent
    | CallBackend   // normal mode: select in the backend

  /** `activeMissionId && missionId === activeMissionId`. */
  predicate IsActive(activeMissionId: Option<MissionId>, missionId: MissionId) {
    Truthy(activeMissionId) && missionId == activeMissionId.value
  }

  /** `isMissionLocked && !isActive && !isSwapMode`, shared by the handler and the card. */
  predicate IsDisabled(isMissionLocked: bool, activeMissionId: Option<MissionId>, missionId: MissionId, isSwapMode: bool) {
    isMissionLocked && !IsActive(activeMissionId, missionId) && !isSwapMode
  }

  function Handle(selecting: bool, isSwapMode: bool, hasCallback: bool,
                  activeMissionId: Option<MissionId>, isMissionLocked: bool, missionId: MissionId): Handling
  {
    if selecting then Busy
    else if IsDisabled(isMissionLocked, activeMissionId, missionId, isSwapMode) then LockedOut
    else if isSwapMode && hasCallback then Delegate
    else CallBackend
  }

  /** The card's select button: `disabled={selecting || isDisabled}`. */
  predicate ButtonDisabled(selecting: bool, isMissionLocked: bool, activeMissionId: Option<MissionId>,
                           missionId: MissionId, isSwapMode: bool) {
    selecting || IsDisabled(isMissionLocked, activeMissionId, missionId, isSwapMode)
  }

  /** Where a normal-mode selection leads: the mission page with the chosen
      id, only when the backend reports success. */
  function SelectedLocation(missionId: MissionId, outcome: SelectOutcome): (loc: Option<Location>)
    ensures loc.Some? <==> outcome == SelectResponse(true)
    ensures loc.Some? ==>
      && loc.value.path == MissionPagePath && loc.value.state.Some?
      && loc.value.state.value.selectedMissionId == Some(missionId) && loc.value.state.value.isNewMission == Some(true)
      && loc.value.state.value.completedTaskId.None?
  {
    if outcome == SelectResponse(true) then
      Some(Location(MissionPagePath, Some(EmptyState.(selectedMissionId := Some(missionId), isNewMission := Some(true)))))
    else None
  }

  // ---------------------------------------------------------------
  // Properties
  // ---------------------------------------------------------------

  /** A choice made while not busy is refused exactly when the mission is
      locked, the choice is not the active mission, and the dialog is not in
      swap mode. */
  lemma LockRule(isSwapMode: bool, hasCallback: bool, activeMissionId: Option<MissionId>,
                 isMissionLocked: bool, missionId: MissionId)
    ensures Handle(false, isSwapMode, hasCallback, activeMissionId, isMissionLocked, missionId) == LockedOut
        <==> isMissionLocked && !isSwapMode
             && !(activeMissionId.Some? && activeMissionId.value != "" && missionId == activeMissionId.value)
  {
  }

  /** While locked, the active mission can still be chosen, and swap mode is
      never refused by the lock. */
  lemma LockExemptions(isSwapMode: bool, hasCallback: bool, activeMissionId: Option<MissionId>,
                       isMissionLocked: bool, missionId: MissionId)
    ensures IsActive(activeMissionId, missionId) ==>
      Handle(false, isSwapMode, hasCallback, activeMissionId, isMissionLocked, missionId) != LockedOut
    ensures isSwapMode ==>
      Handle(false, isSwapMode, hasCallback, activeMissionId, isMissionLocked, missionId) != LockedOut
    ensures !isMissionLocked ==>
      Handle(false, isSwapMode, hasCallback, activeMissionId, isMissionLocked, missionId) != LockedOut
  {
  }

  /** The rendered button is disabled exactly when the handler would do
      nothing: busy or locked out. */
  lemma ButtonMatchesHandler(selecting: bool, isSwapMode: bool, hasCallback: bool,
                             activeMissionId: Option<MissionId>, isMissionLocked: bool, missionId: MissionId)
    ensures ButtonDisabled(selecting, isMissionLocked, activeMissionId, missionId, isSwapMode)
        <==> Handle(selecting, isSwapMode, hasCallback, activeMissionId, isMissionLocked, missionId) in {Busy, LockedOut}
  {
  }

  // ---------------------------------------------------------------
  // The dialog
  // ---------------------------------------------------------------

  class Selector {
    var selecting: bool
    const isSwapMode: bool
    const hasCallback: bool
    const activeMissionId: Option<MissionId>
    const isMissionLocked: bool
    const router: Router

    constructor (isSwapMode: bool, hasCallback: bool, activeMissionId: Option<MissionId>,
                 isMissionLocked: bool, router: Router)
      ensures !selecting && this.isSwapMode == isSwapMode && this.hasCallback == hasCallback
      ensures this.activeMissionId == activeMissionId && this.isMissionLocked == isMissionLocked
      ensures this.router == router
    {
      selecting := false;
      this.isSwapMode := isSwapMode;
      this.hasCallback := hasCallback;
      this.activeMissionId := activeMissionId;
      this.isMissionLocked := isMissionLocked;
      this.router := router;
    }

    /** `handleSelectMission(missionId)`, with the backend's answer as a
        parameter. It returns the id handed to the parent's
        `onSelectMission`, whether `onClose` was called, and whether an
        alert was shown. */
    method HandleSelectMission(missionId: MissionId, outcome: SelectOutcome)
      returns (delegated: Option<MissionId>, closeRequested: bool, alerted: bool)
      modifies this`selecting, router
      ensures var h := Handle(old(selecting), isSwapMode, hasCallback, activeMissionId, isMissionLocked, missionId);
        && (h == Busy || h == LockedOut ==>
              selecting == old(selecting) && router.location == old(router.location)
              && delegated == None && !closeRequested && !alerted)
        && (h == Delegate ==>
              delegated == Some(missionId) && closeRequested && !alerted
              && selecting == old(selecting) && router.location == old(router.location))
        && (h == CallBackend ==>
              !selecting && delegated == None && !closeRequested
              && alerted == outcome.SelectFailed?
              && router.location == SelectedLocation(missionId, outcome).GetOr(old(router.location)))
    {
      delegated, closeRequested, alerted := None, false, false;
      if selecting {
        return;
      }
      var isActive := Truthy(activeMissionId) && missionId == activeMissionId.value;
      var isDisabled := isMissionLocked && !isActive && !isSwapMode;
      if isDisabled {
        return;
      }
      if isSwapMode && hasCallback {
        delegated := Some(missionId);
        closeRequested := true;
        return;
      }
      selecting := true;
      match outcome {
        case SelectResponse(success) =>
          if success {
            router.Navigate(MissionPagePath,
              Some(EmptyState.(selectedMissionId := Some(missionId), isNewMission := Some(true))));
          }
        case SelectFailed =>
          alerted := true;
      }
      selecting := false;
    }
  }
}
