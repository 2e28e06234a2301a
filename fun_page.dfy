/** The hub page: its Missions button goes straight to a locked mission, or
    otherwise opens the mission selector. It reads the device store and
    never writes it. */
module FunPage {
  import opened Wrappers
  import opened Domain
  import opened Storage
  import opened Navigation
  import MissionController
  import MissionSelector

  /** What pressing Missions does. */
  datatype MissionsAction = GoToMission(target: Location) | OpenSelector

  /** `localStorage.getItem('missionLocked') === '1'`. */
  predicate IsLocked(missionLocked: Option<string>) {
    missionLocked == Some("1")
  }

  /** `handleMissionsClick`, over the two stored values. */
  function MissionsClick(activeMissionId: Option<string>, missionLocked: Option<string>): (a: MissionsAction)
    ensures a.GoToMission? ==>
      && a.target.path == MissionPagePath && a.target.state.Some?
      && a.target.state.value.selectedMissionId == activeMissionId
      && a.target.state.value.completedTaskId.None?
  {
    if IsLocked(missionLocked) && Truthy(activeMissionId) then
      GoToMission(Location(MissionPagePath, Some(EmptyState.(selectedMissionId := activeMissionId))))
    else OpenSelector
  }

  /** The button as rendered: read the store, then decide. */
  function MissionsClickFromStore(store: LocalStorage): MissionsAction
    reads store
  {
    MissionsClick(store.activeMissionId, store.missionLocked)
  }

  /** The selector's `activeMissionId` and `isMissionLocked` props. */
  function SelectorProps(store: LocalStorage): (Option<MissionId>, bool)
    reads store
  {
    (store.activeMissionId, IsLocked(store.missionLocked))
  }

  /** The button and the selector read the same two cached values: the
      selector gets the stored id and lock flag unchanged, the button goes
      to the mission exactly when those props name a locked mission with a
      usable id, and when it opens the selector under a lock, that selector
      refuses every choice. */
  lemma ClickAndSelectorAgree(store: LocalStorage, missionId: MissionId)
    ensures SelectorProps(store) == (store.activeMissionId, store.missionLocked == Some("1"))
    ensures MissionsClickFromStore(store).GoToMission? <==> SelectorProps(store).1 && Truthy(SelectorProps(store).0)
    ensures MissionsClickFromStore(store) == OpenSelector && SelectorProps(store).1 ==>
      MissionSelector.Handle(false, false, false, SelectorProps(store).0, SelectorProps(store).1, missionId)
        == MissionSelector.LockedOut
  {
  }

  /** The page goes to the mission exactly when the stored flag is exactly
      "1" and a non-empty mission id is stored; any other flag text, such as
      "0" or "true", counts as unlocked. */
  lemma MissionsClickIff(activeMissionId: Option<string>, missionLocked: Option<string>)
    ensures MissionsClick(activeMissionId, missionLocked).GoToMission?
        <==> missionLocked == Some("1") && activeMissionId.Some? && activeMissionId.value != ""
    ensures MissionsClick(activeMissionId, Some("true")) == OpenSelector
  {
  }

  /** Reading back what the mission page stored for a loaded mission gives
      its lock state, so a locked mission with an id is reopened directly
      and an unlocked one opens the selector. */
  lemma LockFlagRoundTrip(m: Mission)
    ensures IsLocked(Some(MissionController.LockFlag(m.locked))) == m.locked
    ensures MissionsClick(Some(m.id), Some(MissionController.LockFlag(m.locked)))
         == if m.locked && m.id != "" then
              GoToMission(Location(MissionPagePath, Some(EmptyState.(selectedMissionId := Some(m.id)))))
            else OpenSelector
  {
  }

  /** After a successful check-in removed both keys, Missions opens the
      selector and no choice in it is refused by the lock. */
  lemma FreshCheckInUnlocks(missionId: MissionId)
    ensures MissionsClick(None, None) == OpenSelector
    ensures MissionSelector.Handle(false, false, false, None, IsLocked(None), missionId) == MissionSelector.CallBackend
  {
  }

  /** A stored lock without a usable mission id opens the selector in a state
      where every choice is refused. */
  lemma LockedWithoutIdRefusesAll(activeMissionId: Option<string>, missionId: MissionId)
    requires !Truthy(activeMissionId)
    ensures MissionsClick(activeMissionId, Some("1")) == OpenSelector
    ensures MissionSelector.Handle(false, false, false, activeMissionId, IsLocked(Some("1")), missionId)
         == MissionSelector.LockedOut
  {
  }
}
