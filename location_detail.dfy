/** The later location page: its check-in also returns the mission id (and
    the service's lock flag), so the mission page that loads missions from
    the remote service can refetch the same mission; a failure and the back
    button return to that mission too. */
module LocationDetail {
  import opened Wrappers
  import opened Domain
  import opened Navigation
  import MissionController

  const MissingTaskAlert := "タスク情報が見つかりません。ミッションページに戻ります。"
  const CompletionErrorAlert := "タスクの完了中にエラーが発生しました"

  /** The state sent back on success. */
  function SuccessState(task: Task, missionId: MissionId, outcome: CompleteOutcome): NavState
    requires outcome.Completed?
  {
    EmptyState.(selectedMissionId := Some(missionId), completedTaskId := Some(task.id),
                taskReward := Some(outcome.reward), newTotalPoints := Some(outcome.newTotalPoints),
                missionCompleted := Some(outcome.missionCompleted), missionLocked := Some(outcome.missionLocked))
  }

  /** Where the back button and a failed completion go: the mission page,
      naming the mission (absent when none was received). */
  function BackLocation(missionId: Option<MissionId>): Location {
    Location(MissionPagePath, Some(EmptyState.(selectedMissionId := missionId)))
  }

  /** `handleTaskCompletion`: where the router ends up and the alert shown,
      if any. */
  function Completion(completing: bool, task: Option<Task>, missionId: Option<MissionId>,
                      outcome: CompleteOutcome, current: Location): (Location, Option<string>)
  {
    if task.None? || !Truthy(missionId) then (Location(MissionPagePath, None), Some(MissingTaskAlert))
    else if completing then (current, None)
    else match outcome
      case Completed(_, _, _, _) =>
        (Location(MissionPagePath, Some(SuccessState(task.value, missionId.value, outcome))), None)
      case CompleteFailed => (BackLocation(missionId), Some(CompletionErrorAlert))
  }

  /** The check-in button is rendered only with both a task and a mission
      id; otherwise an error banner is. */
  predicate CheckInShown(task: Option<Task>, missionId: Option<MissionId>) {
    task.Some? && Truthy(missionId)
  }

  /** The check-in button carries `disabled={completing}`. */
  predicate CheckInDisabled(completing: bool) {
    completing
  }

  /** Outside the guard the page returns to the mission page; the missing
      data path is exactly the one without a state, a completion is carried
      exactly on success, and every other return names the mission. */
  lemma CompletionOutcomes(completing: bool, task: Option<Task>, missionId: Option<MissionId>,
                           outcome: CompleteOutcome, current: Location)
    ensures var (loc, alert) := Completion(completing, task, missionId, outcome, current);
      && (completing && CheckInShown(task, missionId) ==> loc == current && alert.None?)
      && (!completing || !CheckInShown(task, missionId) ==>
            && loc.path == MissionPagePath
            && (loc.state.None? <==> !CheckInShown(task, missionId))
            && (loc.state.Some? ==> loc.state.value.selectedMissionId == missionId)
            && (loc.state.Some? && loc.state.value.completedTaskId.Some? <==> CheckInShown(task, missionId) && outcome.Completed?)
            && (alert.None? <==> CheckInShown(task, missionId) && outcome.Completed?))
  {
  }

  /** The button is shown exactly when a press cannot take the missing-data
      path. A shown button is disabled exactly while a completion is in
      flight, and a press then is the guard path (nothing changes, no
      alert); a shown, enabled button always leaves for the mission page
      with a state naming the mission. */
  lemma ShownMeansComplete(completing: bool, task: Option<Task>, missionId: Option<MissionId>,
                           outcome: CompleteOutcome, current: Location)
    ensures CheckInShown(task, missionId) <==> Completion(false, task, missionId, outcome, current).1 != Some(MissingTaskAlert)
    ensures CheckInDisabled(completing) <==> completing
    ensures CheckInShown(task, missionId) && CheckInDisabled(completing) ==>
      Completion(completing, task, missionId, outcome, current) == (current, None)
    ensures CheckInShown(task, missionId) && !CheckInDisabled(completing) ==>
      var loc := Completion(completing, task, missionId, outcome, current).0;
      loc.path == MissionPagePath && loc.state.Some? && loc.state.value.selectedMissionId == missionId
  {
  }

  /** A successful check-in arriving at a freshly mounted mission page: the
      mount effect fetches the named mission and keeps the state, because it
      carries a completion. The completion effect of the same first commit
      sees the first render, which has no current mission, so it neither
      refetches nor clears, and the completion stays in the state. */
  lemma SuccessOnFreshMount(v: MissionController.View, task: Task, missionId: MissionId,
                            outcome: CompleteOutcome, f: FetchOutcome, f2: FetchOutcome, current: Location)
    requires missionId != "" && task.id != "" && outcome.Completed?
    requires !Truthy(v.currentMissionId)
    ensures var loc := Completion(false, Some(task), Some(missionId), outcome, current).0;
      && MissionController.OnMount(v, loc, f) == (MissionController.Fetch(v, missionId, f), loc)
      && MissionController.OnCompletion(v, loc, f2) == (v, loc)
      && loc.state.Some? && loc.state.value.completedTaskId == Some(task.id)
      && loc.state.value.selectedMissionId == Some(missionId)
  {
  }

  /** A failed check-in, like the back button, makes the mission page fetch
      the mission it came from and clear the state; no completion follows. */
  lemma FailureReturnsToMission(v: MissionController.View, task: Task, missionId: MissionId, f: FetchOutcome, current: Location)
    requires missionId != ""
    ensures Completion(false, Some(task), Some(missionId), CompleteFailed, current).0 == BackLocation(Some(missionId))
    ensures var mounted := MissionController.OnMount(v, BackLocation(Some(missionId)), f);
      && mounted == (MissionController.Fetch(v, missionId, f), Location(MissionPagePath, Some(EmptyState)))
      && MissionController.OnCompletion(mounted.0, mounted.1, f) == mounted
  {
  }

  /** The missing-data return carries no mission, so a freshly mounted
      mission page reports that none is selected. */
  lemma MissingDataLandsOnError(v: MissionController.View, outcome: CompleteOutcome, f: FetchOutcome, current: Location)
    requires !Truthy(v.currentMissionId)
    ensures var loc := Completion(false, None, None, outcome, current).0;
      MissionController.OnMount(v, loc, f).0 == v.(error := Some(MissionController.NoSelectionError), loading := false)
  {
  }

  class LocationPage {
    var completing: bool
    const task: Option<Task>
    const missionId: Option<MissionId>
    const router: Router

    constructor (task: Option<Task>, missionId: Option<MissionId>, router: Router)
      ensures this.task == task && this.missionId == missionId && this.router == router && !completing
    {
      this.task, this.missionId, this.router := task, missionId, router;
      completing := false;
    }

    /** `handleTaskCompletion`, with the service's answer as a parameter;
        returns the alert shown, if any. */
    method HandleTaskCompletion(outcome: CompleteOutcome) returns (alert: Option<string>)
      modifies this, router
      ensures (router.location, alert) == Completion(old(completing), task, missionId, outcome, old(router.location))
      ensures completing == old(completing)
    {
      if task.None? || !Truthy(missionId) {
        alert := Some(MissingTaskAlert);
        router.Navigate(MissionPagePath, None);
        return;
      }
      if completing {
        return None;
      }
      completing := true;
      match outcome {
        case Completed(_, _, _, _) =>
          router.Navigate(MissionPagePath, Some(SuccessState(task.value, missionId.value, outcome)));
          alert := None;
        case CompleteFailed =>
          alert := Some(CompletionErrorAlert);
          router.Navigate(MissionPagePath, Some(EmptyState.(selectedMissionId := missionId)));
      }
      completing := false;
    }

    /** The back button. */
    method GoBack()
      modifies router
      ensures router.location == BackLocation(missionId)
    {
      router.Navigate(MissionPagePath, Some(EmptyState.(selectedMissionId := missionId)));
    }
  }
}
