/** The first location page: its check-in completes the task on the remote
    service and returns to the mission page carrying the completion, which
    the daily mission page merges into its progress. */
module LocationDetailEarly {
  import opened Wrappers
  import opened Domain
  import opened Navigation
  import DailyProgress

  const CompletionErrorAlert := "タスクの完了中にエラーが発生しました"

  /** The state sent back on success. */
  function SuccessState(task: Task, outcome: CompleteOutcome): NavState
    requires outcome.Completed?
  {
    EmptyState.(completedTaskId := Some(task.id), taskReward := Some(outcome.reward),
                newTotalPoints := Some(outcome.newTotalPoints), missionCompleted := Some(outcome.missionCompleted))
  }

  /** `handleTaskCompletion`: where the router ends up and whether the error
      alert was shown, given the `completing` flag, the received `task` and
      `missionId`, the service's answer and the current location. */
  function Completion(completing: bool, task: Option<Task>, missionId: Option<MissionId>,
                      outcome: CompleteOutcome, current: Location): (Location, bool)
  {
    if task.None? || !Truthy(missionId) then (Location(MissionPagePath, None), false)
    else if completing then (current, false)
    else match outcome
      case Completed(_, _, _, _) => (Location(MissionPagePath, Some(SuccessState(task.value, outcome))), false)
      case CompleteFailed => (Location(MissionPagePath, None), true)
  }

  /** The check-in button is rendered whenever a task was received. */
  predicate CheckInShown(task: Option<Task>) {
    task.Some?
  }

  /** The check-in button carries `disabled={completing}`. */
  predicate CheckInDisabled(completing: bool) {
    completing
  }

  /** Outside the `completing` guard the page always returns to the mission
      page; it carries a completion exactly when the service accepted a
      task with a non-empty id, and alerts exactly when the service failed. */
  lemma CompletionOutcomes(completing: bool, task: Option<Task>, missionId: Option<MissionId>,
                           outcome: CompleteOutcome, current: Location)
    ensures var (loc, alerted) := Completion(completing, task, missionId, outcome, current);
      && (completing && task.Some? && Truthy(missionId) ==> loc == current && !alerted)
      && (!completing || task.None? || !Truthy(missionId) ==>
            && loc.path == MissionPagePath
            && (DailyProgress.PendingCompletion(loc.state).Some?
                <==> task.Some? && Truthy(missionId) && outcome.Completed? && task.value.id != "")
            && (alerted <==> task.Some? && Truthy(missionId) && outcome.CompleteFailed?))
  {
  }

  /** Delivered to the daily mission page, a successful check-in merges
      exactly the checked-in task and nothing else does. */
  lemma CompletionMerged(p: DailyProgress.Progress, task: Option<Task>, missionId: Option<MissionId>,
                         outcome: CompleteOutcome, current: Location)
    ensures var (loc, _) := Completion(false, task, missionId, outcome, current);
      DailyProgress.OnNavigation(p, loc).0
        == if task.Some? && Truthy(missionId) && outcome.Completed? && task.value.id != ""
           then DailyProgress.Merge(p, task.value.id) else p
  {
  }

  /** The button is shown for any received task and is disabled exactly
      while a completion is in flight. An enabled button can still take the
      missing-data path: a task received without a mission id returns to the
      mission page and completes nothing. */
  lemma ShownButMissingMission(task: Task, completing: bool, outcome: CompleteOutcome, current: Location)
    ensures CheckInShown(Some(task))
    ensures CheckInDisabled(completing) <==> completing
    ensures !CheckInDisabled(completing) ==>
      Completion(completing, Some(task), None, outcome, current) == (Location(MissionPagePath, None), false)
  {
  }

  /** While the button is disabled, a press that reaches the handler with
      both task and mission id is the guard path: nothing changes and no
      alert is shown. While it is enabled, every press leaves for the
      mission page. */
  lemma DisabledWhileCompleting(completing: bool, task: Option<Task>, missionId: Option<MissionId>,
                                outcome: CompleteOutcome, current: Location)
    ensures CheckInDisabled(completing) && task.Some? && Truthy(missionId) ==>
      Completion(completing, task, missionId, outcome, current) == (current, false)
    ensures !CheckInDisabled(completing) ==>
      Completion(completing, task, missionId, outcome, current).0.path == MissionPagePath
  {
  }

  class LocationPage {
    var completing: bool
    const task: Option<Task>
    const missionId: Option<MissionId>
    const router: Router

    constructor (task: Option<Task>, missionId: Option<MissionId>, router: Router)
      ensures this.task == task && this.missionId == missionId && this.router == router && !completing
    {
      this.task, this.missionId, this.router := task, missionId, router;
      completing := false;
    }

    /** `handleTaskCompletion`, with the service's answer as a parameter. */
    method HandleTaskCompletion(outcome: CompleteOutcome) returns (alerted: bool)
      modifies this, router
      ensures (router.location, alerted) == Completion(old(completing), task, missionId, outcome, old(router.location))
      ensures completing == old(completing)
    {
      if task.None? || !Truthy(missionId) {
        router.Navigate(MissionPagePath, None);
        return false;
      }
      if completing {
        return false;
      }
      completing := true;
      match outcome {
        case Completed(_, _, _, _) =>
          router.Navigate(MissionPagePath, Some(SuccessState(task.value, outcome)));
          alerted := false;
        case CompleteFailed =>
          alerted := true;
          router.Navigate(MissionPagePath, None);
      }
      completing := false;
    }

    /** The back button. */
    method GoBack()
      modifies router
      ensures router.location == Location(MissionPagePath, None)
    {
      router.Navigate(MissionPagePath, None);
    }
  }
}
