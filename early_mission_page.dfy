/** The earliest mission page: it fetches mission m1 (falling back to a
    built-in mission when the fetch fails), highlights the first task not yet
    completed as the recommended one, and counts completed tasks. */
module EarlyMissionPage {
  import opened Wrappers
  import opened Domain
  import opened Navigation

  /** `getDummyMission()`: mission m1 with three tasks, none completed. */
  function FallbackMission(): (m: Mission)
    ensures m.id == "m1" && |m.tasks| == 3
    ensures forall i :: 0 <= i < |m.tasks| ==> !m.tasks[i].completed
  {
    Mission("m1", [
      Task("t1", 1, "food", "loc1", 300, false),
      Task("t2", 2, "photo", "loc2", 100, false),
      Task("t3", 3, "entertainment", "loc3", 400, false)
    ], false)
  }

  /** The mission `fetchMission` leaves in state: the response data, or the
      fallback mission when the request fails. */
  function LoadedMission(outcome: FetchOutcome): Mission {
    match outcome
    case Fetched(data) => data
    case FetchFailed => FallbackMission()
  }

  /** The position `tasks.find((task) => !task.completed)` stops at. */
  function FirstIncomplete(tasks: seq<Task>): (r: Option<nat>)
    ensures r.Some? ==> r.value < |tasks| && !tasks[r.value].completed
    ensures r.Some? ==> forall j :: 0 <= j < r.value ==> tasks[j].completed
    ensures r.None? ==> AllCompleted(tasks)
  {
    if tasks == [] then None
    else if !tasks[0].completed then Some(0)
    else
      match FirstIncomplete(tasks[1..])
      case None => None
      case Some(k) => Some(k + 1)
  }

  /** `getRecommendedTask()`: the first task in list order that is not
      completed; none when no mission is loaded or every task is completed. */
  function RecommendedTask(mission: Option<Mission>): (r: Option<Task>)
    ensures mission.None? ==> r.None?
    ensures mission.Some? ==> (r.None? <==> AllCompleted(mission.value.tasks))
    ensures r.Some? ==> !r.value.completed && r.value in mission.value.tasks
  {
    match mission
    case None => None
    case Some(m) =>
      match FirstIncomplete(m.tasks)
      case None => None
      case Some(i) => Some(m.tasks[i])
  }

  /** `recommendedTask?.id === task.id`: the card's highlight. */
  predicate IsRecommended(recommended: Option<Task>, task: Task) {
    recommended.Some? && recommended.value.id == task.id
  }

  predicate DistinctIds(tasks: seq<Task>) {
    forall i, j :: 0 <= i < j < |tasks| ==> tasks[i].id != tasks[j].id
  }

  /** `handleTaskClick(task)`: always opens the task's location page, carrying
      the task and the mission id, whether or not the task is completed. */
  function TaskClickTarget(mission: Mission, task: Task): (loc: Location)
    ensures loc.path == LocationPath(task.locationId)
    ensures loc.state.Some? && loc.state.value.task == Some(task) && loc.state.value.missionId == Some(mission.id)
    ensures loc.state.value.completedTaskId.None?
  {
    Location(LocationPath(task.locationId), Some(EmptyState.(task := Some(task), missionId := Some(mission.id))))
  }

  /** With distinct task ids exactly one card is highlighted — the one at the
      first incomplete position — or none when every task is completed. */
  lemma RecommendedCardUnique(m: Mission)
    requires DistinctIds(m.tasks)
    ensures forall i :: 0 <= i < |m.tasks| ==>
      (IsRecommended(RecommendedTask(Some(m)), m.tasks[i]) <==> FirstIncomplete(m.tasks) == Some(i))
    ensures forall i, j ::
      (0 <= i < |m.tasks| && 0 <= j < |m.tasks| &&
       IsRecommended(RecommendedTask(Some(m)), m.tasks[i]) && IsRecommended(RecommendedTask(Some(m)), m.tasks[j]))
      ==> i == j
  {
  }

  /** When the fetch fails the fallback mission shows no task completed and
      recommends its first task, t1. */
  lemma FallbackProgress()
    ensures CompletedCount(Some(LoadedMission(FetchFailed))) == 0
    ensures RecommendedTask(Some(LoadedMission(FetchFailed))) == Some(FallbackMission().tasks[0])
    ensures FallbackMission().tasks[0].id == "t1"
  {
    CountCompletedZero(FallbackMission().tasks);
  }
}
