/** Entities shared by the mission views: tasks, missions, and the
    outcome of fetching a mission from the remote service. */
module Domain {
  import opened Wrappers

  type TaskId = string
  type MissionId = string

  /** A task as the views hold it; `kind` is the source's `type` field. */
  datatype Task = Task(
    id: TaskId,
    order: nat,
    kind: string,
    locationId: string,
    reward: int,
    completed: bool)

  /** A mission; `locked` is false when the source object has no such field. */
  datatype Mission = Mission(id: MissionId, tasks: seq<Task>, locked: bool)

  /** What `getMissionById` resolved to: the response data, or a rejection. */
  datatype FetchOutcome = Fetched(data: Mission) | FetchFailed

  /** What `completeTask` resolved to: the response data, or a rejection.
      `missionLocked` is read only by the later location page. */
  datatype CompleteOutcome =
    | Completed(reward: int, newTotalPoints: int, missionCompleted: bool, missionLocked: bool)
    | CompleteFailed

  /** JavaScript truthiness of an optional string: absent and "" are falsy. */
  predicate Truthy(s: Option<string>) {
    s.Some? && s.value != ""
  }

  predicate AllCompleted(tasks: seq<Task>) {
    forall i :: 0 <= i < |tasks| ==> tasks[i].completed
  }

  /** `tasks.filter((t) => t.completed).length`. */
  function CountCompleted(tasks: seq<Task>): (n: nat)
    ensures n <= |tasks|
  {
    if tasks == [] then 0
    else (if tasks[0].completed then 1 else 0) + CountCompleted(tasks[1..])
  }

  /** `mission?.tasks.filter((t) => t.completed).length || 0`. */
  function CompletedCount(mission: Option<Mission>): (n: nat)
    ensures n <= if mission.Some? then |mission.value.tasks| else 0
  {
    match mission
    case None => 0
    case Some(m) => CountCompleted(m.tasks)
  }

  /** `completedCount === mission.tasks.length`, with no guard for an empty list. */
  predicate AllTasksComplete(m: Mission) {
    CountCompleted(m.tasks) == |m.tasks|
  }

  /** The count reaches the length exactly when every task is flagged. */
  lemma {:induction false} CountCompletedFull(tasks: seq<Task>)
    ensures CountCompleted(tasks) == |tasks| <==> AllCompleted(tasks)
  {
    if tasks != [] {
      CountCompletedFull(tasks[1..]);
      assert forall i :: 1 <= i < |tasks| ==> tasks[i] == tasks[1..][i - 1];
    }
  }

  /** The count is zero exactly when no task is flagged. */
  lemma {:induction false} CountCompletedZero(tasks: seq<Task>)
    ensures CountCompleted(tasks) == 0 <==> forall i :: 0 <= i < |tasks| ==> !tasks[i].completed
  {
    if tasks != [] {
      CountCompletedZero(tasks[1..]);
      assert forall i :: 1 <= i < |tasks| ==> tasks[i] == tasks[1..][i - 1];
    }
  }

  /** "All tasks complete" holds iff every task is flagged completed; in
      particular it holds of a mission with no tasks at all. */
  lemma AllTasksCompleteIff(m: Mission)
    ensures AllTasksComplete(m) <==> AllCompleted(m.tasks)
    ensures m.tasks == [] ==> AllTasksComplete(m)
  {
    CountCompletedFull(m.tasks);
  }
}
