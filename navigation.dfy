/** The router's location and its one-shot `state` payload. The payload is
    a single slot: each navigation replaces it, and a view "consumes" it by
    navigating to its own path with the empty object `{}`. */
module Navigation {
  import opened Wrappers
  import opened Domain

  /** Every key any of the mission views puts into or reads from `state`;
      a key the sender leaves out is `None`. */
  datatype NavState = NavState(
    selectedMissionId: Option<MissionId>,
    isNewMission: Option<bool>,
    completedTaskId: Option<TaskId>,
    taskReward: Option<int>,
    newTotalPoints: Option<int>,
    missionCompleted: Option<bool>,
    missionLocked: Option<bool>,
    task: Option<Task>,
    missionId: Option<MissionId>)

  /** The object literal `{}`. */
  const EmptyState := NavState(None, None, None, None, None, None, None, None, None)

  /** A location: its path and its state (`None` when navigated without one). */
  datatype Location = Location(path: string, state: Option<NavState>)

  const MissionPagePath := "/mission-page"

  /** `/location/${locationId}`. */
  function LocationPath(locationId: string): string {
    "/location/" + locationId
  }

  class Router {
    var location: Location

    constructor (start: Location)
      ensures location == start
    {
      location := start;
    }

    /** `navigate(path, { state })`. */
    method Navigate(path: string, state: Option<NavState>)
      modifies this
      ensures location == Location(path, state)
    {
      location := Location(path, state);
    }
  }
}
