/** The device's key/value store (`localStorage`) as seen by the mission
    views: one optional field per key, already decoded from its JSON text. */
module Storage {
  import opened Wrappers
  import opened Domain

  /** The text under `completedTasks`: empty (falsy, so skipped on load),
      a JSON array of task ids, or text that `JSON.parse` rejects. */
  datatype StoredList = Blank | Parsed(ids: seq<TaskId>) | Malformed

  /** The object under `achievements`. */
  datatype Achievements = Achievements(food: int, entertainment: int, shopping: int)

  class LocalStorage {
    var lastCheckinDate: Option<string>
    var completedTasks: Option<StoredList>
    var achievements: Option<Achievements>
    var activeMissionId: Option<string>
    var missionLocked: Option<string>

    /** A store with no keys set. */
    constructor ()
      ensures lastCheckinDate == None && completedTasks == None && achievements == None
      ensures activeMissionId == None && missionLocked == None
    {
      lastCheckinDate, completedTasks, achievements := None, None, None;
      activeMissionId, missionLocked := None, None;
    }
  }
}
