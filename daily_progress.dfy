/** The mission page that keeps progress in the device store and wipes it
    when a check-in falls on a new calendar day. The calendar day is the
    string the page compares (`toDateString` of the check-in), taken as a
    parameter. */
module DailyProgress {
  import opened Wrappers
  import opened Domain
  import opened Storage
  import opened Navigation

  function Flag(b: bool): nat {
    if b then 1 else 0
  }

  // ---------------------------------------------------------------
  // The built-in mission and its derived counts
  // ---------------------------------------------------------------

  /** `getDummyMission(completed)`: mission m1 with tasks t1, t2, t3, each
      flagged completed exactly when its id is in `completed`. */
  function DummyMission(completed: seq<TaskId>): (m: Mission)
    ensures m.id == "m1" && !m.locked && |m.tasks| == 3
    ensures m.tasks[0].id == "t1" && m.tasks[1].id == "t2" && m.tasks[2].id == "t3"
    ensures forall i :: 0 <= i < |m.tasks| ==> m.tasks[i].completed == (m.tasks[i].id in completed)
  {
    Mission("m1", [
      Task("t1", 1, "entertainment", "dolphin-location", 300, "t1" in completed),
      Task("t2", 2, "food", "ichiran-location", 100, "t2" in completed),
      Task("t3", 3, "sports", "stadium-location", 400, "t3" in completed)
    ], false)
  }

  /** The completed count of the built-in mission is the number of its three
      ids present in the list (duplicates in the list do not count twice),
      and the mission is complete exactly when all three are present. */
  lemma DummyProgress(completed: seq<TaskId>)
    ensures CompletedCount(Some(DummyMission(completed)))
         == Flag("t1" in completed) + Flag("t2" in completed) + Flag("t3" in completed)
    ensures AllTasksComplete(DummyMission(completed))
        <==> "t1" in completed && "t2" in completed && "t3" in completed
  {
    var ts := DummyMission(completed).tasks;
    assert ts[2..][1..] == [];
    assert CountCompleted(ts[2..]) == Flag(ts[2].completed) + CountCompleted(ts[2..][1..]);
    assert ts[1..][1..] == ts[2..];
    assert CountCompleted(ts[1..]) == Flag(ts[1].completed) + CountCompleted(ts[2..]);
    assert CountCompleted(ts) == Flag(ts[0].completed) + CountCompleted(ts[1..]);
  }

  // ---------------------------------------------------------------
  // Achievement tally
  // ---------------------------------------------------------------

  const NoAchievements := Achievements(0, 0, 0)

  const KnownTaskIds: set<TaskId> := {"t1", "t2", "t3"}

  /** The `taskTypes` table. */
  function TaskType(taskId: TaskId): Option<string> {
    if taskId == "t1" then Some("entertainment")
    else if taskId == "t2" then Some("food")
    else if taskId == "t3" then Some("sports")
    else None
  }

  /** The stored tally, or the all-zero default when the key is absent. */
  function StoredOrDefault(a: Option<Achievements>): Achievements {
    a.GetOr(NoAchievements)
  }

  function Total(a: Achievements): int {
    a.food + a.entertainment + a.shopping
  }

  /** The tally after `updateAchievements(taskId)`: no counter decreases, and
      the sum grows by one exactly for the three known task ids. */
  function Bump(a: Achievements, taskId: TaskId): (b: Achievements)
    ensures b.food >= a.food && b.entertainment >= a.entertainment && b.shopping >= a.shopping
    ensures Total(b) == Total(a) + Flag(taskId in KnownTaskIds)
  {
    var kind := TaskType(taskId);
    var a1 := if kind == Some("food") then a.(food := a.food + 1) else a;
    var a2 := if kind == Some("entertainment") then a1.(entertainment := a1.entertainment + 1) else a1;
    if kind == Some("sports") then a2.(shopping := a2.shopping + 1) else a2
  }

  /** Which counter each task id moves: t1 entertainment, t2 food, t3 (of
      type "sports") shopping, and any other id none. */
  lemma BumpByTask(a: Achievements, other: TaskId)
    requires other !in KnownTaskIds
    ensures Bump(a, "t1") == a.(entertainment := a.entertainment + 1)
    ensures Bump(a, "t2") == a.(food := a.food + 1)
    ensures Bump(a, "t3") == a.(shopping := a.shopping + 1)
    ensures Bump(a, other) == a
  {
  }

  // ---------------------------------------------------------------
  // The progress state and its transitions
  // ---------------------------------------------------------------

  /** The part of the state this page owns: three store keys and the
      in-memory `completedTasks` list. */
  datatype Progress = Progress(
    lastCheckinDate: Option<string>,
    saved: Option<StoredList>,
    achievements: Option<Achievements>,
    completed: seq<TaskId>)

  /** `lastCheckinDate !== today`: true also when nothing is stored. */
  predicate ShouldReset(lastCheckinDate: Option<string>, today: string) {
    lastCheckinDate != Some(today)
  }

  /** `checkAndResetForNewDay`. */
  function ResetForNewDay(p: Progress, today: string): Progress {
    if ShouldReset(p.lastCheckinDate, today) then
      p.(lastCheckinDate := Some(today), saved := None, completed := [])
    else p
  }

  /** Loading the saved list: a parsed list replaces the in-memory one, text
      that fails to parse empties it, and an absent or empty value (both
      falsy) leaves it alone. */
  function Restore(p: Progress): Progress {
    match p.saved
    case Some(Parsed(ids)) => p.(completed := ids)
    case Some(Malformed) => p.(completed := [])
    case _ => p
  }

  /** The mount-time effect: reset on a new day, otherwise restore. */
  function CheckIn(p: Progress, today: string): Progress {
    if ShouldReset(p.lastCheckinDate, today) then ResetForNewDay(p, today) else Restore(p)
  }

  /** Merging one completed task id (the state updater of the completion effect). */
  function Merge(p: Progress, taskId: TaskId): Progress {
    if taskId in p.completed then p
    else
      var list := p.completed + [taskId];
      p.(completed := list, saved := Some(Parsed(list)),
         achievements := Some(Bump(StoredOrDefault(p.achievements), taskId)))
  }

  /** The completed task id carried by a navigation state, if truthy. */
  function PendingCompletion(state: Option<NavState>): Option<TaskId> {
    if state.Some? && Truthy(state.value.completedTaskId) then state.value.completedTaskId else None
  }

  /** The completion effect as a whole: merge the carried id, then replace the
      state by `{}` on the same path. */
  function OnNavigation(p: Progress, loc: Location): (Progress, Location) {
    match PendingCompletion(loc.state)
    case None => (p, loc)
    case Some(taskId) => (Merge(p, taskId), Location(loc.path, Some(EmptyState)))
  }

  /** A sequence of completion deliveries, merged in order. */
  function Replay(p: Progress, ids: seq<TaskId>): Progress
    decreases |ids|
  {
    if ids == [] then p else Replay(Merge(p, ids[0]), ids[1..])
  }

  predicate Distinct(s: seq<TaskId>) {
    forall i, j :: 0 <= i < j < |s| ==> s[i] != s[j]
  }

  /** The stored list and the in-memory list agree: either the list was
      written back, or both were cleared by a reset. */
  predicate Persisted(p: Progress) {
    p.saved == Some(Parsed(p.completed)) || (p.saved == None && p.completed == [])
  }

  // ---------------------------------------------------------------
  // Properties of the daily reset
  // ---------------------------------------------------------------

  /** A missing or different stored date resets: the new date is stored, the
      saved list is removed, the in-memory list emptied; the achievement
      tally is not touched. On the same date the stored keys are not
      written, and the list is whatever the saved value restores. */
  lemma CheckInOutcomes(p: Progress, today: string)
    ensures ShouldReset(p.lastCheckinDate, today) <==> p.lastCheckinDate.None? || p.lastCheckinDate.value != today
    ensures ShouldReset(p.lastCheckinDate, today) ==>
      CheckIn(p, today) == Progress(Some(today), None, p.achievements, [])
    ensures !ShouldReset(p.lastCheckinDate, today) ==>
      var q := CheckIn(p, today);
      && q.lastCheckinDate == p.lastCheckinDate && q.saved == p.saved && q.achievements == p.achievements
      && (p.saved == Some(Malformed) ==> q.completed == [])
      && (p.saved.Some? && p.saved.value.Parsed? ==> q.completed == p.saved.value.ids)
      && (p.saved.None? || p.saved == Some(Blank) ==> q.completed == p.completed)
  {
  }

  /** A second check-in on the same day neither resets nor changes anything. */
  lemma CheckInOncePerDay(p: Progress, today: string)
    ensures !ShouldReset(CheckIn(p, today).lastCheckinDate, today)
    ensures CheckIn(CheckIn(p, today), today) == CheckIn(p, today)
  {
  }

  /** Merging and checking in keep the stored list in step with the
      in-memory one, so a fresh page on the same day shows the same list. */
  lemma PersistedInvariant(p: Progress, taskId: TaskId, today: string)
    requires Persisted(p)
    ensures Persisted(Merge(p, taskId))
    ensures Persisted(CheckIn(p, today))
    ensures p.lastCheckinDate == Some(today) ==> CheckIn(p.(completed := []), today).completed == p.completed
  {
  }

  // ---------------------------------------------------------------
  // Properties of completion merging
  // ---------------------------------------------------------------

  /** A merge of an id already present changes nothing (neither the list nor
      the two store keys); a new id is appended at the end, the list is
      written back, and the tally is bumped once for it. */
  lemma MergeOutcomes(p: Progress, taskId: TaskId)
    ensures taskId in p.completed ==> Merge(p, taskId) == p
    ensures taskId !in p.completed ==>
      var q := Merge(p, taskId);
      && q.completed == p.completed + [taskId]
      && q.saved == Some(Parsed(q.completed))
      && q.achievements == Some(Bump(StoredOrDefault(p.achievements), taskId))
      && q.lastCheckinDate == p.lastCheckinDate
    ensures Merge(Merge(p, taskId), taskId) == Merge(p, taskId)
  {
  }

  /** Handling a navigation twice is handling it once: the first pass
      consumes the completion event. */
  lemma EventConsumedOnce(p: Progress, loc: Location)
    ensures OnNavigation(OnNavigation(p, loc).0, OnNavigation(p, loc).1) == OnNavigation(p, loc)
    ensures PendingCompletion(OnNavigation(p, loc).1.state) == None
  {
  }

  /** After any sequence of deliveries the list holds exactly the ids it held
      before together with the delivered ones. */
  lemma {:induction false} ReplayContents(p: Progress, ids: seq<TaskId>)
    decreases |ids|
    ensures forall x :: x in Replay(p, ids).completed <==> x in p.completed || x in ids
    ensures Replay(p, ids).lastCheckinDate == p.lastCheckinDate
  {
    if ids != [] {
      ReplayContents(Merge(p, ids[0]), ids[1..]);
    }
  }

  /** Delivering only ids already in the list is a no-op. */
  lemma {:induction false} ReplayKnownIsNoOp(p: Progress, ids: seq<TaskId>)
    decreases |ids|
    requires forall x :: x in ids ==> x in p.completed
    ensures Replay(p, ids) == p
  {
    if ids != [] {
      ReplayKnownIsNoOp(p, ids[1..]);
    }
  }

  /** Re-delivering a whole batch of completion events after it was merged
      leaves the list, the saved value and the tally as they were. */
  lemma RedeliveryIsNoOp(p: Progress, ids: seq<TaskId>)
    ensures Replay(Replay(p, ids), ids) == Replay(p, ids)
  {
    ReplayContents(p, ids);
    ReplayKnownIsNoOp(Replay(p, ids), ids);
  }

  /** The list never gains a duplicate. */
  lemma {:induction false} ReplayDistinct(p: Progress, ids: seq<TaskId>)
    decreases |ids|
    requires Distinct(p.completed)
    ensures Distinct(Replay(p, ids).completed)
  {
    if ids != [] {
      ReplayDistinct(Merge(p, ids[0]), ids[1..]);
    }
  }

  /** The tally grows by at most one per id added to the list, and by exactly
      one per added id when every delivered id is a known task. */
  lemma {:induction false} ReplayTally(p: Progress, ids: seq<TaskId>)
    decreases |ids|
    ensures |Replay(p, ids).completed| >= |p.completed|
    ensures Total(StoredOrDefault(Replay(p, ids).achievements)) - Total(StoredOrDefault(p.achievements))
         <= |Replay(p, ids).completed| - |p.completed|
    ensures (forall x :: x in ids ==> x in KnownTaskIds) ==>
      Total(StoredOrDefault(Replay(p, ids).achievements)) - Total(StoredOrDefault(p.achievements))
      == |Replay(p, ids).completed| - |p.completed|
  {
    if ids != [] {
      ReplayTally(Merge(p, ids[0]), ids[1..]);
    }
  }

  /** Completing t1, receiving t1 again, then t2 and t3 on a fresh day: the
      list is t1, t2, t3 once each, each counter is 1, and the mission shows
      all three tasks done. */
  lemma ThreeTaskScenario(today: string, deliveries: seq<TaskId>)
    requires deliveries == ["t1", "t1", "t2", "t3"]
    ensures
      var p := Replay(CheckIn(Progress(None, None, None, []), today), deliveries);
      && p.completed == ["t1", "t2", "t3"]
      && p.achievements == Some(Achievements(1, 1, 1))
      && CompletedCount(Some(DummyMission(p.completed))) == 3
      && AllTasksComplete(DummyMission(p.completed))
  {
    var p0 := CheckIn(Progress(None, None, None, []), today);
    var p1 := ScenarioMerge(p0, "t1", Achievements(0, 1, 0));
    ReplayStep(p0, deliveries);
    assert deliveries[1..] == ["t1", "t2", "t3"];
    ReplayStep(p1, ["t1", "t2", "t3"]);
    var p2 := ScenarioMerge(p1, "t2", Achievements(1, 1, 0));
    ReplayStep(p1, ["t2", "t3"]);
    var p3 := ScenarioMerge(p2, "t3", Achievements(1, 1, 1));
    ReplayStep(p2, ["t3"]);
    assert Replay(p0, deliveries) == p3;
    assert p0.completed == [];
    assert p1.completed == ["t1"];
    assert p2.completed == ["t1", "t2"];
    assert p3.completed == ["t1", "t2", "t3"];
    assert CompletedCount(Some(DummyMission(p3.completed))) == 3 && AllTasksComplete(DummyMission(p3.completed)) by {
      assert "t1" in p3.completed && "t2" in p3.completed && "t3" in p3.completed;
      DummyProgress(p3.completed);
    }
  }

  /** One new id of the scenario above, with the tally it leads to. */
  lemma ScenarioMerge(p: Progress, taskId: TaskId, tally: Achievements) returns (q: Progress)
    requires taskId in KnownTaskIds && taskId !in p.completed
    requires tally == Bump(StoredOrDefault(p.achievements), taskId)
    ensures q == Merge(p, taskId)
    ensures q.completed == p.completed + [taskId] && q.achievements == Some(tally)
  {
    q := Merge(p, taskId);
  }

  lemma ReplayStep(p: Progress, ids: seq<TaskId>)
    requires ids != []
    ensures Replay(p, ids) == Replay(Merge(p, ids[0]), ids[1..])
  {
  }

  // ---------------------------------------------------------------
  // The page
  // ---------------------------------------------------------------

  class DailyMissionPage {
    var completedTasks: seq<TaskId>
    var mission: Option<Mission>
    var loading: bool
    const store: LocalStorage
    const router: Router

    ghost function State(): Progress
      reads this, store
    {
      Progress(store.lastCheckinDate, store.completedTasks, store.achievements, completedTasks)
    }

    constructor (store: LocalStorage, router: Router)
      ensures this.store == store && this.router == router
      ensures completedTasks == [] && mission == None && loading
    {
      this.store := store;
      this.router := router;
      completedTasks := [];
      mission := None;
      loading := true;
    }

    /** `checkAndResetForNewDay(checkinDate)`. */
    method CheckAndResetForNewDay(today: string) returns (isNewDay: bool)
      modifies this`completedTasks, store`lastCheckinDate, store`completedTasks
      ensures isNewDay == ShouldReset(old(store.lastCheckinDate), today)
      ensures State() == ResetForNewDay(old(State()), today)
    {
      var last := store.lastCheckinDate;
      if last != Some(today) {
        store.lastCheckinDate := Some(today);
        store.completedTasks := None;
        completedTasks := [];
        return true;
      }
      return false;
    }

    /** The mount effect that checks the date and loads the saved list. */
    method LoadProgress(today: string)
      modifies this`completedTasks, store`lastCheckinDate, store`completedTasks
      ensures State() == CheckIn(old(State()), today)
    {
      var isNewDay := CheckAndResetForNewDay(today);
      if !isNewDay {
        var saved := store.completedTasks;
        // `if (saved)`: an absent key and an empty string are both skipped.
        match saved {
          case Some(Parsed(ids)) => completedTasks := ids;
          case Some(Malformed) => completedTasks := [];
          case _ =>
        }
      }
    }

    /** `updateAchievements(taskId)`. */
    method UpdateAchievements(taskId: TaskId)
      modifies store`achievements
      ensures store.achievements == Some(Bump(StoredOrDefault(old(store.achievements)), taskId))
    {
      var achievements := store.achievements.GetOr(NoAchievements);
      var kind := TaskType(taskId);
      if kind == Some("food") {
        achievements := achievements.(food := achievements.food + 1);
      }
      if kind == Some("entertainment") {
        achievements := achievements.(entertainment := achievements.entertainment + 1);
      }
      if kind == Some("sports") {
        achievements := achievements.(shopping := achievements.shopping + 1);
      }
      store.achievements := Some(achievements);
    }

    /** The effect that merges a `completedTaskId` from navigation state and
        then clears that state. */
    method HandleCompletionEvent()
      modifies this`completedTasks, store`completedTasks, store`achievements, router
      ensures (State(), router.location) == OnNavigation(old(State()), old(router.location))
    {
      var state := router.location.state;
      if state.Some? && Truthy(state.value.completedTaskId) {
        var taskId := state.value.completedTaskId.value;
        if taskId !in completedTasks {
          var newCompletedTasks := completedTasks + [taskId];
          store.completedTasks := Some(Parsed(newCompletedTasks));
          UpdateAchievements(taskId);
          completedTasks := newCompletedTasks;
        }
        router.Navigate(router.location.path, Some(EmptyState));
      }
    }

    /** The effect that rebuilds the mission from the list. */
    method RefreshMission()
      modifies this`mission, this`loading
      ensures mission == Some(DummyMission(completedTasks)) && !loading
    {
      loading := true;
      mission := Some(DummyMission(completedTasks));
      loading := false;
    }

    /** The three effects, in the order the page declares them. */
    method Activate(today: string)
      modifies this`completedTasks, this`mission, this`loading, store`lastCheckinDate,
        store`completedTasks, store`achievements, router
      ensures (State(), router.location) == OnNavigation(CheckIn(old(State()), today), old(router.location))
      ensures mission == Some(DummyMission(completedTasks)) && !loading
    {
      LoadProgress(today);
      HandleCompletionEvent();
      RefreshMission();
    }

    /** `handleTaskClick(task)`: a completed task is ignored; any other opens
        its location page carrying the task and the mission id. */
    method HandleTaskClick(task: Task)
      requires mission.Some?
      modifies router
      ensures task.completed ==> router.location == old(router.location)
      ensures !task.completed ==> (router.location ==
        Location(LocationPath(task.locationId), Some(EmptyState.(task := Some(task), missionId := Some(mission.value.id)))))
    {
      if task.completed {
        return;
      }
      router.Navigate(LocationPath(task.locationId),
        Some(EmptyState.(task := Some(task), missionId := Some(mission.value.id))));
    }
  }
}
