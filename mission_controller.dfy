/** The mission page that loads its mission from the remote service,
    mirrors the mission's id and lock flag into the device store, refetches
    after a completion event and guards mission swaps by the lock. */
module MissionController {
  import opened Wrappers
  import opened Domain
  import opened Storage
  import opened Navigation
  import MissionSelector

  const LoadError := "ミッションを読み込めませんでした"
  const NoSelectionError := "ミッションが選択されていません"
  const LockedClickAlert := "ミッションがロックされています。変更できません。"
  const LockedSwapAlert := "このミッションはロックされているため、変更できません"
  const SwapErrorAlert := "ミッション変更中にエラーが発生しました"

  /** What `swapMission` resolved to: a response (whose `data.success` may be
      false), or a rejection whose response body may carry `locked`. */
  datatype SwapOutcome = SwapResponse(success: bool) | SwapRejected(locked: bool)

  /** The page's own state together with the two store keys it writes. */
  datatype View = View(
    mission: Option<Mission>,
    loading: bool,
    error: Option<string>,
    showSwapDialog: bool,
    currentMissionId: Option<MissionId>,
    activeMissionId: Option<string>,
    missionLocked: Option<string>)

  /** The stored lock flag. */
  function LockFlag(locked: bool): (s: string)
    ensures s == "1" <==> locked
    ensures s == "0" <==> !locked
  {
    if locked then "1" else "0"
  }

  /** The store mirrors the loaded mission. */
  predicate Mirrored(v: View) {
    v.mission.Some? ==>
      v.activeMissionId == Some(v.mission.value.id) && v.missionLocked == Some(LockFlag(v.mission.value.locked))
  }

  /** The effect on `[mission]`: write the id and the lock flag. */
  function SaveActive(v: View): View {
    if v.mission.Some? then
      v.(activeMissionId := Some(v.mission.value.id), missionLocked := Some(LockFlag(v.mission.value.locked)))
    else v
  }

  /** `fetchMission(missionId)` followed by the effect its new mission triggers. */
  function Fetch(v: View, missionId: MissionId, outcome: FetchOutcome): View {
    match outcome
    case Fetched(data) =>
      SaveActive(v.(mission := Some(data), currentMissionId := Some(missionId), error := None, loading := false))
    case FetchFailed =>
      v.(error := Some(LoadError), loading := false)
  }

  /** The mount effect: fetch a selected mission (clearing the navigation
      state unless it also carries a completion), keep a current one, or
      report that none is selected. */
  function OnMount(v: View, loc: Location, outcome: FetchOutcome): (View, Location) {
    if loc.state.Some? && Truthy(loc.state.value.selectedMissionId) then
      var next := Fetch(v, loc.state.value.selectedMissionId.value, outcome);
      if Truthy(loc.state.value.completedTaskId) then (next, loc)
      else (next, Location(loc.path, Some(EmptyState)))
    else if Truthy(v.currentMissionId) then (v, loc)
    else (v.(error := Some(NoSelectionError), loading := false), loc)
  }

  /** The completion effect: refetch the current mission and clear the state. */
  function OnCompletion(v: View, loc: Location, outcome: FetchOutcome): (View, Location) {
    if loc.state.Some? && Truthy(loc.state.value.completedTaskId) && Truthy(v.currentMissionId) then
      (Fetch(v, v.currentMissionId.value, outcome), Location(loc.path, Some(EmptyState)))
    else (v, loc)
  }

  /** `handleSwapClick`: the view afterwards and the alert shown, if any. */
  function SwapClick(v: View): (View, Option<string>)
    requires v.mission.Some?
  {
    if v.mission.value.locked then (v, Some(LockedClickAlert))
    else (v.(showSwapDialog := true), None)
  }

  /** `handleSwapConfirm(newMissionId)`: the view afterwards and the alert shown, if any. */
  function SwapConfirm(v: View, newMissionId: MissionId, swap: SwapOutcome, fetch: FetchOutcome): (View, Option<string>) {
    match swap
    case SwapResponse(success) =>
      if success then (Fetch(v, newMissionId, fetch).(showSwapDialog := false), None) else (v, None)
    case SwapRejected(locked) =>
      (v, Some(if locked then LockedSwapAlert else SwapErrorAlert))
  }

  /** A choice in the swap dialog. The page renders the selector in swap
      mode with `handleSwapConfirm` as its callback and no lock props, so the
      selector hands the id over and then calls `onClose`, which hides the
      dialog before the swap resolves; the swap then runs as
      `handleSwapConfirm` says. */
  function SwapChoice(v: View, newMissionId: MissionId, swap: SwapOutcome, fetch: FetchOutcome): (View, Option<string>) {
    var (w, alert) := SwapConfirm(v, newMissionId, swap, fetch);
    (w.(showSwapDialog := false), alert)
  }

  /** The swap button is rendered only while some task is not completed. */
  function SwapButtonShown(m: Mission): (shown: bool)
    ensures shown <==> exists i :: 0 <= i < |m.tasks| && !m.tasks[i].completed
  {
    AllTasksCompleteIff(m);
    !AllTasksComplete(m)
  }

  // ---------------------------------------------------------------
  // Properties
  // ---------------------------------------------------------------

  /** A successful fetch sets the mission and the current id, clears the
      error and mirrors id and lock into the store; a failed one sets the
      error and keeps mission, current id and store. Loading ends either way. */
  lemma FetchOutcomes(v: View, missionId: MissionId, outcome: FetchOutcome)
    ensures !Fetch(v, missionId, outcome).loading
    ensures outcome.Fetched? ==>
      var w := Fetch(v, missionId, outcome);
      && w.mission == Some(outcome.data) && w.currentMissionId == Some(missionId) && w.error == None
      && w.activeMissionId == Some(outcome.data.id)
      && (w.missionLocked == Some("1") <==> outcome.data.locked)
    ensures outcome.FetchFailed? ==>
      Fetch(v, missionId, outcome) == v.(error := Some(LoadError), loading := false)
  {
  }

  /** Every transition of the page keeps the store mirroring the loaded mission. */
  lemma MirrorInvariant(v: View, loc: Location, id: MissionId, swap: SwapOutcome, outcome: FetchOutcome)
    requires Mirrored(v)
    ensures Mirrored(Fetch(v, id, outcome))
    ensures Mirrored(OnMount(v, loc, outcome).0)
    ensures Mirrored(OnCompletion(v, loc, outcome).0)
    ensures Mirrored(SwapConfirm(v, id, swap, outcome).0)
    ensures v.mission.Some? ==> Mirrored(SwapClick(v).0)
  {
  }

  /** On mount a selected mission is fetched and the navigation state is
      cleared unless it carries a completion; with neither a selected nor a
      current mission the page reports an error and stops loading. */
  lemma MountOutcomes(v: View, loc: Location, outcome: FetchOutcome)
    ensures loc.state.Some? && Truthy(loc.state.value.selectedMissionId) ==>
      && OnMount(v, loc, outcome).0 == Fetch(v, loc.state.value.selectedMissionId.value, outcome)
      && (OnMount(v, loc, outcome).1 == loc <==> Truthy(loc.state.value.completedTaskId) || loc.state == Some(EmptyState))
    ensures !(loc.state.Some? && Truthy(loc.state.value.selectedMissionId)) && !Truthy(v.currentMissionId) ==>
      OnMount(v, loc, outcome) == (v.(error := Some(NoSelectionError), loading := false), loc)
  {
  }

  /** A completion event without a known current mission is ignored; with
      one, the mission is refetched and the event is consumed. */
  lemma CompletionOutcomes(v: View, loc: Location, outcome: FetchOutcome)
    ensures !Truthy(v.currentMissionId) ==> OnCompletion(v, loc, outcome) == (v, loc)
    ensures loc.state.Some? && Truthy(loc.state.value.completedTaskId) && Truthy(v.currentMissionId) ==>
      && OnCompletion(v, loc, outcome).0 == Fetch(v, v.currentMissionId.value, outcome)
      && OnCompletion(v, loc, outcome).1.state == Some(EmptyState)
    ensures OnCompletion(v, loc, outcome).1.path == loc.path
  {
  }

  /** Pressing swap on a locked mission alerts and never opens the dialog;
      on an unlocked one it opens the dialog and changes nothing else. */
  lemma SwapClickGuard(v: View)
    requires v.mission.Some?
    ensures v.mission.value.locked ==> SwapClick(v) == (v, Some(LockedClickAlert))
    ensures !v.mission.value.locked ==> SwapClick(v) == (v.(showSwapDialog := true), None)
  {
  }

  /** The mission changes and the dialog closes only when the remote swap
      reports success; any other outcome leaves the view as it was, and a
      rejection tagged "locked" is reported with its own message. */
  lemma SwapConfirmOutcomes(v: View, newId: MissionId, swap: SwapOutcome, fetch: FetchOutcome)
    ensures swap != SwapResponse(true) ==> SwapConfirm(v, newId, swap, fetch).0 == v
    ensures swap == SwapResponse(true) ==>
      && SwapConfirm(v, newId, swap, fetch).0 == Fetch(v, newId, fetch).(showSwapDialog := false)
      && SwapConfirm(v, newId, swap, fetch).1 == None
    ensures swap.SwapRejected? ==>
      SwapConfirm(v, newId, swap, fetch).1 == Some(if swap.locked then LockedSwapAlert else SwapErrorAlert)
    ensures LockedSwapAlert != SwapErrorAlert
  {
  }

  /** Through the page, every choice in the swap dialog is handed to the
      page and closes the dialog, whatever the swap's answer; the mission,
      its id and the store change only when the swap reports success. */
  lemma SwapChoiceOutcomes(v: View, newId: MissionId, swap: SwapOutcome, fetch: FetchOutcome)
    ensures MissionSelector.Handle(false, true, true, None, false, newId) == MissionSelector.Delegate
    ensures !SwapChoice(v, newId, swap, fetch).0.showSwapDialog
    ensures SwapChoice(v, newId, swap, fetch).1 == SwapConfirm(v, newId, swap, fetch).1
    ensures swap == SwapResponse(true) ==>
      SwapChoice(v, newId, swap, fetch).0 == Fetch(v, newId, fetch).(showSwapDialog := false)
    ensures swap != SwapResponse(true) ==>
      SwapChoice(v, newId, swap, fetch).0 == v.(showSwapDialog := false)
  {
  }

  /** A locked mission can never be swapped through the page: the click is
      refused before the dialog (and so the confirm step) is reached. */
  lemma LockedMissionStays(v: View)
    requires v.mission.Some? && v.mission.value.locked && !v.showSwapDialog
    ensures !SwapClick(v).0.showSwapDialog && SwapClick(v).0.currentMissionId == v.currentMissionId
  {
  }

  // ---------------------------------------------------------------
  // The page
  // ---------------------------------------------------------------

  class MissionPage {
    var mission: Option<Mission>
    var loading: bool
    var error: Option<string>
    var showSwapDialog: bool
    var currentMissionId: Option<MissionId>
    const store: LocalStorage
    const router: Router

    ghost function Snapshot(): View
      reads this, store
    {
      View(mission, loading, error, showSwapDialog, currentMissionId, store.activeMissionId, store.missionLocked)
    }

    constructor (store: LocalStorage, router: Router)
      ensures this.store == store && this.router == router
      ensures mission == None && loading && error == None && !showSwapDialog && currentMissionId == None
    {
      this.store := store;
      this.router := router;
      mission, loading, error := None, true, None;
      showSwapDialog, currentMissionId := false, None;
    }

    /** The effect that saves the active mission and its lock state. */
    method SaveActiveMission()
      modifies store`activeMissionId, store`missionLocked
      ensures Snapshot() == SaveActive(old(Snapshot()))
    {
      if mission.Some? {
        store.activeMissionId := Some(mission.value.id);
        store.missionLocked := Some(if mission.value.locked then "1" else "0");
      }
    }

    /** `fetchMission(missionId)`, with the remote answer as a parameter. */
    method FetchMission(missionId: MissionId, outcome: FetchOutcome)
      modifies this`mission, this`loading, this`error, this`currentMissionId,
        store`activeMissionId, store`missionLocked
      ensures Snapshot() == Fetch(old(Snapshot()), missionId, outcome)
    {
      loading := true;
      error := None;
      match outcome {
        case Fetched(data) =>
          mission := Some(data);
          currentMissionId := Some(missionId);
        case FetchFailed =>
          error := Some(LoadError);
      }
      loading := false;
      if outcome.Fetched? {
        SaveActiveMission();
      }
    }

    /** The mount effect. */
    method Mount(outcome: FetchOutcome)
      modifies this`mission, this`loading, this`error, this`currentMissionId,
        store`activeMissionId, store`missionLocked, router
      ensures (Snapshot(), router.location) == OnMount(old(Snapshot()), old(router.location), outcome)
    {
      var state := router.location.state;
      if state.Some? && Truthy(state.value.selectedMissionId) {
        FetchMission(state.value.selectedMissionId.value, outcome);
        if !Truthy(state.value.completedTaskId) {
          router.Navigate(router.location.path, Some(EmptyState));
        }
      } else if Truthy(currentMissionId) {
      } else {
        error := Some(NoSelectionError);
        loading := false;
      }
    }

    /** The effect that reloads the mission after a task completion. */
    method ReloadAfterCompletion(outcome: FetchOutcome)
      modifies this`mission, this`loading, this`error, this`currentMissionId,
        store`activeMissionId, store`missionLocked, router
      ensures (Snapshot(), router.location) == OnCompletion(old(Snapshot()), old(router.location), outcome)
    {
      var state := router.location.state;
      if state.Some? && Truthy(state.value.completedTaskId) && Truthy(currentMissionId) {
        FetchMission(currentMissionId.value, outcome);
        router.Navigate(router.location.path, Some(EmptyState));
      }
    }

    /** `handleTaskClick(task)`: a completed task is ignored. */
    method HandleTaskClick(task: Task)
      requires mission.Some?
      modifies router
      ensures task.completed ==> router.location == old(router.location)
      ensures !task.completed ==> (router.location ==
        Location(LocationPath(task.locationId), Some(EmptyState.(task := Some(task), missionId := Some(mission.value.id)))))
    {
      if task.completed {
        return;
      }
      router.Navigate(LocationPath(task.locationId),
        Some(EmptyState.(task := Some(task), missionId := Some(mission.value.id))));
    }

    /** `handleSwapClick`, returning the alert it shows. */
    method HandleSwapClick() returns (alert: Option<string>)
      requires mission.Some?
      modifies this`showSwapDialog
      ensures (Snapshot(), alert) == SwapClick(old(Snapshot()))
    {
      if mission.value.locked {
        return Some(LockedClickAlert);
      }
      showSwapDialog := true;
      return None;
    }

    /** `handleSwapConfirm(newMissionId)`, with the swap and the follow-up
        fetch answers as parameters, returning the alert it shows. */
    method HandleSwapConfirm(newMissionId: MissionId, swap: SwapOutcome, fetch: FetchOutcome)
      returns (alert: Option<string>)
      modifies this`mission, this`loading, this`error, this`currentMissionId, this`showSwapDialog,
        store`activeMissionId, store`missionLocked
      ensures (Snapshot(), alert) == SwapConfirm(old(Snapshot()), newMissionId, swap, fetch)
    {
      alert := None;
      match swap
      case SwapResponse(success) =>
        if success {
          FetchMission(newMissionId, fetch);
          showSwapDialog := false;
        }
      case SwapRejected(locked) =>
        alert := Some(if locked then LockedSwapAlert else SwapErrorAlert);
    }

    /** A choice made in the swap dialog: the selector's delegation to
        `handleSwapConfirm` followed by its `onClose`. */
    method ChooseInSwapDialog(newMissionId: MissionId, swap: SwapOutcome, fetch: FetchOutcome)
      returns (alert: Option<string>)
      modifies this`mission, this`loading, this`error, this`currentMissionId, this`showSwapDialog,
        store`activeMissionId, store`missionLocked
      ensures (Snapshot(), alert) == SwapChoice(old(Snapshot()), newMissionId, swap, fetch)
    {
      alert := HandleSwapConfirm(newMissionId, swap, fetch);
      showSwapDialog := false;
    }

    /** The swap button: shown while some task is open, disabled while locked. */
    method SwapButton() returns (shown: bool, disabled: bool)
      requires mission.Some?
      ensures shown <==> exists i :: 0 <= i < |mission.value.tasks| && !mission.value.tasks[i].completed
      ensures disabled == mission.value.locked
    {
      var completedCount := CompletedCount(mission);
      shown := completedCount != |mission.value.tasks|;
      disabled := mission.value.locked;
      AllTasksCompleteIff(mission.value);
    }
  }
}
