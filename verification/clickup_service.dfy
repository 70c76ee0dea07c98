/** `ClickUpService`: a single-slot cache, valid for `refreshInterval`
    minutes, in front of the ClickUp API and the AI processor. The remote work
    (the two API calls and `interpretKanbanData`) is one step that either
    delivers the list and its checkpoints or fails; the clock is a parameter. */
module Service {
  import opened Wrappers
  import opened Text
  import opened Rounding
  import opened ProjectTypes
  import AiProcessor

  /** A `Partial<ProjectSettingsOptions>`: `None` for a field not supplied. */
  datatype SettingsPatch = SettingsPatch(
    teamId: Option<string>,
    spaceId: Option<string>,
    listId: Option<string>,
    refreshInterval: Option<int>)

  /** `{ ...settings, ...patch }`. */
  function MergeSettings(settings: ProjectSettings, patch: SettingsPatch): (r: ProjectSettings)
    ensures r.teamId == (if patch.teamId.Some? then patch.teamId.value else settings.teamId)
    ensures r.spaceId == (if patch.spaceId.Some? then patch.spaceId.value else settings.spaceId)
    ensures r.listId == (if patch.listId.Some? then patch.listId.value else settings.listId)
    ensures r.refreshInterval == (if patch.refreshInterval.Some? then patch.refreshInterval.value else settings.refreshInterval)
    ensures patch == SettingsPatch(None, None, None, None) ==> r == settings
  {
    ProjectSettings(
      if patch.teamId.Some? then patch.teamId.value else settings.teamId,
      if patch.spaceId.Some? then patch.spaceId.value else settings.spaceId,
      if patch.listId.Some? then patch.listId.value else settings.listId,
      if patch.refreshInterval.Some? then patch.refreshInterval.value else settings.refreshInterval)
  }

  /** The list and its checkpoints, as the remote step delivers them. */
  datatype RemoteList = RemoteList(id: string, name: string)

  datatype RemoteSnapshot = RemoteSnapshot(list: RemoteList, checkpoints: seq<Checkpoint>)

  /** `Date.now()` at entry and today's date as `toLocaleDateString('pt-BR')` renders it. */
  datatype Clock = Clock(now: int, today: string)

  /** Whole days from today to the date whose `[day, month, year]` parts are
      given, rounded up; `None` stands for `NaN`. */
  type DayCounter = seq<string> -> Option<int>

  // ---------------------------------------------------------------------
  // Project construction

  function SumProgress(checkpoints: seq<Checkpoint>): int
  {
    if |checkpoints| == 0 then 0 else checkpoints[0].progress + SumProgress(checkpoints[1..])
  }

  /** `Math.round(totalProgress / checkpoints.length)`, 0 without checkpoints. */
  function AverageProgress(checkpoints: seq<Checkpoint>): (r: int)
    ensures |checkpoints| == 0 ==> r == 0
    ensures |checkpoints| > 0 ==>
      2 * |checkpoints| * r <= 2 * SumProgress(checkpoints) + |checkpoints| < 2 * |checkpoints| * (r + 1)
  {
    if |checkpoints| > 0 then RoundHalfUp(SumProgress(checkpoints), |checkpoints|) else 0
  }

  predicate ProgressInRange(checkpoints: seq<Checkpoint>)
  {
    forall k :: 0 <= k < |checkpoints| ==> 0 <= checkpoints[k].progress <= 100
  }

  lemma {:induction false} SumProgressBounds(checkpoints: seq<Checkpoint>)
    requires ProgressInRange(checkpoints)
    ensures 0 <= SumProgress(checkpoints) <= 100 * |checkpoints|
  {
    if |checkpoints| > 0 {
      SumProgressBounds(checkpoints[1..]);
    }
  }

  /** The project's progress is the rounded mean of its checkpoints' progress:
      in 0..100 when each checkpoint's is, and 0 without checkpoints. */
  lemma AverageProgressBounds(checkpoints: seq<Checkpoint>)
    requires ProgressInRange(checkpoints)
    ensures 0 <= AverageProgress(checkpoints) <= 100
    ensures |checkpoints| == 0 ==> AverageProgress(checkpoints) == 0
  {
    if |checkpoints| > 0 {
      SumProgressBounds(checkpoints);
      RoundHalfUpBetween(SumProgress(checkpoints), |checkpoints|, 0, 100);
    }
  }

  /** Checkpoints translated from ClickUp tasks, in whatever order the remote
      step delivers them, each have progress in 0..100, so the project's
      progress is one too. */
  lemma TranslatedCheckpointsInRange(tasks: seq<AiProcessor.ApiTask>, statusMap: map<string, Status>,
                                     render: AiProcessor.Renderer, checkpoints: seq<Checkpoint>)
    requires forall k :: 0 <= k < |checkpoints| ==>
      exists j :: 0 <= j < |tasks| && checkpoints[k] == AiProcessor.TranslateTaskToCheckpoint(tasks[j], statusMap, render)
    ensures ProgressInRange(checkpoints)
    ensures 0 <= AverageProgress(checkpoints) <= 100
  {
    forall k | 0 <= k < |checkpoints|
      ensures 0 <= checkpoints[k].progress <= 100
    {
      var j :| 0 <= j < |tasks| && checkpoints[k] == AiProcessor.TranslateTaskToCheckpoint(tasks[j], statusMap, render);
    }
    AverageProgressBounds(checkpoints);
  }

  /** `calculateDaysRemaining`: 0 for an empty date or one that is not three
      '/'-separated parts, otherwise the day count clamped at 0. */
  function CalculateDaysRemaining(endDateStr: string, daysUntil: DayCounter): (r: int)
    ensures r >= 0
  {
    if endDateStr == "" then 0
    else
      var parts := Split(endDateStr, '/');
      if |parts| != 3 then 0
      else
        var diffDays := daysUntil(parts);
        if diffDays.Some? && diffDays.value > 0 then diffDays.value else 0
  }

  /** A positive day count comes only from a date with exactly two '/', whose
      three parts gave that positive count. */
  lemma DaysRemainingGuards(endDateStr: string, daysUntil: DayCounter)
    ensures var r := CalculateDaysRemaining(endDateStr, daysUntil);
      r > 0 ==> endDateStr != "" && Occurrences(endDateStr, '/') == 2 && daysUntil(Split(endDateStr, '/')) == Some(r)
    ensures Occurrences(endDateStr, '/') != 2 ==> CalculateDaysRemaining(endDateStr, daysUntil) == 0
  {
    SplitLength(endDateStr, '/');
  }

  /** The project built from a successful remote step. */
  function BuildProject(snapshot: RemoteSnapshot, today: string, daysUntil: DayCounter): (p: Project)
    ensures p.id == snapshot.list.id && p.title == snapshot.list.name && p.checkpoints == snapshot.checkpoints
    ensures p.progress == AverageProgress(snapshot.checkpoints)
    ensures p.daysRemaining == CalculateDaysRemaining(p.endDate, daysUntil) && p.daysRemaining >= 0
  {
    var cps := snapshot.checkpoints;
    var endDate := if |cps| > 0 then cps[|cps| - 1].endDate else "";
    Project(
      snapshot.list.id,
      snapshot.list.name,
      "Cliente IA",
      AverageProgress(cps),
      cps,
      if |cps| > 0 then cps[0].startDate else today,
      endDate,
      "R$ 28.500,00",
      CalculateDaysRemaining(endDate, daysUntil))
  }

  /** The project spans from its first checkpoint's start to its last
      checkpoint's end (today and '' without checkpoints), counts its days
      from that end date, and has progress in 0..100 when its checkpoints do. */
  lemma ProjectSpan(snapshot: RemoteSnapshot, today: string, daysUntil: DayCounter)
    ensures var p := BuildProject(snapshot, today, daysUntil);
      var cps := snapshot.checkpoints;
      && p.id == snapshot.list.id && p.title == snapshot.list.name && p.checkpoints == cps
      && (|cps| > 0 ==> p.startDate == cps[0].startDate && p.endDate == cps[|cps| - 1].endDate)
      && (|cps| == 0 ==> p.startDate == today && p.endDate == "" && p.daysRemaining == 0 && p.progress == 0)
      && p.daysRemaining >= 0
      && (ProgressInRange(cps) ==> 0 <= p.progress <= 100)
  {
    if ProgressInRange(snapshot.checkpoints) {
      AverageProgressBounds(snapshot.checkpoints);
    }
  }

  // ---------------------------------------------------------------------
  // The cache as a state machine

  datatype CacheState = CacheState(settings: ProjectSettings, cachedProject: Option<Project>, lastFetch: int)

  function RefreshIntervalMs(settings: ProjectSettings): int
  {
    settings.refreshInterval * 60 * 1000
  }

  /** The three conditions under which `fetchProjectData` answers from the cache. */
  predicate CacheHit(st: CacheState, forceRefresh: bool, now: int)
  {
    !forceRefresh && st.cachedProject.Some? && now - st.lastFetch < RefreshIntervalMs(st.settings)
  }

  function FailureMessage(error: string): string
  {
    "Falha ao buscar dados do projeto: " + error
  }

  /** `fetchProjectData` on the cache state: the new state and the outcome. */
  function FetchStep(st: CacheState, forceRefresh: bool, clock: Clock, daysUntil: DayCounter,
                     remote: Result<RemoteSnapshot>): (r: (CacheState, Result<Project>))
    ensures r.0.settings == st.settings
    ensures CacheHit(st, forceRefresh, clock.now) ==> r == (st, Success(st.cachedProject.value))
    ensures !CacheHit(st, forceRefresh, clock.now) && remote.Failure? ==>
      r == (st, Failure(FailureMessage(remote.error)))
    ensures !CacheHit(st, forceRefresh, clock.now) && remote.Success? ==>
      && r.1 == Success(BuildProject(remote.value, clock.today, daysUntil))
      && r.0 == CacheState(st.settings, Some(r.1.value), clock.now)
  {
    if CacheHit(st, forceRefresh, clock.now) then (st, Success(st.cachedProject.value))
    else
      match remote
      case Failure(e) => (st, Failure(FailureMessage(e)))
      case Success(snapshot) =>
        var project := BuildProject(snapshot, clock.today, daysUntil);
        (st.(cachedProject := Some(project), lastFetch := clock.now), Success(project))
  }

  /** `updateSettings` on the cache state. */
  function UpdateStep(st: CacheState, patch: SettingsPatch): (r: CacheState)
    ensures r.settings == MergeSettings(st.settings, patch)
    ensures r.cachedProject.None? && r.lastFetch == st.lastFetch
  {
    st.(settings := MergeSettings(st.settings, patch), cachedProject := None)
  }

  /** On a hit the cached project is returned and nothing changes, whatever
      the remote step would have done. */
  lemma FetchFromCache(st: CacheState, forceRefresh: bool, clock: Clock, daysUntil: DayCounter,
                       remote: Result<RemoteSnapshot>)
    requires CacheHit(st, forceRefresh, clock.now)
    ensures FetchStep(st, forceRefresh, clock, daysUntil, remote) == (st, Success(st.cachedProject.value))
  {
  }

  /** A miss that succeeds stores the new project and the entry time and keeps the settings. */
  lemma FetchMissStores(st: CacheState, forceRefresh: bool, clock: Clock, daysUntil: DayCounter,
                        snapshot: RemoteSnapshot)
    requires !CacheHit(st, forceRefresh, clock.now)
    ensures var (st', r) := FetchStep(st, forceRefresh, clock, daysUntil, Success(snapshot));
      && r == Success(BuildProject(snapshot, clock.today, daysUntil))
      && st' == CacheState(st.settings, Some(r.value), clock.now)
  {
  }

  /** A miss that fails reports the wrapped error and leaves the state as it was. */
  lemma FetchMissFailureKeepsState(st: CacheState, forceRefresh: bool, clock: Clock, daysUntil: DayCounter,
                                   error: string)
    requires !CacheHit(st, forceRefresh, clock.now)
    ensures FetchStep(st, forceRefresh, clock, daysUntil, Failure(error)) == (st, Failure(FailureMessage(error)))
  {
  }

  /** The cache answers exactly when the three conditions hold: with a failing
      remote step, the fetch succeeds if and only if it is a hit. */
  lemma CacheHitIffServedWithoutRemote(st: CacheState, forceRefresh: bool, clock: Clock, daysUntil: DayCounter,
                                       error: string)
    ensures CacheHit(st, forceRefresh, clock.now) <==> FetchStep(st, forceRefresh, clock, daysUntil, Failure(error)).1.Success?
  {
  }

  /** With `forceRefresh` the cache is never used. */
  lemma ForceRefreshBypassesCache(st: CacheState, clock: Clock, daysUntil: DayCounter, remote: Result<RemoteSnapshot>)
    ensures var (st', r) := FetchStep(st, true, clock, daysUntil, remote);
      && (remote.Success? ==> r == Success(BuildProject(remote.value, clock.today, daysUntil)) && st'.lastFetch == clock.now)
      && (remote.Failure? ==> r.Failure? && st' == st)
  {
  }

  /** After `updateSettings` the next fetch is a miss, whatever the time and
      flag; the supplied fields are replaced, the others kept, and `lastFetch`
      is untouched. */
  lemma UpdateInvalidates(st: CacheState, patch: SettingsPatch, forceRefresh: bool, now: int)
    ensures var st' := UpdateStep(st, patch);
      && !CacheHit(st', forceRefresh, now)
      && st'.lastFetch == st.lastFetch
      && (patch.listId.Some? ==> st'.settings.listId == patch.listId.value)
      && (patch.listId.None? ==> st'.settings.listId == st.settings.listId)
      && (patch.refreshInterval.Some? ==> st'.settings.refreshInterval == patch.refreshInterval.value)
      && (patch.refreshInterval.None? ==> st'.settings.refreshInterval == st.settings.refreshInterval)
      && (patch.teamId.Some? ==> st'.settings.teamId == patch.teamId.value)
      && (patch.teamId.None? ==> st'.settings.teamId == st.settings.teamId)
      && (patch.spaceId.Some? ==> st'.settings.spaceId == patch.spaceId.value)
      && (patch.spaceId.None? ==> st'.settings.spaceId == st.settings.spaceId)
  {
  }

  /** A project fetched at time t is served from the cache, unchanged, by every
      non-forced fetch before t + refreshInterval minutes. */
  lemma FreshWithinWindow(st: CacheState, forceRefresh: bool, clock: Clock, daysUntil: DayCounter,
                          snapshot: RemoteSnapshot, later: Clock, laterRemote: Result<RemoteSnapshot>)
    requires !CacheHit(st, forceRefresh, clock.now)
    requires clock.now <= later.now < clock.now + RefreshIntervalMs(st.settings)
    ensures var (st1, r1) := FetchStep(st, forceRefresh, clock, daysUntil, Success(snapshot));
      FetchStep(st1, false, later, daysUntil, laterRemote) == (st1, r1)
  {
  }

  // ---------------------------------------------------------------------
  // The service object

  class ClickUpService {
    var settings: ProjectSettings
    var cachedProject: Option<Project>
    var lastFetch: int

    function State(): CacheState
      reads this
    {
      CacheState(settings, cachedProject, lastFetch)
    }

    constructor (settings: ProjectSettings)
      ensures State() == CacheState(settings, None, 0)
    {
      this.settings := settings;
      cachedProject := None;
      lastFetch := 0;
    }

    /** `updateSettings`: merges the supplied fields and drops the cached project. */
    method UpdateSettings(patch: SettingsPatch)
      modifies this
      ensures State() == UpdateStep(old(State()), patch)
      ensures !CacheHit(State(), false, lastFetch)
    {
      settings := MergeSettings(settings, patch);
      cachedProject := None;
    }

    /** `fetchProjectData`. */
    method FetchProjectData(forceRefresh: bool, clock: Clock, daysUntil: DayCounter,
                            remote: Result<RemoteSnapshot>) returns (r: Result<Project>)
      modifies this
      ensures (State(), r) == FetchStep(old(State()), forceRefresh, clock, daysUntil, remote)
      ensures old(CacheHit(State(), forceRefresh, clock.now)) ==> unchanged(this)
      ensures remote.Failure? ==> unchanged(this)
    {
      var now := clock.now;
      var refreshIntervalMs := settings.refreshInterval * 60 * 1000;
      if !forceRefresh && cachedProject.Some? && now - lastFetch < refreshIntervalMs {
        return Success(cachedProject.value);
      }
      match remote
      case Failure(e) =>
        return Failure("Falha ao buscar dados do projeto: " + e);
      case Success(snapshot) =>
        var project := BuildProject(snapshot, clock.today, daysUntil);
        cachedProject := Some(project);
        lastFetch := now;
        return Success(project);
    }
  }
}
