/** The store's state as a value, the five actions as transitions on it, and
    what holds across any sequence of actions. */
module SimState {
  import opened SimTypes
  import opened Progress
  import opened Catalog

  /** A snapshot of the seven store fields. */
  datatype State = State(
    currentScenario: Option<string>,
    completedScenarios: seq<string>,
    unlockedProjects: seq<string>,
    scenarios: seq<Scenario>,
    projects: seq<Project>,
    showProject: Option<string>,
    missionComplete: bool)

  /** The store as created: no catalog loaded, no progress. */
  function Initial(): State {
    State(None, [], [], [], [], None, false)
  }

  /** `missionComplete` agrees with the number of completed scenarios. */
  predicate MissionRule(s: State) {
    s.missionComplete <==> |s.completedScenarios| >= MissionThreshold
  }

  /** What holds of every state reachable from the initial one. */
  predicate Inv(s: State) {
    && Distinct(s.completedScenarios)
    && Distinct(s.unlockedProjects)
    && (forall p :: p in s.unlockedProjects ==> p != "")
    && MissionRule(s)
  }

  /** `setCurrentScenario`: only `currentScenario` changes, to the given id,
      which is not checked against the catalog. */
  function SetCurrentScenario(s: State, scenarioId: Option<string>): (t: State)
    ensures t.currentScenario == scenarioId
    ensures t.(currentScenario := s.currentScenario) == s
  {
    s.(currentScenario := scenarioId)
  }

  /** `completeScenario`: the whole new state, built from the pure updates. */
  function CompleteScenario(s: State, scenarioId: string, projectId: Option<string>): (t: State)
    ensures t.scenarios == MarkCompleted(s.scenarios, scenarioId, projectId)
    ensures t.unlockedProjects == UnlockProject(s.unlockedProjects, projectId)
    ensures t.completedScenarios == AppendIfAbsent(s.completedScenarios, scenarioId)
    ensures MissionRule(t)
    ensures t.currentScenario == None
    ensures t.showProject == ShownProject(projectId)
    ensures t.projects == s.projects
  {
    var updatedScenarios := MarkCompleted(s.scenarios, scenarioId, projectId);
    var newUnlockedProjects := UnlockProject(s.unlockedProjects, projectId);
    var newCompletedScenarios := AppendIfAbsent(s.completedScenarios, scenarioId);
    var missionComplete := |newCompletedScenarios| >= MissionThreshold;
    State(None, newCompletedScenarios, newUnlockedProjects, updatedScenarios, s.projects,
          ShownProject(projectId), missionComplete)
  }

  /** `setShowProject`: only `showProject` changes, to the given id, which is
      not checked against the catalog. */
  function SetShowProject(s: State, projectId: Option<string>): (t: State)
    ensures t.showProject == projectId
    ensures t.(showProject := s.showProject) == s
  {
    s.(showProject := projectId)
  }

  /** `initializeData`: the catalog becomes the template; no progress field changes. */
  function InitializeData(s: State): (t: State)
    ensures t.scenarios == TemplateScenarios && t.projects == TemplateProjects
    ensures t.(scenarios := s.scenarios, projects := s.projects) == s
  {
    s.(scenarios := TemplateScenarios, projects := TemplateProjects)
  }

  /** `resetSimulation`: every progress field returns to its initial value;
      the catalog, including the per-scenario flags, is kept. */
  function ResetSimulation(s: State): (t: State)
    ensures t == Initial().(scenarios := s.scenarios, projects := s.projects)
  {
    State(None, [], [], s.scenarios, s.projects, None, false)
  }

  /** A call of one of the five store actions. */
  datatype Action =
    | SetCurrent(selected: Option<string>)
    | Complete(scenarioId: string, projectId: Option<string>)
    | SetShown(shown: Option<string>)
    | Initialize
    | Reset

  function Step(s: State, a: Action): State {
    match a
    case SetCurrent(id) => SetCurrentScenario(s, id)
    case Complete(id, p) => CompleteScenario(s, id, p)
    case SetShown(p) => SetShowProject(s, p)
    case Initialize => InitializeData(s)
    case Reset => ResetSimulation(s)
  }

  /** The state after the actions of `trace`, in order. */
  function Run(s: State, trace: seq<Action>): State
    decreases |trace|
  {
    if trace == [] then s else Run(Step(s, trace[0]), trace[1..])
  }

  /** Every action keeps the invariant. */
  lemma StepPreservesInv(s: State, a: Action)
    requires Inv(s)
    ensures Inv(Step(s, a))
  {
  }

  /** Any sequence of actions keeps the invariant. */
  lemma {:induction false} RunPreservesInv(s: State, trace: seq<Action>)
    requires Inv(s)
    ensures Inv(Run(s, trace))
    decreases |trace|
  {
    if trace != [] {
      StepPreservesInv(s, trace[0]);
      RunPreservesInv(Step(s, trace[0]), trace[1..]);
    }
  }

  /** In every state reachable from the initial one the completed and
      unlocked lists are duplicate-free, no unlocked id is empty, and
      `missionComplete` holds exactly when at least three scenarios are
      completed. */
  lemma ReachableInv(trace: seq<Action>)
    ensures Inv(Run(Initial(), trace))
  {
    RunPreservesInv(Initial(), trace);
  }

  /** Without a reset, the completed and unlocked lists only grow: each old
      list stays a prefix of the new one. */
  lemma {:induction false} GrowsWithoutReset(s: State, trace: seq<Action>)
    requires forall k :: 0 <= k < |trace| ==> !trace[k].Reset?
    ensures s.completedScenarios <= Run(s, trace).completedScenarios
    ensures s.unlockedProjects <= Run(s, trace).unlockedProjects
    decreases |trace|
  {
    if trace != [] {
      var t := Step(s, trace[0]);
      assert s.completedScenarios <= t.completedScenarios;
      assert s.unlockedProjects <= t.unlockedProjects;
      GrowsWithoutReset(t, trace[1..]);
    }
  }

  /** Once the template catalog is loaded, no action changes the projects or
      the scenario ids: the set of scenarios is fixed at load time. */
  lemma {:induction false} CatalogStable(s: State, trace: seq<Action>)
    requires s.projects == TemplateProjects
    requires ScenarioIds(s.scenarios) == ScenarioIds(TemplateScenarios)
    ensures Run(s, trace).projects == TemplateProjects
    ensures ScenarioIds(Run(s, trace).scenarios) == ScenarioIds(TemplateScenarios)
    decreases |trace|
  {
    if trace != [] {
      if trace[0].Complete? {
        MarkCompletedKeepsIds(s.scenarios, trace[0].scenarioId, trace[0].projectId);
      }
      CatalogStable(Step(s, trace[0]), trace[1..]);
    }
  }

  /** Completing the same scenario with the same project twice leaves the
      same state as completing it once. */
  lemma CompleteScenarioIdempotent(s: State, scenarioId: string, projectId: Option<string>)
    ensures var once := CompleteScenario(s, scenarioId, projectId);
            CompleteScenario(once, scenarioId, projectId) == once
  {
    MarkCompletedIdempotent(s.scenarios, scenarioId, projectId);
  }

  /** Loading the catalog twice is loading it once. */
  lemma InitializeDataIdempotent(s: State)
    ensures InitializeData(InitializeData(s)) == InitializeData(s)
  {
  }

  /** The scenario id is not checked: an id outside the catalog leaves the
      scenario list as it was but is still counted as completed. */
  lemma UnknownScenarioStillCounted(s: State, scenarioId: string, projectId: Option<string>)
    requires scenarioId !in ScenarioIds(s.scenarios)
    requires scenarioId !in s.completedScenarios
    ensures CompleteScenario(s, scenarioId, projectId).scenarios == s.scenarios
    ensures CompleteScenario(s, scenarioId, projectId).completedScenarios
            == s.completedScenarios + [scenarioId]
  {
    MarkCompletedUnknown(s.scenarios, scenarioId, projectId);
  }

  /** An empty project id is falsy: nothing is unlocked or shown, yet the
      scenario record stores the empty string as its unlocked project. */
  lemma EmptyProjectIdIsFalsy(s: State, scenarioId: string, i: nat)
    requires i < |s.scenarios| && s.scenarios[i].id == scenarioId
    ensures CompleteScenario(s, scenarioId, Some("")).unlockedProjects == s.unlockedProjects
    ensures CompleteScenario(s, scenarioId, Some("")).showProject == None
    ensures CompleteScenario(s, scenarioId, Some("")).scenarios[i].unlockedProject == Some("")
  {
  }

  /** After loading the catalog, completing a scenario and resetting, the
      progress is empty but the scenario record still says completed. */
  lemma ResetLeavesStaleFlag()
    ensures var s := ResetSimulation(CompleteScenario(InitializeData(Initial()),
                       "social-engineering", Some("social-engineering-toolkit")));
            s.completedScenarios == [] && s.scenarios[0].completed
            && s.scenarios[0].unlockedProject == Some("social-engineering-toolkit")
  {
  }

  /** First completion from empty progress (a fresh or just reset store):
      one scenario done, its project unlocked and shown, mission not complete. */
  lemma FirstCompletionExample(s0: State)
    requires s0.completedScenarios == [] && s0.unlockedProjects == []
    ensures var s := CompleteScenario(s0, "social-engineering", Some("social-engineering-toolkit"));
            && s.completedScenarios == ["social-engineering"]
            && s.unlockedProjects == ["social-engineering-toolkit"]
            && s.showProject == Some("social-engineering-toolkit")
            && s.currentScenario == None
            && !s.missionComplete
  {
  }

  /** A choice that unlocks nothing: the scenario is counted, nothing is
      unlocked and no project is shown. */
  lemma NoUnlockExample(s: State)
    requires "technical-exploitation" !in s.completedScenarios
    ensures var t := CompleteScenario(s, "technical-exploitation", None);
            && |t.completedScenarios| == |s.completedScenarios| + 1
            && t.unlockedProjects == s.unlockedProjects
            && t.showProject == None
  {
  }

  /** Three distinct completions from empty progress complete the mission. */
  lemma ThreeCompletionsExample(s0: State)
    requires s0.completedScenarios == [] && s0.unlockedProjects == []
    ensures var s := CompleteScenario(CompleteScenario(CompleteScenario(s0,
                       "social-engineering", Some("social-engineering-toolkit")),
                       "technical-exploitation", Some("secure-auth-system")),
                       "network-infiltration", None);
            && s.completedScenarios == ["social-engineering", "technical-exploitation", "network-infiltration"]
            && s.unlockedProjects == ["social-engineering-toolkit", "secure-auth-system"]
            && s.missionComplete
  {
  }
}
