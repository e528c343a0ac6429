/** The simulation progress store: one mutable object whose fields the five
    actions overwrite. Each action is specified by the transition of the same
    name on state values, so every lemma about sequences of transitions
    applies to sequences of calls on the store. */
module SimStore {
  import opened SimTypes
  import opened Progress
  import opened Catalog
  import SimState

  class Store {
    var currentScenario: Option<string>
    var completedScenarios: seq<string>
    var unlockedProjects: seq<string>
    var scenarios: seq<Scenario>
    var projects: seq<Project>
    var showProject: Option<string>
    var missionComplete: bool

    /** The current values of the seven fields. */
    function Snapshot(): SimState.State
      reads this
    {
      SimState.State(currentScenario, completedScenarios, unlockedProjects,
                     scenarios, projects, showProject, missionComplete)
    }

    /** No duplicate completed or unlocked ids, no empty unlocked id, and
        `missionComplete` agrees with the completed count. */
    predicate Valid()
      reads this
    {
      SimState.Inv(Snapshot())
    }

    /** The store as created: nothing loaded, nothing completed. */
    constructor ()
      ensures Snapshot() == SimState.Initial()
      ensures Valid()
    {
      currentScenario := None;
      completedScenarios := [];
      unlockedProjects := [];
      scenarios := [];
      projects := [];
      showProject := None;
      missionComplete := false;
    }

    method SetCurrentScenario(scenarioId: Option<string>)
      modifies this
      ensures Snapshot() == SimState.SetCurrentScenario(old(Snapshot()), scenarioId)
      ensures old(Valid()) ==> Valid()
    {
      currentScenario := scenarioId;
    }

    method CompleteScenario(scenarioId: string, projectId: Option<string>)
      modifies this
      ensures Snapshot() == SimState.CompleteScenario(old(Snapshot()), scenarioId, projectId)
      ensures missionComplete <==> |completedScenarios| >= MissionThreshold
      ensures old(Valid()) ==> Valid()
    {
      var updatedScenarios := MarkCompleted(scenarios, scenarioId, projectId);
      var newUnlockedProjects := UnlockProject(unlockedProjects, projectId);
      var newCompletedScenarios := AppendIfAbsent(completedScenarios, scenarioId);
      var newMissionComplete := |newCompletedScenarios| >= MissionThreshold;

      scenarios := updatedScenarios;
      unlockedProjects := newUnlockedProjects;
      completedScenarios := newCompletedScenarios;
      missionComplete := newMissionComplete;
      currentScenario := None;
      showProject := ShownProject(projectId);
    }

    method SetShowProject(projectId: Option<string>)
      modifies this
      ensures Snapshot() == SimState.SetShowProject(old(Snapshot()), projectId)
      ensures old(Valid()) ==> Valid()
    {
      showProject := projectId;
    }

    method InitializeData()
      modifies this
      ensures Snapshot() == SimState.InitializeData(old(Snapshot()))
      ensures old(Valid()) ==> Valid()
    {
      scenarios := TemplateScenarios;
      projects := TemplateProjects;
    }

    method ResetSimulation()
      modifies this
      ensures Snapshot() == SimState.ResetSimulation(old(Snapshot()))
      ensures Valid()
    {
      currentScenario := None;
      completedScenarios := [];
      unlockedProjects := [];
      showProject := None;
      missionComplete := false;
    }
  }
}
